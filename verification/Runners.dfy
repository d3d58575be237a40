/** The incremental runners: the batch loops over a store, with API calls and failures at every await. */
module Runners {
  import opened Rows
  import opened Keyset
  import opened Writers
  import opened Transforms
  import opened Status
  import opened Engine
  import opened EngineProgress
  import opened EngineAccounts
  import S = Store

  type Result<T> = S.Result<T>

  /** Where a body that raised leaves the runner. */
  function RaisedPc(n: nat, attempt: nat, e: S.Exn): Pc {
    match e
    case Ordinary => Failing(n, attempt)
    case Disconnected => Idle
    case Crashed => Down
  }

  /** What a body that raised leaves behind. */
  ghost predicate Raised(st: S.Store, n: nat, attempt: nat, faultsBefore: nat, e: S.Exn)
    reads st
  {
    st.sys.pc == RaisedPc(n, attempt, e) && st.faults == faultsBefore + if e.Ordinary? then 0 else 1
  }

  /** What a body that returned leaves behind: the loop ended, or a pause ended it. */
  ghost predicate Returned(st: S.Store, n: nat, attempt: nat, read: nat, written: nat)
    reads st
  {
    && st.sys.pc.Body? && st.sys.pc.n == n && st.sys.pc.attempt == attempt
    && st.sys.pc.at.AtDone? && st.sys.pc.at.read == read && st.sys.pc.at.written == written
  }

  /** The meaning of the counts and of a drained return. */
  ghost predicate Meaningful(st: S.Store, read: nat, written: nat)
    reads st
  {
    && st.sys.landed != []
    && read == |Last(st.sys.landed)| && Became(st.cfg, written, Last(st.sys.landed))
    && (Drained(st.sys.pc) ==> forall r :: r in st.source ==> !Above(r, st.sys.ckpt))
    && (!Drained(st.sys.pc) ==> st.status != RUNNING)
  }

  lemma ReturnIsMeaningful(st: S.Store, n: nat, attempt: nat, read: nat, written: nat)
    requires st.Valid() && Returned(st, n, attempt, read, written)
    ensures Meaningful(st, read, written)
  {
    ProgressAlways(st.cfg, st.init, st.hist);
    AccountsAlways(st.cfg, st.init, st.hist);
  }

  /**
   * _pause_if_requested: check, then apply; true even when the apply lost a race.
   * `observed` is the status that the check read.
   */
  method PauseIfRequested(st: S.Store) returns (r: Result<bool>, ghost observed: Status)
    requires st.Valid() && st.sys.pc.Body? && st.sys.pc.at.AtCheck?
    modifies st
    ensures st.sizes == old(st.sizes)
    ensures st.troubles == old(st.troubles) + if r.Raise? then 1 else 0
    ensures st.Valid()
    ensures r.Ok? ==> st.faults == old(st.faults) && st.runs == old(st.runs)
    ensures r.Ok? ==> var p, pc := old(st.sys.pc).at, old(st.sys.pc);
      if r.value then Returned(st, pc.n, pc.attempt, p.read, p.written) && !st.sys.pc.at.drained
      else st.sys.pc == pc.(at := AtFetch(p.cursor, p.read, p.written))
    ensures r.Ok? ==> r.value == (observed == PAUSE_REQUESTED)
    ensures r.Ok? && !r.value ==> st.status == observed
    ensures r.Ok? && r.value ==> st.status == (if st.seen == PAUSE_REQUESTED then PAUSED else st.seen) != RUNNING
    ensures r.Raise? ==> Raised(st, old(st.sys.pc).n, old(st.sys.pc).attempt, old(st.faults), r.exn)
    ensures r.Raise? ==> st.runs == old(st.runs)
  {
    var status := st.GetStatus();
    if status.Raise? {
      return S.Raise(status.exn), st.status;
    }
    observed := status.value;
    if status.value == PAUSE_REQUESTED {
      var applied := st.ApplyPauseRequested();
      if applied.Raise? {
        return S.Raise(applied.exn), observed;
      }
      return S.Ok(true), observed;
    }
    r := S.Ok(false);
  }

  /** The second half of an iteration, shared by both runners: tail guards, checkpoint, commit. */
  method Checkpoint(st: S.Store, batch: seq<Row>) returns (r: Result<Key>)
    requires st.Valid() && st.sys.pc.Body? && st.sys.pc.at.AtMark? && st.sys.pc.at.batch == batch && batch != []
    modifies st
    ensures st.sizes == old(st.sizes)
    ensures st.troubles == old(st.troubles) + if r.Raise? then 1 else 0
    ensures st.Valid()
    ensures r.Ok? ==> st.faults == old(st.faults) && st.runs == old(st.runs)
    ensures r.Ok? ==> Last(batch).ts.Some? && r.value == KeyOf(Last(batch))
    ensures r.Ok? ==> var p := old(st.sys.pc).at;
      st.sys.pc == old(st.sys.pc).(at := AtCheck(Some(r.value), p.read, p.written))
    // committed together, or not at all
    ensures r.Ok? ==> st.sink == old(st.sink) + old(st.pendWrites)
                      && st.lastValue == Some(r.value.ts) && st.lastId == Some(r.value.id)
    ensures r.Raise? ==>
      st.sink == old(st.sink) && st.lastValue == old(st.lastValue) && st.lastId == old(st.lastId)
    ensures r.Raise? ==> Raised(st, old(st.sys.pc).n, old(st.sys.pc).attempt, old(st.faults), r.exn)
    ensures r.Raise? ==> st.runs == old(st.runs)
  {
    var tail := Last(batch);
    if tail.ts.None? {
      st.RejectTail();
      return S.Raise(S.Ordinary);
    }
    var next := KeyOf(tail);
    var _ :- st.UpsertState(next);
    var _ :- st.CommitBatch();
    return S.Ok(next);
  }

  /** A non-empty batch output; a record without a required field raises before anything is sent. */
  method WriteRecords(st: S.Store, to: Encoder, rows: seq<Record>) returns (r: Result<nat>)
    requires st.Valid() && st.sys.pc.Body? && st.sys.pc.at.AtWrite?
    requires st.cfg.out(st.sys.pc.at.batch) == Items(to, rows)
    modifies st
    ensures st.sizes == old(st.sizes)
    ensures st.troubles == old(st.troubles) + if r.Raise? then 1 else 0
    ensures st.Valid() && (r.Ok? ==> st.faults == old(st.faults) && st.runs == old(st.runs))
    ensures r.Ok? ==> r.value == |rows| && Writable(to, rows) && st.Delivered(Items(to, rows))
    ensures r.Ok? ==> st.Counted(|rows|)
    ensures r.Raise? ==> Raised(st, old(st.sys.pc).n, old(st.sys.pc).attempt, old(st.faults), r.exn)
    ensures r.Raise? ==> st.runs == old(st.runs) && st.LeftBehind(Items(to, rows))
    ensures r.Raise? && !Writable(to, rows) ==> st.sink == old(st.sink)
  {
    var ops := BuildPayload(to, rows);
    if ops.None? {
      st.RejectRecords(to, rows);
      st.NothingLeft(Items(to, rows));
      return S.Raise(S.Ordinary);
    }
    r := st.Write(ops.value);
  }

  /** An empty batch output is not written. */
  method SkipRows(st: S.Store, to: Encoder, rows: seq<Record>) returns (r: Result<nat>)
    requires st.Valid() && st.sys.pc.Body? && st.sys.pc.at.AtWrite?
    requires st.cfg.out(st.sys.pc.at.batch) == Items(to, rows) && rows == []
    modifies st
    ensures st.sizes == old(st.sizes)
    ensures st.troubles == old(st.troubles) + if r.Raise? then 1 else 0
    ensures st.Valid() && st.faults == old(st.faults) && st.runs == old(st.runs)
    ensures r.Ok? && r.value == |rows| && Writable(to, rows) && st.Delivered(Items(to, rows))
    ensures st.Counted(|rows|)
  {
    assert Items(to, rows) == [];
    st.SkipWrite();
    r := S.Ok(0);
  }

  /** `if rows: writer.write(...)`: everything is delivered, or at most part of a bulk is left behind. */
  method WriteRows(st: S.Store, to: Encoder, rows: seq<Record>) returns (r: Result<nat>)
    requires st.Valid() && st.sys.pc.Body? && st.sys.pc.at.AtWrite?
    requires st.cfg.out(st.sys.pc.at.batch) == Items(to, rows)
    modifies st
    ensures st.sizes == old(st.sizes)
    ensures st.troubles == old(st.troubles) + if r.Raise? then 1 else 0
    ensures st.Valid() && (r.Ok? ==> st.faults == old(st.faults) && st.runs == old(st.runs))
    ensures r.Ok? ==> r.value == |rows| && Writable(to, rows) && st.Delivered(Items(to, rows))
    ensures r.Ok? ==> st.Counted(|rows|)
    ensures r.Raise? ==> Raised(st, old(st.sys.pc).n, old(st.sys.pc).attempt, old(st.faults), r.exn)
    ensures r.Raise? ==> st.runs == old(st.runs) && st.LeftBehind(Items(to, rows))
    ensures r.Raise? && !Writable(to, rows) ==> st.sink == old(st.sink)
  {
    if rows == [] {
      r := SkipRows(st, to, rows);
      return;
    }
    r := WriteRecords(st, to, rows);
  }

  /** What one iteration of the batch loop did. */
  datatype BatchEnd = Empty | Done(read: nat, written: nat, next: Key, paused: bool)

  /** The position after an iteration that began with these totals. */
  ghost predicate EndedAt(st: S.Store, n: nat, attempt: nat, end: BatchEnd, read: nat, written: nat)
    reads st
  {
    match end
    case Empty => st.sys.pc == Body(n, attempt, AtDone(read, written, true))
    case Done(r, w, next, paused) =>
      st.sys.pc == Body(n, attempt, if paused then AtDone(read + r, written + w, false)
                                    else AtFetch(Some(next), read + r, written + w))
  }

  /** Every iteration that goes on leaves fewer rows above the cursor. */
  ghost predicate Advances(st: S.Store, cursor: Option<Key>, end: BatchEnd)
    reads st
  {
    end.Done? ==> |Scan(st.source, Some(end.next))| < |Scan(st.source, cursor)|
  }

  /** Write, then checkpoint and commit. */
  method CommitRows(st: S.Store, to: Encoder, rows: seq<Record>, batch: seq<Row>) returns (r: Result<(nat, Key)>)
    requires st.Valid() && st.sys.pc.Body? && st.sys.pc.at.AtWrite? && st.sys.pc.at.batch == batch && batch != []
    requires st.cfg.out(batch) == Items(to, rows)
    modifies st
    ensures st.sizes == old(st.sizes)
    ensures st.troubles == old(st.troubles) + if r.Raise? then 1 else 0
    ensures st.Valid() && st.runs == old(st.runs) && (r.Ok? ==> st.faults == old(st.faults))
    ensures r.Ok? ==> Last(batch).ts.Some? && r.value.1 == KeyOf(Last(batch))
    ensures r.Ok? ==> var p := old(st.sys.pc).at;
      st.sys.pc == old(st.sys.pc).(at := AtCheck(Some(r.value.1), p.read, p.written + r.value.0))
    ensures r.Raise? ==> Raised(st, old(st.sys.pc).n, old(st.sys.pc).attempt, old(st.faults), r.exn)
  {
    var w :- WriteRows(st, to, rows);
    var next :- Checkpoint(st, batch);
    return S.Ok((w, next));
  }

  /** From the transformed rows of a batch to the end of the iteration: write, checkpoint, commit, pause check. */
  method FinishBatch(st: S.Store, ghost n: nat, ghost attempt: nat, ghost cursor: Option<Key>, ghost read: nat,
                     ghost written: nat, to: Encoder, rows: seq<Record>, batch: seq<Row>)
    returns (r: Result<BatchEnd>)
    requires st.Valid() && st.sys.pc == Body(n, attempt, AtWrite(cursor, read + |batch|, written, batch))
    requires n >= 1 && batch == Page(st.source, cursor, n) && batch != []
    requires st.cfg.out(batch) == Items(to, rows)
    modifies st
    ensures st.sizes == old(st.sizes)
    ensures st.troubles == old(st.troubles) + if r.Raise? then 1 else 0
    ensures st.Valid() && st.runs == old(st.runs)
    ensures r.Ok? ==> st.faults == old(st.faults) && r.value.Done? && r.value.read == |batch|
    ensures r.Ok? ==> EndedAt(st, n, attempt, r.value, read, written)
    ensures r.Ok? ==> Advances(st, cursor, r.value)
    ensures r.Raise? ==> Raised(st, n, attempt, old(st.faults), r.exn)
  {
    var done :- CommitRows(st, to, rows, batch);
    CursorAdvances(st.source, cursor, n);
    var paused, _ := PauseIfRequested(st);
    if paused.Raise? {
      return S.Raise(paused.exn);
    }
    r := S.Ok(Done(|batch|, done.0, done.1, paused.value));
  }

  // ---------- run_sql_incremental_pipeline ----------

  /** One iteration of its loop. */
  method SqlBatch(st: S.Store, n: nat, ghost attempt: nat, cursor: Option<Key>, ghost read: nat, ghost written: nat,
                  to: Encoder, transform: Transform) returns (r: Result<BatchEnd>)
    requires st.Valid() && n >= 1 && st.sys.pc == Body(n, attempt, AtFetch(cursor, read, written))
    requires st.cfg.out == LegacyOutput(to, transform)
    modifies st
    ensures st.sizes == old(st.sizes)
    ensures st.troubles == old(st.troubles) + if r.Raise? then 1 else 0
    ensures st.Valid() && st.runs == old(st.runs)
    ensures r.Ok? ==> st.faults == old(st.faults) && EndedAt(st, n, attempt, r.value, read, written)
    ensures r.Ok? ==> Advances(st, cursor, r.value)
    ensures r.Raise? ==> Raised(st, n, attempt, old(st.faults), r.exn)
  {
    var batch :- st.Query(cursor, n);
    if batch == [] {
      return S.Ok(Empty);
    }
    var rows := transform(Records(batch));
    r := FinishBatch(st, n, attempt, cursor, read, written, to, rows, batch);
  }

  method RunSqlIncremental(st: S.Store, n: nat, ghost attempt: nat, to: Encoder, transform: Transform)
    returns (r: Result<(nat, nat)>)
    requires st.Valid() && st.sys.pc == Body(n, attempt, AtLoad) && n >= 1
    requires st.cfg.out == LegacyOutput(to, transform)
    modifies st
    ensures st.sizes == old(st.sizes)
    ensures st.troubles == old(st.troubles) + if r.Raise? then 1 else 0
    ensures st.Valid() && st.runs == old(st.runs)
    ensures r.Ok? ==> Returned(st, n, attempt, r.value.0, r.value.1) && st.faults == old(st.faults)
    ensures r.Ok? ==> Meaningful(st, r.value.0, r.value.1)
    ensures r.Raise? ==> Raised(st, n, attempt, old(st.faults), r.exn)
  {
    var cursor :- st.GetState();
    var read: nat, written: nat := 0, 0;
    while true
      invariant st.Valid() && st.faults == old(st.faults) && st.runs == old(st.runs)
      invariant st.troubles == old(st.troubles) && st.sizes == old(st.sizes)
      invariant st.sys.pc == Body(n, attempt, AtFetch(cursor, read, written))
      decreases |Scan(st.source, cursor)|
    {
      var end :- SqlBatch(st, n, attempt, cursor, read, written, to, transform);
      if end.Empty? {
        break;
      }
      read, written, cursor := read + end.read, written + end.written, Some(end.next);
      if end.paused {
        break;
      }
    }
    ReturnIsMeaningful(st, n, attempt, read, written);
    r := S.Ok((read, written));
  }

  // ---------- run_tasks_incremental ----------

  /** One iteration of its loop: the checkpoint comes from the reader's rows, whatever the chain returned. */
  method TasksBatch(st: S.Store, n: nat, ghost attempt: nat, cursor: Option<Key>, ghost read: nat, ghost written: nat,
                    to: Encoder, fns: seq<Transform>) returns (r: Result<BatchEnd>)
    requires st.Valid() && n >= 1 && st.sys.pc == Body(n, attempt, AtFetch(cursor, read, written))
    requires st.cfg.out == TasksOutput(to, fns)
    modifies st
    ensures st.sizes == old(st.sizes)
    ensures st.troubles == old(st.troubles) + if r.Raise? then 1 else 0
    ensures st.Valid() && st.runs == old(st.runs)
    ensures r.Ok? ==> st.faults == old(st.faults) && EndedAt(st, n, attempt, r.value, read, written)
    ensures r.Ok? ==> Advances(st, cursor, r.value)
    ensures r.Raise? ==> Raised(st, n, attempt, old(st.faults), r.exn)
  {
    var batch :- st.Query(cursor, n);
    if batch == [] {
      return S.Ok(Empty);
    }
    var rows := ApplyChain(fns, Records(batch));
    r := FinishBatch(st, n, attempt, cursor, read, written, to, rows, batch);
  }

  method RunTasksIncremental(st: S.Store, n: nat, ghost attempt: nat, to: Encoder, fns: seq<Transform>)
    returns (r: Result<(nat, nat)>)
    requires st.Valid() && st.sys.pc == Body(n, attempt, AtLoad) && n >= 1
    requires st.cfg.out == TasksOutput(to, fns)
    modifies st
    ensures st.sizes == old(st.sizes)
    ensures st.troubles == old(st.troubles) + if r.Raise? then 1 else 0
    ensures st.Valid() && st.runs == old(st.runs)
    ensures r.Ok? ==> Returned(st, n, attempt, r.value.0, r.value.1) && st.faults == old(st.faults)
    ensures r.Ok? ==> Meaningful(st, r.value.0, r.value.1)
    ensures r.Raise? ==> Raised(st, n, attempt, old(st.faults), r.exn)
  {
    var cursor :- st.GetState();
    var read: nat, written: nat := 0, 0;
    while true
      invariant st.Valid() && st.faults == old(st.faults) && st.runs == old(st.runs)
      invariant st.troubles == old(st.troubles) && st.sizes == old(st.sizes)
      invariant st.sys.pc == Body(n, attempt, AtFetch(cursor, read, written))
      decreases |Scan(st.source, cursor)|
    {
      var end :- TasksBatch(st, n, attempt, cursor, read, written, to, fns);
      if end.Empty? {
        break;
      }
      read, written, cursor := read + end.read, written + end.written, Some(end.next);
      if end.paused {
        break;
      }
    }
    ReturnIsMeaningful(st, n, attempt, read, written);
    r := S.Ok((read, written));
  }
}
