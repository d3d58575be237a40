/** Full mode: the two LIMIT/OFFSET loops, over a source whose query has one fixed order. */
module FullScan {
  import opened Rows
  import opened Sinks
  import opened Writers
  import opened Transforms
  import opened Status
  import opened Chunks
  import opened Orchestration
  import S = Store

  type Result<T> = S.Result<T>

  /** An exception that is no ordinary one: the connection or the process is gone. */
  function LostIn<T>(r: Result<T>): nat {
    if r.Raise? && !r.exn.Ordinary? then 1 else 0
  }

  function LostAt(end: Ending): nat {
    if end.Broken? && end.lost then 1 else 0
  }

  /** Neither the API nor a run makes a pipeline RUNNING, IDLE or FAILED. */
  predicate Follows(was: Status, now: Status) {
    now == RUNNING || now == IDLE || now == FAILED ==> was == now
  }

  /** The database and the session as a full run sees them; there is no checkpoint. */
  class Database {
    const source: seq<Row>
    const out: Output
    const es: bool
    var status: Status
    var sink: Sink
    var pend: Sink
    /** The status at the last await, and the statuses that the pause checks have read. */
    ghost var seen: Status
    ghost var checks: seq<Status>
    /** How many awaits raised, and how many pages held a record that the writer refused. */
    ghost var raises: nat
    ghost var refusals: nat
    /** How many of those awaits lost the connection or the process. */
    ghost var losses: nat

    constructor (source: seq<Row>, out: Output, es: bool, status: Status, sink: Sink)
      ensures this.source == source && this.out == out && this.es == es
      ensures this.status == status && this.sink == sink && pend == map[] && raises == refusals == losses == 0
      ensures seen == status && checks == []
    {
      this.source, this.out, this.es, this.status, this.sink, this.pend := source, out, es, status, sink, map[];
      this.raises, this.refusals, this.losses, this.seen, this.checks := 0, 0, 0, status, [];
    }

    /** API calls before an await. */
    method Interleave() returns (ghost calls: seq<Event>)
      modifies this`status
      ensures forall e :: e in calls ==> e in {RequestRun, RequestPause}
      ensures status == After(old(status), calls)
      ensures Follows(old(status), status)
    {
      calls := [];
      var count: nat := *;
      var i := 0;
      while i < count
        invariant forall e :: e in calls ==> e in {RequestRun, RequestPause}
        invariant status == After(old(status), calls)
        invariant Follows(old(status), status)
      {
        i := i + 1;
        var e := RequestRun;
        if * { e := RequestPause; }
        status := Cas(e, status);
        assert (calls + [e])[..|calls|] == calls;
        calls := calls + [e];
      }
    }

    method Await() returns (e: Option<S.Exn>)
      modifies this`status, this`seen, this`raises, this`losses
      ensures raises == old(raises) + if e.Some? then 1 else 0
      ensures losses == old(losses) + if e.Some? && !e.value.Ordinary? then 1 else 0
      ensures seen == status && Follows(old(status), status)
    {
      var _ := Interleave();
      seen := status;
      e := None;
      if * {
        var exn: S.Exn := *;
        e := Some(exn);
        raises := raises + 1;
        losses := losses + if exn.Ordinary? then 0 else 1;
      }
    }

    method Query(n: nat, offset: nat) returns (r: Result<seq<Row>>)
      modifies this`status, this`seen, this`raises, this`losses
      ensures raises == old(raises) + if r.Raise? then 1 else 0
      ensures losses == old(losses) + LostIn(r)
      ensures r.Ok? ==> r.value == Window(source, n, offset)
      ensures Follows(old(status), status)
    {
      var e := Await();
      r := if e.Some? then S.Raise(e.value) else S.Ok(Window(source, n, offset));
    }

    /** Into the transaction, or straight into the index; a bulk that fails may have applied any of its items. */
    method Write(items: seq<Item>) returns (r: Result<nat>)
      modifies this`status, this`sink, this`pend, this`seen, this`raises, this`losses
      ensures raises == old(raises) + if r.Raise? then 1 else 0
      ensures losses == old(losses) + LostIn(r)
      ensures Follows(old(status), status)
      ensures r.Ok? ==> r.value == |items|
      ensures r.Ok? && es ==> sink == old(sink) + Effect(items) && pend == old(pend)
      ensures r.Ok? && !es ==> sink == old(sink) && pend == old(pend) + Effect(items)
      ensures r.Raise? ==> pend == old(pend)
      ensures r.Raise? ==> exists part: Sink ::
        MayRemain(items, es, part) && sink == old(sink) + part
    {
      var e := Await();
      if e.Some? {
        ghost var part: Sink := map[];
        if es {
          for i := 0 to |items|
            invariant part.Keys <= Effect(items[..i]).Keys
            invariant sink == old(sink) + part && pend == old(pend) && raises == old(raises) + 1
            invariant losses == old(losses) + if e.value.Ordinary? then 0 else 1
            invariant Follows(old(status), status)
          {
            assert items[..i + 1][..i] == items[..i];
            if * {
              sink := sink + CellsOf(items[i]);
              OverlayAssociates(old(sink), part, CellsOf(items[i]));
              part := part + CellsOf(items[i]);
            }
          }
          assert items[..|items|] == items;
        } else {
          assert sink == old(sink) + part;
        }
        assert MayRemain(items, es, part) && sink == old(sink) + part;
        return S.Raise(e.value);
      }
      if es {
        sink := sink + Effect(items);
      } else {
        pend := pend + Effect(items);
      }
      r := S.Ok(|items|);
    }

    method Commit() returns (r: Result<()>)
      modifies this`status, this`sink, this`pend, this`seen, this`raises, this`losses
      ensures raises == old(raises) + if r.Raise? then 1 else 0
      ensures losses == old(losses) + LostIn(r)
      ensures Follows(old(status), status)
      ensures r.Ok? ==> sink == old(sink) + old(pend) && pend == map[]
      ensures r.Raise? ==> sink == old(sink) && pend == old(pend)
    {
      var e := Await();
      if e.Some? {
        return S.Raise(e.value);
      }
      sink, pend := sink + pend, map[];
      r := S.Ok(());
    }

    method Rollback()
      modifies this`pend
      ensures pend == map[]
    {
      pend := map[];
    }

    /** get_status between pages. */
    method GetStatus() returns (r: Result<Status>)
      modifies this`status, this`seen, this`raises, this`losses, this`checks
      ensures raises == old(raises) + if r.Raise? then 1 else 0
      ensures losses == old(losses) + LostIn(r)
      ensures Follows(old(status), status)
      ensures r.Ok? ==> r.value == status == seen
      ensures checks == if r.Ok? then old(checks) + [status] else old(checks)
    {
      var e := Await();
      if e.Some? {
        return S.Raise(e.value);
      }
      checks := checks + [status];
      r := S.Ok(status);
    }

    /** apply_pause_requested: a guarded update, committed if it matches. */
    method ApplyPauseRequested() returns (r: Result<()>)
      requires pend == map[]
      modifies this`status, this`sink, this`pend, this`seen, this`raises, this`losses
      ensures raises == old(raises) + if r.Raise? then 1 else 0
      ensures losses == old(losses) + LostIn(r)
      ensures sink == old(sink) && pend == map[]
      ensures Follows(old(status), seen)
      ensures status == if r.Ok? && seen == PAUSE_REQUESTED then PAUSED else seen
    {
      var e := Await();
      if e.Some? {
        return S.Raise(e.value);
      }
      if Guard(ApplyPause, status) {
        status := Target(ApplyPause);
        sink, pend := sink + pend, map[];
      }
      r := S.Ok(());
    }

    /**
     * Check, then apply: true exactly when the status read was PAUSE_REQUESTED, even when
     * the apply lost a race.
     */
    method PauseIfRequested() returns (r: Result<bool>)
      requires pend == map[]
      modifies this`status, this`sink, this`pend, this`seen, this`raises, this`losses, this`checks
      ensures raises == old(raises) + if r.Raise? then 1 else 0
      ensures losses == old(losses) + LostIn(r)
      ensures sink == old(sink) && pend == map[]
      ensures Follows(old(status), status)
      ensures r.Ok? ==> checks == old(checks) + [if r.value then PAUSE_REQUESTED else status]
      ensures r.Ok? && !r.value ==> status == seen != PAUSE_REQUESTED
      ensures r.Ok? && r.value ==> status == (if seen == PAUSE_REQUESTED then PAUSED else seen) != RUNNING
      ensures r.Raise? ==> checks == old(checks) || checks == old(checks) + [PAUSE_REQUESTED]
    {
      var checked :- GetStatus();
      if checked == PAUSE_REQUESTED {
        var _ :- ApplyPauseRequested();
        return S.Ok(true);
      }
      return S.Ok(false);
    }
  }

  /** After this many pages each check has read a status other than PAUSE_REQUESTED. */
  predicate GoesOn(before: seq<Status>, after: seq<Status>, pages: nat) {
    && before <= after && |after| == |before| + pages
    && forall i :: |before| <= i < |after| ==> after[i] != PAUSE_REQUESTED
  }

  /**
   * A run checks after every page and goes on to another one only if no pause was
   * requested; it ends paused exactly when the check of its last page found a request.
   */
  predicate Heeds(before: seq<Status>, after: seq<Status>, pages: nat, end: Ending) {
    match end
    case Complete(_, _) => GoesOn(before, after, pages)
    case Paused(_, _) => pages >= 1 && after != [] && Last(after) == PAUSE_REQUESTED
                         && GoesOn(before, after[..|after| - 1], pages - 1)
    case Broken(_) => before <= after && |after| <= |before| + pages
                      && forall i :: |before| <= i < |after| - 1 ==> after[i] != PAUSE_REQUESTED
  }

  /** The check of one iteration. */
  predicate Checked(before: seq<Status>, after: seq<Status>, pages: int, step: PageEnd) {
    match step
    case Next(_) => after != [] && after == before + [Last(after)] && Last(after) != PAUSE_REQUESTED
    case Over(Complete(_, _)) => after == before && pages == 0
    case Over(Paused(_, _)) => after == before + [PAUSE_REQUESTED] && pages == 1
    case Over(Broken(_)) => after == before || (after == before + [PAUSE_REQUESTED] && pages == 1)
  }

  lemma GoesOnNext(first: seq<Status>, before: seq<Status>, after: seq<Status>, done: nat, step: PageEnd)
    requires GoesOn(first, before, done) && step.Next? && Checked(before, after, 0, step)
    ensures GoesOn(first, after, done + 1)
  {
  }

  lemma HeedsOver(first: seq<Status>, before: seq<Status>, after: seq<Status>, done: nat, pages: nat, step: PageEnd)
    requires GoesOn(first, before, done) && done <= pages && step.Over? && Checked(before, after, pages - done, step)
    ensures Heeds(first, after, pages, step.end)
  {
  }

  lemma NoCells(sink: Sink, cells: Sink)
    ensures sink + map[] == sink && map[] + cells == cells && (sink + cells) + map[] == sink + cells
  {
  }

  lemma NothingToSend(to: Encoder)
    ensures Items(to, []) == [] && Effect([]) == map[]
  {
  }

  /** The write of a batch, into the transaction or the index. */
  method SendRows(db: Database, to: Encoder, rows: seq<Record>, ghost batch: seq<Row>) returns (r: Result<nat>)
    requires db.pend == map[] && db.out(batch) == Items(to, rows)
    modifies db`status, db`sink, db`pend, db`seen, db`raises, db`refusals, db`losses
    ensures Follows(old(db.status), db.status)
    ensures db.raises >= old(db.raises)
    ensures db.refusals == old(db.refusals) + if Writable(to, rows) then 0 else 1
    ensures r.Raise? <==> Disturbed(db)
    ensures db.losses == old(db.losses) + LostIn(r)
    ensures r.Ok? ==> r.value == |db.out(batch)|
    ensures r.Ok? ==> db.sink == old(db.sink) + if db.es then Written(db.out, batch) else map[]
    ensures r.Ok? ==> db.pend == if db.es then map[] else Written(db.out, batch)
    ensures r.Raise? ==> exists part :: MayRemain(db.out(batch), db.es, part) && db.sink == old(db.sink) + part
  {
    NoCells(db.sink, Written(db.out, batch));
    var ops := BuildPayload(to, rows);
    if ops.None? {
      assert MayRemain(db.out(batch), db.es, map[]);
      db.refusals := db.refusals + 1;
      return S.Raise(S.Ordinary);
    }
    r := db.Write(ops.value);
  }

  /** A batch from its transformed rows to its commit. */
  method WriteAndCommit(db: Database, to: Encoder, rows: seq<Record>, ghost batch: seq<Row>)
    returns (r: Result<nat>)
    requires db.pend == map[] && db.out(batch) == Items(to, rows)
    modifies db`status, db`sink, db`pend, db`seen, db`raises, db`refusals, db`losses
    ensures Follows(old(db.status), db.status)
    ensures r.Ok? ==> db.pend == map[] && r.value == |db.out(batch)|
    ensures db.raises >= old(db.raises)
    ensures db.refusals == old(db.refusals) + if Writable(to, rows) then 0 else 1
    ensures r.Raise? <==> Disturbed(db)
    ensures db.losses == old(db.losses) + LostIn(r)
    ensures r.Ok? ==> db.sink == old(db.sink) + Written(db.out, batch)
    ensures r.Raise? ==> exists part :: MayRemain(db.out(batch), db.es, part) && db.sink == old(db.sink) + part
  {
    ghost var cells := Written(db.out, batch);
    NoCells(db.sink, cells);
    // an empty output is not written
    if rows == [] {
      NothingToSend(to);
      r := S.Ok(0);
    } else {
      r := SendRows(db, to, rows, batch);
      if r.Raise? {
        return;
      }
    }
    var committed := db.Commit();
    if committed.Raise? {
      assert MayRemain(db.out(batch), db.es, if db.es then cells else map[]);
      r := S.Raise(committed.exn);
    }
  }

  /** Between two pages: nothing is uncommitted, and the sink holds the pages of this progress. */
  ghost predicate Midway(db: Database, j: Job, before: Sink, p: Progress)
    requires j.n >= 1
    reads db
  {
    match j
    case Job(source, out, es, _) =>
      && db.source == source && db.out == out && db.es == es
      && db.pend == map[] && db.sink == before + WrittenPieces(out, p.pages)
      && Covered(j, p)
  }

  /** How an iteration ended: with a page to go on from, or with the run. */
  datatype PageEnd = Next(written: nat) | Over(end: Ending)

  predicate Breaks(step: PageEnd) {
    step.Over? && step.end.Broken?
  }

  function LossIn(step: PageEnd): nat {
    if step.Over? then LostAt(step.end) else 0
  }

  /** A run that is over: what it did, and that a pause was the only reason to stop early. */
  ghost predicate Stopped(db: Database, j: Job, before: Sink, pages: seq<seq<Row>>, part: Sink, end: Ending)
    requires j.n >= 1
    reads db
  {
    match end
    case Broken(_) => RanOver(j, before, db.sink, pages, part, end)
    case Paused(_, _) => RanOver(j, before, db.sink, pages, part, end) && db.pend == map[] && db.status != RUNNING
    case Complete(_, _) => RanOver(j, before, db.sink, pages, part, end) && db.pend == map[]
  }

  /** Something went wrong: an await raised, or the writer refused a record. */
  twostate predicate Disturbed(db: Database)
    reads db
  {
    db.raises > old(db.raises) || db.refusals > old(db.refusals)
  }

  /** The page query of an iteration; an exception or an empty page ends the run. */
  method ReadPage(db: Database, n: nat, offset: nat, read: nat, written: nat,
                  ghost j: Job, ghost before: Sink, ghost p: Progress, ghost first: seq<Status>)
    returns (step: PageEnd, page: seq<Row>)
    requires n == j.n >= 1 && Midway(db, j, before, p) && p == Progress(p.pages, offset, read, written)
    requires GoesOn(first, db.checks, |p.pages|)
    modifies db`status, db`seen, db`raises, db`losses
    ensures Follows(old(db.status), db.status)
    ensures db.raises == old(db.raises) + if Breaks(step) then 1 else 0
    ensures db.losses == old(db.losses) + LossIn(step)
    ensures step.Over? ==> Stopped(db, j, before, p.pages, map[], step.end)
    ensures step.Over? ==> Heeds(first, db.checks, |p.pages|, step.end)
    ensures step.Next? ==> page == PageAt(j, p) && page != [] && offset < |j.source|
  {
    EndsHere(j, before, db.sink, p);
    var queried := db.Query(n, offset);
    if queried.Raise? {
      return Over(Broken(!queried.exn.Ordinary?)), [];
    }
    page := queried.value;
    step := if page == [] then Over(Complete(read, written)) else Next(written);
  }

  /** The pause check after a page. */
  method CheckPage(db: Database, ghost j: Job, ghost before: Sink, ghost p: Progress, read: nat, written: nat,
                   ghost first: seq<Status>)
    returns (step: PageEnd)
    requires j.n >= 1 && Midway(db, j, before, p) && p.pages != [] && read == p.read && written == p.written
    requires GoesOn(first, db.checks, |p.pages| - 1)
    modifies db`status, db`sink, db`pend, db`seen, db`raises, db`losses, db`checks
    ensures Follows(old(db.status), db.status)
    ensures step.Over? ==> Stopped(db, j, before, p.pages, map[], step.end)
    ensures step.Over? ==> Heeds(first, db.checks, |p.pages|, step.end)
    ensures step.Next? ==> Midway(db, j, before, p) && step.written == written
    ensures step.Next? ==> GoesOn(first, db.checks, |p.pages|) && db.checks == old(db.checks) + [db.status]
    ensures db.raises == old(db.raises) + if Breaks(step) then 1 else 0
    ensures db.losses == old(db.losses) + LossIn(step)
  {
    var paused := db.PauseIfRequested();
    EndsHere(j, before, db.sink, p);
    if paused.Raise? {
      step := Over(Broken(!paused.exn.Ordinary?));
    } else if paused.value {
      step := Over(Paused(read, written));
    } else {
      step := Next(written);
    }
    if step.Over? {
      HeedsOver(first, old(db.checks), db.checks, |p.pages| - 1, |p.pages|, step);
    } else {
      GoesOnNext(first, old(db.checks), db.checks, |p.pages| - 1, step);
    }
  }

  /** Write and commit of a page; a failure leaves at most cells of it. */
  method CommitPage(db: Database, to: Encoder, rows: seq<Record>, ghost j: Job, ghost before: Sink,
                    ghost p: Progress, ghost move: nat, page: seq<Row>)
    returns (w: Result<nat>, ghost part: Sink)
    requires j.n >= 1 && Midway(db, j, before, p)
    requires page == PageAt(j, p) && page != [] && j.out(page) == Items(to, rows)
    requires move == j.n || move == |page|
    modifies db`status, db`sink, db`pend, db`seen, db`raises, db`refusals, db`losses
    ensures Follows(old(db.status), db.status)
    ensures w.Raise? <==> Disturbed(db)
    ensures db.losses == old(db.losses) + LostIn(w)
    ensures db.raises >= old(db.raises)
    ensures db.refusals == old(db.refusals) + if Writable(to, rows) then 0 else 1
    ensures w.Ok? ==> Midway(db, j, before, Advanced(j, p, move)) && w.value == |j.out(page)|
    ensures w.Raise? ==> Stopped(db, j, before, p.pages, part, Broken(!w.exn.Ordinary?))
  {
    part := map[];
    CoveredNext(j, p, move);
    w := WriteAndCommit(db, to, rows, page);
    if w.Raise? {
      part :| MayRemain(db.out(page), db.es, part) && db.sink == old(db.sink) + part;
      BreaksHere(j, before, db.sink, p, part);
    } else {
      SinkNext(j.out, before, p.pages, page);
    }
  }

  /** Write, commit, pause check: what both loops do with a page. */
  method FinishPage(db: Database, to: Encoder, rows: seq<Record>, ghost j: Job, ghost before: Sink,
                    ghost p: Progress, ghost move: nat, read: nat, written: nat, page: seq<Row>,
                    ghost first: seq<Status>)
    returns (step: PageEnd, ghost done: seq<seq<Row>>, ghost part: Sink, ghost next: Progress)
    requires j.n >= 1 && Midway(db, j, before, p) && read == p.read && written == p.written
    requires page == PageAt(j, p) && page != [] && j.out(page) == Items(to, rows)
    requires (move == j.n || move == |page|) && GoesOn(first, db.checks, |p.pages|)
    modifies db
    ensures Follows(old(db.status), db.status)
    ensures step.Over? ==> Stopped(db, j, before, done, part, step.end)
    ensures step.Over? ==> Heeds(first, db.checks, |done|, step.end)
    ensures Breaks(step) <==> Disturbed(db)
    ensures db.losses == old(db.losses) + LossIn(step)
    ensures db.raises >= old(db.raises) && db.refusals >= old(db.refusals)
    ensures step.Next? ==> GoesOn(first, db.checks, |next.pages|) && db.checks == old(db.checks) + [db.status]
    ensures step.Next? ==> Midway(db, j, before, next)
    ensures step.Next? ==> next == Progress(next.pages, p.offset + move, p.read + |page|, step.written)
  {
    var w;
    next := Advanced(j, p, move);
    w, part := CommitPage(db, to, rows, j, before, p, move, page);
    if w.Raise? {
      step, done := Over(Broken(!w.exn.Ordinary?)), p.pages;
      HeedsOver(first, db.checks, db.checks, |done|, |done|, step);
      return;
    }
    done, part := next.pages, map[];
    step := CheckPage(db, j, before, next, read + |page|, written + w.value, first);
  }

  /** One iteration of run_sql_full_pipeline. */
  method SqlPage(db: Database, n: nat, offset: nat, read: nat, written: nat, to: Encoder, transform: Transform,
                 ghost j: Job, ghost before: Sink, ghost p: Progress, ghost first: seq<Status>)
    returns (step: PageEnd, fetched: nat, ghost done: seq<seq<Row>>, ghost part: Sink, ghost next: Progress)
    requires n == j.n >= 1 && Midway(db, j, before, p) && p == Progress(p.pages, offset, read, written)
    requires j.out == LegacyOutput(to, transform) && GoesOn(first, db.checks, |p.pages|)
    modifies db
    ensures Follows(old(db.status), db.status)
    ensures Breaks(step) <==> Disturbed(db)
    ensures db.losses == old(db.losses) + LossIn(step)
    ensures db.raises >= old(db.raises) && db.refusals >= old(db.refusals)
    ensures step.Over? ==> Stopped(db, j, before, done, part, step.end)
    ensures step.Over? ==> Heeds(first, db.checks, |done|, step.end)
    ensures step.Next? ==> Midway(db, j, before, next) && fetched >= 1 && offset < |j.source|
    ensures step.Next? ==> GoesOn(first, db.checks, |next.pages|)
    ensures step.Next? ==> next == Progress(next.pages, offset + fetched, read + fetched, step.written)
  {
    var page;
    step, page := ReadPage(db, n, offset, read, written, j, before, p, first);
    if step.Over? {
      return step, 0, p.pages, map[], p;
    }
    var rows := transform(Records(page));
    fetched := |page|;
    step, done, part, next := FinishPage(db, to, rows, j, before, p, |page|, read, written, page, first);
  }

  /** run_sql_full_pipeline: the offset moves by the rows fetched. */
  method RunSqlFull(db: Database, n: nat, to: Encoder, transform: Transform)
    returns (end: Ending, ghost pages: seq<seq<Row>>, ghost part: Sink)
    requires n >= 1 && db.pend == map[] && db.out == LegacyOutput(to, transform)
    modifies db
    ensures Stopped(db, Job(db.source, db.out, db.es, n), old(db.sink), pages, part, end)
    ensures end.Broken? <==> Disturbed(db)
    ensures db.raises >= old(db.raises) && db.refusals >= old(db.refusals)
    ensures Heeds(old(db.checks), db.checks, |pages|, end)
    ensures db.losses == old(db.losses) + LostAt(end)
    ensures Follows(old(db.status), db.status)
  {
    var offset: nat, read: nat, written: nat := 0, 0, 0;
    ghost var j, before, p := Job(db.source, db.out, db.es, n), db.sink, Progress([], 0, 0, 0);
    CoveredFirst(j, before);
    while true
      invariant Midway(db, j, before, p) && p == Progress(p.pages, offset, read, written)
      invariant db.raises == old(db.raises) && db.refusals == old(db.refusals) && db.losses == old(db.losses)
      invariant GoesOn(old(db.checks), db.checks, |p.pages|)
      invariant Follows(old(db.status), db.status)
      decreases if offset < |db.source| then |db.source| - offset else 0
    {
      var step, fetched;
      step, fetched, pages, part, p := SqlPage(db, n, offset, read, written, to, transform, j, before, p,
                                               old(db.checks));
      if step.Over? {
        return step.end, pages, part;
      }
      read, written, offset := read + fetched, step.written, offset + fetched;
    }
  }

  /** One iteration of run_tasks_full. */
  method TasksPage(db: Database, n: nat, offset: nat, read: nat, written: nat, to: Encoder, fns: seq<Transform>,
                   ghost j: Job, ghost before: Sink, ghost p: Progress, ghost first: seq<Status>)
    returns (step: PageEnd, fetched: nat, ghost done: seq<seq<Row>>, ghost part: Sink, ghost next: Progress)
    requires n == j.n >= 1 && Midway(db, j, before, p) && p == Progress(p.pages, offset, read, written)
    requires j.out == TasksOutput(to, fns) && GoesOn(first, db.checks, |p.pages|)
    modifies db
    ensures Follows(old(db.status), db.status)
    ensures Breaks(step) <==> Disturbed(db)
    ensures db.losses == old(db.losses) + LossIn(step)
    ensures db.raises >= old(db.raises) && db.refusals >= old(db.refusals)
    ensures step.Over? ==> Stopped(db, j, before, done, part, step.end)
    ensures step.Over? ==> Heeds(first, db.checks, |done|, step.end)
    ensures step.Next? ==> Midway(db, j, before, next) && fetched >= 1 && offset < |j.source|
    ensures step.Next? ==> GoesOn(first, db.checks, |next.pages|)
    ensures step.Next? ==> next == Progress(next.pages, offset + n, read + fetched, step.written)
  {
    var page;
    step, page := ReadPage(db, n, offset, read, written, j, before, p, first);
    if step.Over? {
      return step, 0, p.pages, map[], p;
    }
    var rows := ApplyChain(fns, Records(page));
    fetched := |page|;
    step, done, part, next := FinishPage(db, to, rows, j, before, p, n, read, written, page, first);
  }

  /** run_tasks_full: the offset moves by the page size. */
  method RunTasksFull(db: Database, n: nat, to: Encoder, fns: seq<Transform>)
    returns (end: Ending, ghost pages: seq<seq<Row>>, ghost part: Sink)
    requires n >= 1 && db.pend == map[] && db.out == TasksOutput(to, fns)
    modifies db
    ensures Stopped(db, Job(db.source, db.out, db.es, n), old(db.sink), pages, part, end)
    ensures end.Broken? <==> Disturbed(db)
    ensures db.raises >= old(db.raises) && db.refusals >= old(db.refusals)
    ensures Heeds(old(db.checks), db.checks, |pages|, end)
    ensures db.losses == old(db.losses) + LostAt(end)
    ensures Follows(old(db.status), db.status)
  {
    var offset: nat, read: nat, written: nat := 0, 0, 0;
    ghost var j, before, p := Job(db.source, db.out, db.es, n), db.sink, Progress([], 0, 0, 0);
    CoveredFirst(j, before);
    while true
      invariant Midway(db, j, before, p) && p == Progress(p.pages, offset, read, written)
      invariant db.raises == old(db.raises) && db.refusals == old(db.refusals) && db.losses == old(db.losses)
      invariant GoesOn(old(db.checks), db.checks, |p.pages|)
      invariant Follows(old(db.status), db.status)
      decreases if offset < |db.source| then |db.source| - offset else 0
    {
      var step, fetched;
      step, fetched, pages, part, p := TasksPage(db, n, offset, read, written, to, fns, j, before, p,
                                               old(db.checks));
      if step.Over? {
        return step.end, pages, part;
      }
      read, written, offset := read + fetched, step.written, offset + n;
    }
  }

  // ---------- Interrupted runs, retries, finalisation ----------

  /** One full run of either kind: after it, complete or not, a complete one would still end in the same sink. */
  method RunFull(db: Database, plan: Plan, batchSize: nat) returns (end: Ending)
    requires db.pend == map[] && db.out == OutputOf(plan)
    modifies db
    ensures Absorbs(old(db.sink), db.sink, Whole(db.source, db.out, BatchSize(batchSize)))
    ensures end.Broken? || db.pend == map[]
    ensures end.Complete? ==> db.sink == old(db.sink) + Whole(db.source, db.out, BatchSize(batchSize))
    ensures end.Complete? ==> end.read == |db.source|
    ensures end.Paused? ==> db.status != RUNNING
    ensures Follows(old(db.status), db.status)
    ensures end.Broken? <==> Disturbed(db)
    ensures db.raises >= old(db.raises) && db.refusals >= old(db.refusals)
    ensures old(db.checks) <= db.checks
    ensures end.Paused? ==> old(db.checks) < db.checks && Last(db.checks) == PAUSE_REQUESTED
    ensures end.Complete? ==> GoesOn(old(db.checks), db.checks, |Pieces(db.source, BatchSize(batchSize))|)
    ensures db.losses == old(db.losses) + LostAt(end)
  {
    var n := BatchSize(batchSize);
    ghost var pages, part;
    match plan {
      case Legacy(to, f) => end, pages, part := RunSqlFull(db, n, Encode(to), f);
      case Tasks(to, fns) => end, pages, part := RunTasksFull(db, n, Encode(to), fns);
    }
    PiecesCover(db.source, n);
    RunIsAbsorbed(Job(db.source, db.out, db.es, n), old(db.sink), db.sink, pages, part, end);
  }

  /** An await of the executor or the dispatcher; only what the API and the exception do happens. */
  method Step(db: Database) returns (r: Result<()>)
    modifies db`status, db`seen, db`raises, db`losses
    ensures db.raises == old(db.raises) + if r.Raise? then 1 else 0
    ensures db.losses == old(db.losses) + LostIn(r)
    ensures db.seen == db.status && Follows(old(db.status), db.status)
  {
    var e := db.Await();
    r := if e.Some? then S.Raise(e.value) else S.Ok(());
  }

  /**
   * One execution: the run row is started, the run made, the row finished; after an
   * exception the session is rolled back and the row marked as failed.
   */
  method ExecuteFull(db: Database, plan: Plan, batchSize: nat) returns (end: Ending)
    requires db.pend == map[] && db.out == OutputOf(plan)
    modifies db
    ensures db.pend == map[] && Absorbs(old(db.sink), db.sink, Whole(db.source, db.out, BatchSize(batchSize)))
    ensures end.Complete? ==> db.sink == old(db.sink) + Whole(db.source, db.out, BatchSize(batchSize))
    ensures end.Complete? ==> end.read == |db.source|
    ensures end.Paused? ==> db.status != RUNNING
    ensures Follows(old(db.status), db.status)
    ensures end.Broken? <==> Disturbed(db)
    ensures db.raises >= old(db.raises) && db.refusals >= old(db.refusals)
    ensures old(db.checks) <= db.checks
    ensures end.Paused? ==> old(db.checks) < db.checks && Last(db.checks) == PAUSE_REQUESTED
    ensures end.Complete? ==> GoesOn(old(db.checks), db.checks, |Pieces(db.source, BatchSize(batchSize))|)
    ensures db.losses == old(db.losses) + LostAt(end)
  {
    var started := Step(db);
    if started.Raise? {
      return Broken(!started.exn.Ordinary?);
    }
    end := RunFull(db, plan, batchSize);
    if !end.Broken? {
      var finished := Step(db);
      if finished.Ok? {
        return;
      }
      end := Broken(!finished.exn.Ordinary?);
    }
    db.Rollback();
    if !end.lost {
      var failed := Step(db);
      end := Broken(failed.Raise? && !failed.exn.Ordinary?);
    }
  }

  function PageSizes(sizes: seq<nat>): seq<nat> {
    seq(|sizes|, i requires 0 <= i < |sizes| => BatchSize(sizes[i]))
  }

  /**
   * Full runs, paused and broken at will, until one reaches the end: the sink is the
   * one a single undisturbed run would leave.  `whole` is what a complete run writes:
   * the same for any page sizes if the output is row-wise, for one size always
   * (`Chunks.AlikeIf`).
   */
  method RunsUntilComplete(db: Database, plan: Plan, sizes: seq<nat>, ghost whole: Sink) returns (complete: bool)
    requires db.pend == map[] && db.out == OutputOf(plan)
    modifies db
    ensures Alike(db.source, db.out, PageSizes(sizes), whole) ==> Absorbs(old(db.sink), db.sink, whole)
    ensures Alike(db.source, db.out, PageSizes(sizes), whole) && complete ==> db.sink == old(db.sink) + whole
  {
    complete := false;
    for i := 0 to |sizes|
      invariant db.pend == map[] && !complete
      invariant Alike(db.source, db.out, PageSizes(sizes), whole) ==> Absorbs(old(db.sink), db.sink, whole)
    {
      var end := ExecuteFull(db, plan, sizes[i]);
      assert PageSizes(sizes)[i] == BatchSize(sizes[i]) >= 1;
      if end.Complete? {
        return true;
      }
    }
  }

  // ---------- Dispatch in full mode ----------

  /**
   * How a dispatch left: normally, with the pipeline paused, finalised or taken over;
   * with the exception of the last attempt after the permanent failure; without its
   * connection or process; or with the exception of the failing update.
   */
  datatype Leaving = Settled | GivenUp | Gone | Stuck

  lemma WholeOfRows(out: Output, source: seq<Row>, n: nat)
    requires n >= 1
    ensures RowWise(out) ==> Whole(source, out, n) == Written(out, source)
  {
    if RowWise(out) {
      CompleteRunIgnoresPageSize(out, source, n);
    }
  }

  /** The last checks, one for every page of the source, found no pause request. */
  predicate UnpausedRun(checks: seq<Status>, pages: nat) {
    pages <= |checks| && forall i :: |checks| - pages <= i < |checks| ==> checks[i] != PAUSE_REQUESTED
  }

  /**
   * A claimed pipeline in full mode: the attempts, each with its finalisation, then the
   * permanent failure.  For any transform RUNNING becomes IDLE only with the whole source
   * in the sink and no pause request found on the way.  The pipeline is failed only after
   * as many attempts as configured, and stays RUNNING only if the connection or the process
   * was lost, or if the update that should then have failed it raised as well.
   */
  method DispatchFull(db: Database, plan: Plan, batchSize: nat, maxAttempts: nat)
    returns (finished: bool, left: Leaving)
    requires db.pend == map[] && db.out == OutputOf(plan) && db.status == RUNNING && maxAttempts >= 1
    modifies db
    ensures db.pend == map[] && Absorbs(old(db.sink), db.sink, Whole(db.source, db.out, BatchSize(batchSize)))
    ensures finished <==> db.status == IDLE
    ensures finished ==> left == Settled && db.seen == RUNNING
    ensures finished ==> db.sink == old(db.sink) + Whole(db.source, db.out, BatchSize(batchSize))
    ensures finished ==> UnpausedRun(db.checks, |Pieces(db.source, BatchSize(batchSize))|)
    ensures RowWise(db.out) ==> Whole(db.source, db.out, BatchSize(batchSize)) == Written(db.out, db.source)
    ensures left == Settled ==> db.status == (if finished then IDLE else db.seen) && db.status !in {RUNNING, FAILED}
    ensures left == GivenUp ==> db.status == if db.seen in {RUNNING, PAUSE_REQUESTED} then FAILED else db.seen
    ensures db.status == FAILED ==> left == GivenUp
    ensures left == GivenUp ==> db.raises + db.refusals >= old(db.raises) + old(db.refusals) + maxAttempts
    ensures left == Stuck ==> db.raises + db.refusals > old(db.raises) + old(db.refusals) + maxAttempts
    ensures left == Gone <==> db.losses > old(db.losses)
  {
    WholeOfRows(db.out, db.source, BatchSize(batchSize));
    var attempted := AttemptsFull(db, plan, batchSize, maxAttempts);
    if attempted.Ok? {
      return attempted.value, Settled;
    }
    if !attempted.exn.Ordinary? {
      return false, Gone;
    }
    finished := false;
    left := FailFull(db);
  }

  /** The guarded permanent failure. */
  method FailFull(db: Database) returns (left: Leaving)
    modifies db`status, db`seen, db`raises, db`losses
    ensures left != Settled && Follows(old(db.status), db.seen)
    ensures db.status == if left == GivenUp && db.seen in {RUNNING, PAUSE_REQUESTED} then FAILED else db.seen
    ensures db.raises == old(db.raises) + if left == GivenUp then 0 else 1
    ensures db.losses == old(db.losses) + if left == Gone then 1 else 0
  {
    var failing := Step(db);
    if failing.Raise? {
      return if failing.exn.Ordinary? then Stuck else Gone;
    }
    db.status := Cas(Fail, db.status);
    left := GivenUp;
  }

  /** The attempts, until one settles the dispatch or loses the connection or the process. */
  method AttemptsFull(db: Database, plan: Plan, batchSize: nat, maxAttempts: nat) returns (r: Result<bool>)
    requires db.pend == map[] && db.out == OutputOf(plan) && db.status !in {IDLE, FAILED} && maxAttempts >= 1
    modifies db
    ensures db.pend == map[] && Absorbs(old(db.sink), db.sink, Whole(db.source, db.out, BatchSize(batchSize)))
    ensures db.losses == old(db.losses) + LostIn(r)
    ensures r.Raise? ==> db.status !in {IDLE, FAILED}
    ensures r.Raise? && r.exn.Ordinary? ==>
      db.raises + db.refusals >= old(db.raises) + old(db.refusals) + maxAttempts
    ensures r.Ok? ==> db.status == (if r.value then IDLE else db.seen) && db.seen !in {IDLE, FAILED}
    ensures r.Ok? ==> db.status != RUNNING && (r.value ==> db.seen == RUNNING)
    ensures r.Ok? && r.value ==> db.sink == old(db.sink) + Whole(db.source, db.out, BatchSize(batchSize))
    ensures r.Ok? && r.value ==> UnpausedRun(db.checks, |Pieces(db.source, BatchSize(batchSize))|)
  {
    for attempt := 0 to maxAttempts
      invariant db.pend == map[] && db.losses == old(db.losses) && db.status !in {IDLE, FAILED}
      invariant Absorbs(old(db.sink), db.sink, Whole(db.source, db.out, BatchSize(batchSize)))
      invariant db.raises + db.refusals >= old(db.raises) + old(db.refusals) + attempt
    {
      r := AttemptFull(db, plan, batchSize);
      if r.Ok? || !r.exn.Ordinary? {
        return;
      }
    }
    r := S.Raise(S.Ordinary);
  }

  /** One attempt; a finalisation that raises asks for a retry like an execution that does. */
  method AttemptFull(db: Database, plan: Plan, batchSize: nat) returns (r: Result<bool>)
    requires db.pend == map[] && db.out == OutputOf(plan)
    modifies db
    ensures db.pend == map[] && Absorbs(old(db.sink), db.sink, Whole(db.source, db.out, BatchSize(batchSize)))
    ensures r.Raise? <==> Disturbed(db)
    ensures db.raises >= old(db.raises) && db.refusals >= old(db.refusals)
    ensures db.losses == old(db.losses) + LostIn(r)
    ensures r.Raise? ==> Follows(old(db.status), db.status)
    ensures r.Ok? ==> Follows(old(db.status), db.seen) && db.status == (if r.value then IDLE else db.seen) != RUNNING
    ensures r.Ok? && r.value ==> db.seen == RUNNING
    ensures r.Ok? && r.value ==> db.sink == old(db.sink) + Whole(db.source, db.out, BatchSize(batchSize))
    ensures r.Ok? && r.value ==> UnpausedRun(db.checks, |Pieces(db.source, BatchSize(batchSize))|)
  {
    var end := ExecuteFull(db, plan, batchSize);
    if end.Broken? {
      return S.Raise(if end.lost then S.Disconnected else S.Ordinary);
    }
    r := FinalizeFull(db);
  }

  /** get_status and finish_running_to_idle, each an await. */
  method FinalizeFull(db: Database) returns (r: Result<bool>)
    modifies db`status, db`seen, db`raises, db`losses
    ensures db.raises == old(db.raises) + if r.Raise? then 1 else 0
    ensures db.losses == old(db.losses) + LostIn(r)
    ensures Follows(old(db.status), db.seen)
    ensures r.Ok? ==> r.value == (db.seen == RUNNING) && db.status == (if r.value then IDLE else db.seen)
    ensures r.Raise? ==> db.status == db.seen
  {
    var _ :- Step(db);
    if db.status == PAUSED {
      return S.Ok(false);
    }
    var _ :- Step(db);
    r := S.Ok(Guard(Finish, db.status));
    db.status := Cas(Finish, db.status);
  }
}
