/** Executor, dispatcher, manager tick and main loop for one pipeline in incremental mode. */
module Orchestration {
  import opened Rows
  import opened Keyset
  import opened Sinks
  import opened Writers
  import opened Transforms
  import opened Status
  import opened Engine
  import opened EngineProgress
  import opened EngineSafety
  import opened EngineReplay
  import opened EngineKeys
  import opened EnginePages
  import opened Chunks
  import opened Runners
  import S = Store

  /** The runner the executor picks: the task runner when there are tasks. */
  datatype Plan = Legacy(to: Destination, transform: Transform) | Tasks(to: Destination, fns: seq<Transform>)

  function OutputOf(plan: Plan): Output {
    match plan
    case Legacy(to, f) => LegacyOutput(Encode(to), f)
    case Tasks(to, fns) => TasksOutput(Encode(to), fns)
  }

  const FAILED_RUN := Run(RunFailed, 0, 0)

  // ---------- Executor ----------

  method RunBody(st: S.Store, n: nat, ghost attempt: nat, plan: Plan) returns (r: Result<(nat, nat)>)
    requires st.Valid() && st.sys.pc == Body(n, attempt, AtLoad) && n >= 1 && st.cfg.out == OutputOf(plan)
    modifies st
    ensures st.sizes == old(st.sizes)
    ensures st.Valid() && st.runs == old(st.runs)
    ensures r.Ok? ==> Returned(st, n, attempt, r.value.0, r.value.1) && st.faults == old(st.faults)
    ensures r.Ok? ==> Meaningful(st, r.value.0, r.value.1)
    ensures r.Raise? ==> Raised(st, n, attempt, old(st.faults), r.exn)
  {
    match plan {
      case Legacy(to, f) => r := RunSqlIncremental(st, n, attempt, Encode(to), f);
      case Tasks(to, fns) => r := RunTasksIncremental(st, n, attempt, Encode(to), fns);
    }
  }

  /** Where an execution that raised leaves the runner. */
  ghost predicate ExecutionRaised(st: S.Store, n: nat, attempt: nat, e: S.Exn)
    reads st
  {
    st.sys.pc == match e case Ordinary => Retrying(n, attempt) case Disconnected => Idle case Crashed => Down
  }

  /** The except branch of execute: rollback, then mark the run FAILED. */
  method RecordRunFailure(st: S.Store, run: nat) returns (e: S.Exn)
    requires st.Valid() && st.sys.pc.Failing? && run == |st.runs| - 1 && st.runs[run] == Run(RunRunning, 0, 0)
    modifies st
    ensures st.sizes == old(st.sizes)
    ensures st.Valid() && st.faults >= old(st.faults)
    ensures ExecutionRaised(st, old(st.sys.pc).n, old(st.sys.pc).attempt, e)
    ensures !e.Ordinary? ==> st.faults > old(st.faults)
    ensures st.faults == old(st.faults) ==> st.runs == old(st.runs)[run := FAILED_RUN]
  {
    var rolled := st.RollbackSession();
    if rolled.Raise? {
      return rolled.exn;
    }
    var recorded := st.FinishFailed(run);
    return if recorded.Raise? then recorded.exn else S.Ordinary;
  }

  /** The try branch of execute: the body, then SUCCESS with its counts. */
  method RunAndRecord(st: S.Store, n: nat, ghost attempt: nat, plan: Plan, run: nat) returns (r: Result<(nat, nat)>)
    requires st.Valid() && st.sys.pc == Body(n, attempt, AtLoad) && n >= 1 && st.cfg.out == OutputOf(plan)
    requires run == |st.runs| - 1
    modifies st
    ensures st.sizes == old(st.sizes)
    ensures st.Valid()
    ensures r.Ok? ==> st.runs == old(st.runs)[run := Run(RunSuccess, r.value.0, r.value.1)]
    ensures r.Ok? ==> st.faults == old(st.faults)
    ensures r.Ok? ==> st.sys.pc.Settling? && st.sys.pc.n == n && st.sys.pc.attempt == attempt
    ensures r.Raise? ==> st.runs == old(st.runs) && Raised(st, n, attempt, old(st.faults), r.exn)
  {
    r := RunBody(st, n, attempt, plan);
    if r.Ok? {
      var finished := st.FinishSuccess(run, r.value.0, r.value.1);
      if finished.Raise? {
        r := S.Raise(finished.exn);
      }
    }
  }

  method Execute(st: S.Store, n: nat, ghost attempt: nat, plan: Plan) returns (r: Result<(nat, nat)>)
    requires st.Valid() && st.sys.pc == Starting(n, attempt) && n >= 1 && st.cfg.out == OutputOf(plan)
    modifies st
    ensures st.sizes == old(st.sizes)
    ensures st.Valid() && st.faults >= old(st.faults)
    ensures r.Ok? ==> st.runs == old(st.runs) + [Run(RunSuccess, r.value.0, r.value.1)]
    ensures r.Ok? ==> st.sys.pc.Settling? && st.sys.pc.n == n && st.sys.pc.attempt == attempt
    ensures r.Ok? ==> st.faults == old(st.faults)
    ensures r.Raise? ==> ExecutionRaised(st, n, attempt, r.exn)
    ensures r.Raise? && !r.exn.Ordinary? ==> st.faults > old(st.faults)
    ensures r.Raise? && st.faults == old(st.faults) ==> st.runs == old(st.runs) + [FAILED_RUN]
  {
    var started := st.StartRun();
    if started.Raise? {
      return S.Raise(started.exn);
    }
    var run := started.value;
    r := RunAndRecord(st, n, attempt, plan, run);
    if r.Raise? && r.exn.Ordinary? {
      var e := RecordRunFailure(st, run);
      r := S.Raise(e);
    }
  }

  // ---------- Dispatcher ----------

  /** What a dispatch did; `error` is the exception that leaves it, `delays` the backoff it slept. */
  datatype Dispatched = Dispatched(claimed: bool, finished: bool, gaveUp: bool, delays: seq<real>, error: Option<S.Exn>)

  function Min(a: int, b: int): int {
    if a < b then a else b
  }

  /** The delays before retries: the backoff table, its last entry repeated. */
  predicate Clamped(delays: seq<real>, backoff: seq<real>)
    requires backoff != []
  {
    forall i :: 0 <= i < |delays| ==> delays[i] == backoff[Min(i, |backoff| - 1)]
  }

  predicate AllFailed(runs: seq<Run>) {
    forall i :: 0 <= i < |runs| ==> runs[i] == FAILED_RUN
  }

  /** The run rows and delays of a claimed dispatch whose failures all arose in the body of a run. */
  ghost predicate RetryProtocol(added: seq<Run>, d: Dispatched, maxAttempts: nat, backoff: seq<real>)
    requires backoff != []
  {
    && 1 <= |added| <= maxAttempts
    && |d.delays| == |added| - 1 && Clamped(d.delays, backoff)
    && AllFailed(added[..|added| - 1])
    && (if d.gaveUp then AllFailed(added) && |added| == maxAttempts else Last(added).status == RunSuccess)
  }

  ghost predicate Retried(before: seq<Run>, after: seq<Run>, d: Dispatched, maxAttempts: nat, backoff: seq<real>)
    requires backoff != []
  {
    before <= after && RetryProtocol(after[|before|..], d, maxAttempts, backoff)
  }

  lemma SucceededRetried(before: seq<Run>, failed: seq<Run>, after: seq<Run>, d: Dispatched, maxAttempts: nat,
                         backoff: seq<real>)
    requires backoff != [] && AllFailed(failed) && |failed| < maxAttempts && !d.gaveUp
    requires |after| == |before| + |failed| + 1 && after[..|after| - 1] == before + failed
    requires Last(after).status == RunSuccess
    requires |d.delays| == |failed| && Clamped(d.delays, backoff)
    ensures Retried(before, after, d, maxAttempts, backoff)
  {
    assert after == (before + failed) + [Last(after)];
    assert after[|before|..] == failed + [Last(after)];
  }

  lemma ExhaustedRetried(before: seq<Run>, failed: seq<Run>, d: Dispatched, maxAttempts: nat, backoff: seq<real>)
    requires backoff != [] && AllFailed(failed) && |failed| == maxAttempts >= 1 && d.gaveUp
    requires |d.delays| == maxAttempts - 1 && Clamped(d.delays, backoff)
    ensures Retried(before, before + failed, d, maxAttempts, backoff)
  {
    assert (before + failed)[|before|..] == failed;
  }

  /**
   * The sink of a pipeline that reached the end of its source: for a row-wise output the
   * scan, and for any transform, if there was one batch size, the undisturbed batches.
   */
  ghost predicate CompleteAt(c: Config, s0: Sys, hist: seq<Action>, sink: Sink) {
    && (RowWise(c.out) ==>
          Agree(c, s0.source, Safe(c, s0, hist), sink, s0.sink + Written(c.out, Scan(s0.source, s0.ckpt))))
    && (forall n: nat :: n >= 1 && SizesAre(hist, n) ==> HoldsBatches(c, s0, sink, n))
  }

  ghost predicate HoldsBatches(c: Config, s0: Sys, sink: Sink, n: nat)
    requires n >= 1
  {
    && Distinct(s0.source) && Drain(s0.source, s0.ckpt, n).Some?
    && sink == s0.sink + WrittenPieces(c.out, Drain(s0.source, s0.ckpt, n).value)
  }

  ghost predicate Complete(st: S.Store)
    reads st
  {
    CompleteAt(st.cfg, st.init, st.hist, st.sink)
  }

  lemma CompleteStays(c: Config, s0: Sys, hist: seq<Action>, more: seq<Action>, sink: Sink)
    requires hist <= more && CompleteAt(c, s0, hist, sink)
    ensures CompleteAt(c, s0, more, sink)
  {
    if RowWise(c.out) {
      if Safe(c, s0, more) && c.es {
        NullSafeBefore(s0.source, s0.ckpt, hist, more);
      }
      AgreeWeaken(c, s0.source, Safe(c, s0, hist), Safe(c, s0, more), sink,
                  s0.sink + Written(c.out, Scan(s0.source, s0.ckpt)));
    }
    forall n: nat | n >= 1 && SizesAre(more, n) ensures HoldsBatches(c, s0, sink, n) {
      assert forall i :: 0 <= i < |hist| ==> hist[i] == more[i];
      assert SizesAre(hist, n);
    }
  }

  lemma DrainedIsComplete(c: Config, s0: Sys, hist: seq<Action>)
    requires Initial(s0) && Exec(c, s0, hist).changes == 0 && Drained(Exec(c, s0, hist).pc)
    ensures CompleteAt(c, s0, hist, Exec(c, s0, hist).sink)
  {
    if RowWise(c.out) {
      DrainedSink(c, s0, hist);
    }
    forall n: nat | n >= 1 && SizesAre(hist, n) ensures HoldsBatches(c, s0, Exec(c, s0, hist).sink, n) {
      DrainedBatches(c, s0, hist, n);
    }
  }

  /** The conditional finalisation. */
  method FinishIfRunning(st: S.Store) returns (r: Result<bool>)
    requires st.Valid() && st.sys.pc.Closing?
    modifies st
    ensures st.sizes == old(st.sizes)
    ensures st.Valid() && st.faults >= old(st.faults) && st.runs == old(st.runs)
    ensures r.Ok? ==> st.sys.pc == Idle && st.faults == old(st.faults)
    ensures r.Ok? ==> st.sink == old(st.sink) && r.value == (st.seen == RUNNING)
    ensures r.Ok? ==> st.status == if r.value then IDLE else st.seen
    ensures r.Ok? && r.value ==> Complete(st)
    ensures r.Raise? ==> ExecutionRaised(st, old(st.sys.pc).n, old(st.sys.pc).attempt, r.exn)
    ensures r.Raise? ==> st.faults > old(st.faults)
  {
    ghost var drained, hist := st.sys.pc.drained, st.hist;
    if drained {
      DrainedIsComplete(st.cfg, st.init, hist);
    }
    r := st.FinishRunningToIdle();
    if r.Ok? && drained {
      CompleteStays(st.cfg, st.init, hist, st.hist, st.sink);
    }
  }

  /** get_status and conditional finalisation: a pipeline that is not RUNNING is left as the API left it. */
  method Finalize(st: S.Store) returns (r: Result<bool>)
    requires st.Valid() && st.sys.pc.Settling?
    modifies st
    ensures st.sizes == old(st.sizes)
    ensures st.Valid() && st.faults >= old(st.faults) && st.runs == old(st.runs)
    ensures r.Ok? ==> st.sys.pc == Idle && st.faults == old(st.faults) && st.sink == old(st.sink)
    ensures r.Ok? && r.value ==> st.status == IDLE && Complete(st)
    ensures r.Ok? && !r.value ==> st.status == st.seen != RUNNING
    ensures r.Raise? ==> ExecutionRaised(st, old(st.sys.pc).n, old(st.sys.pc).attempt, r.exn)
    ensures r.Raise? ==> st.faults > old(st.faults)
  {
    var status :- st.GetFinalStatus();
    if status == PAUSED {
      return S.Ok(false);
    }
    r := FinishIfRunning(st);
  }

  /** How an attempt ended: finalised or left to others, connection or process lost, or to be retried. */
  datatype AttemptEnd = Ended(finished: bool) | Lost(exn: S.Exn) | Failed

  /** One attempt: execute, then finalise; an ordinary exception of either asks for a retry. */
  method Attempt(st: S.Store, n: nat, attempt: nat, plan: Plan) returns (end: AttemptEnd)
    requires st.Valid() && st.sys.pc == Starting(n, attempt) && n >= 1 && st.cfg.out == OutputOf(plan)
    modifies st
    ensures st.sizes == old(st.sizes)
    ensures st.Valid() && st.faults >= old(st.faults)
    ensures !end.Failed? ==> st.sys.pc == if end.Lost? && end.exn.Crashed? then Down else Idle
    ensures end.Ended? && st.faults == old(st.faults) ==>
      |st.runs| == |old(st.runs)| + 1 && st.runs[..|old(st.runs)|] == old(st.runs)
      && Last(st.runs).status == RunSuccess
    ensures end.Ended? && end.finished ==> st.status == IDLE && Complete(st)
    ensures end.Lost? ==> st.faults > old(st.faults) && !end.exn.Ordinary?
    ensures end.Failed? ==>
      st.sys.pc == if attempt < st.cfg.maxAttempts then Starting(n, attempt + 1) else GivingUp
    ensures end.Failed? && st.faults == old(st.faults) ==> st.runs == old(st.runs) + [FAILED_RUN]
  {
    var exn: S.Exn;
    var executed := Execute(st, n, attempt, plan);
    if executed.Ok? {
      var finished := Finalize(st);
      if finished.Ok? {
        return Ended(finished.value);
      }
      exn := finished.exn;
    } else {
      exn := executed.exn;
    }
    if !exn.Ordinary? {
      return Lost(exn);
    }
    st.NextAttempt();
    end := Failed;
  }

  /** The delays slept once another attempt failed: one more, unless it was the last attempt. */
  function NextDelays(delays: seq<real>, attempt: nat, maxAttempts: nat, backoff: seq<real>): (r: seq<real>)
    requires backoff != [] && 1 <= attempt <= maxAttempts && Clamped(delays, backoff)
    requires |delays| == attempt - 1
    ensures Clamped(r, backoff) && |r| == Min(attempt + 1, maxAttempts) - 1
  {
    if attempt < maxAttempts then delays + [backoff[Min(attempt - 1, |backoff| - 1)]] else delays
  }

  /** What a dispatch reports when an attempt settled it; a lost connection is logged and swallowed. */
  function Concluded(end: AttemptEnd, delays: seq<real>): (d: Dispatched)
    requires !end.Failed?
    ensures d.claimed && !d.gaveUp && d.delays == delays && d.finished == (end.Ended? && end.finished)
    ensures d.error == if end.Lost? && end.exn.Crashed? then Some(S.Crashed) else None
  {
    match end
    case Ended(finished) => Dispatched(true, finished, false, delays, None)
    case Lost(e) => Dispatched(true, false, false, delays, if e.Crashed? then Some(S.Crashed) else None)
  }

  /** The permanent failure was written, unless the status had already left RUNNING and PAUSE_REQUESTED. */
  ghost predicate FailureTried(st: S.Store)
    reads st
  {
    st.status == if st.seen in {RUNNING, PAUSE_REQUESTED} then FAILED else st.seen
  }

  /** The end of the retry loop: FAILED unless the pipeline was already left. */
  method GiveUp(st: S.Store, delays: seq<real>) returns (d: Dispatched)
    requires st.Valid() && st.sys.pc.GivingUp?
    modifies st
    ensures st.sizes == old(st.sizes)
    ensures st.Valid() && st.faults >= old(st.faults) && st.runs == old(st.runs)
    ensures st.sys.pc == if d.error == Some(S.Crashed) then Down else Idle
    ensures d.claimed && !d.finished && d.gaveUp && d.delays == delays && d.error.Some?
    ensures d.error == Some(S.Disconnected) <==> S.LostLast(st.hist)
    ensures st.faults == old(st.faults) ==> FailureTried(st)
  {
    var failing := st.FailIfActive();
    d := Dispatched(true, false, true, delays, Some(if failing.Raise? then failing.exn else S.Ordinary));
  }

  /** The loop over the attempts, until one settles the dispatch; None when all have failed. */
  method Attempts(st: S.Store, n: nat, plan: Plan, backoff: seq<real>)
    returns (d: Option<Dispatched>, delays: seq<real>, ghost failed: seq<Run>)
    requires st.Valid() && st.sys.pc == Starting(n, 1) && n >= 1 && st.cfg.out == OutputOf(plan)
    requires st.cfg.maxAttempts >= 1 && backoff != []
    modifies st
    ensures st.sizes == old(st.sizes)
    ensures st.Valid() && st.faults >= old(st.faults)
    ensures d.None? ==> st.sys.pc == GivingUp && |delays| == st.cfg.maxAttempts - 1 && Clamped(delays, backoff)
    ensures d.None? && st.faults == old(st.faults) ==>
      |failed| == st.cfg.maxAttempts && AllFailed(failed) && st.runs == old(st.runs) + failed
    ensures d.Some? ==> d.value.claimed && !d.value.gaveUp
    ensures d.Some? ==> st.sys.pc == if d.value.error.Some? then Down else Idle
    // a connection lost in an attempt is swallowed
    ensures d.Some? && d.value.error.Some? ==> d.value.error == Some(S.Crashed) && st.faults > old(st.faults)
    ensures d.Some? && st.faults == old(st.faults) ==>
      Retried(old(st.runs), st.runs, d.value, st.cfg.maxAttempts, backoff)
    ensures d.Some? && d.value.finished ==> st.status == IDLE && Complete(st)
  {
    delays, failed := [], [];
    for attempt := 1 to st.cfg.maxAttempts + 1
      invariant st.Valid() && st.faults >= old(st.faults) && st.sizes == old(st.sizes)
      invariant st.sys.pc == if attempt <= st.cfg.maxAttempts then Starting(n, attempt) else GivingUp
      invariant |delays| == Min(attempt, st.cfg.maxAttempts) - 1 && Clamped(delays, backoff)
      invariant st.faults == old(st.faults) ==>
        |failed| == attempt - 1 && AllFailed(failed) && st.runs == old(st.runs) + failed
    {
      var end := Attempt(st, n, attempt, plan);
      if !end.Failed? {
        var settled := Concluded(end, delays);
        if st.faults == old(st.faults) {
          SucceededRetried(old(st.runs), failed, st.runs, settled, st.cfg.maxAttempts, backoff);
        }
        return Some(settled), delays, failed;
      }
      failed := failed + [FAILED_RUN];
      delays := NextDelays(delays, attempt, st.cfg.maxAttempts, backoff);
    }
    d := None;
  }

  /** The attempts of a claimed pipeline, and the permanent failure after the last one. */
  method RunAttempts(st: S.Store, n: nat, plan: Plan, backoff: seq<real>) returns (d: Dispatched)
    requires st.Valid() && st.sys.pc == Starting(n, 1) && n >= 1 && st.cfg.out == OutputOf(plan)
    requires st.cfg.maxAttempts >= 1 && backoff != []
    modifies st
    ensures st.sizes == old(st.sizes)
    ensures st.Valid() && st.faults >= old(st.faults) && d.claimed
    ensures st.sys.pc == if d.error == Some(S.Crashed) then Down else Idle
    ensures st.faults == old(st.faults) ==>
      Retried(old(st.runs), st.runs, d, st.cfg.maxAttempts, backoff)
    ensures d.gaveUp && st.faults == old(st.faults) ==> FailureTried(st)
    ensures d.error.Some? && !d.gaveUp ==> st.faults > old(st.faults)
    ensures d.error.Some? ==> d.gaveUp || d.error == Some(S.Crashed)
    ensures d.gaveUp ==> d.error.Some? && (d.error == Some(S.Disconnected) <==> S.LostLast(st.hist))
    ensures d.finished ==> st.status == IDLE && Complete(st)
  {
    var settled, delays;
    ghost var failed;
    settled, delays, failed := Attempts(st, n, plan, backoff);
    if settled.Some? {
      return settled.value;
    }
    d := GiveUp(st, delays);
    if st.faults == old(st.faults) {
      ExhaustedRetried(old(st.runs), failed, d, st.cfg.maxAttempts, backoff);
    }
  }

  /** batch_size or 1000 */
  function BatchSize(configured: nat): (n: nat)
    ensures configured >= 1 ==> n == configured
    ensures configured == 0 ==> n == 1000
  {
    if configured == 0 then 1000 else configured
  }

  /** A dispatch freezes at most one batch size, the configured one, and does so before it executes anything. */
  predicate Froze(was: seq<nat>, now: seq<nat>, batchSize: nat) {
    now == was || now == was + [BatchSize(batchSize)]
  }

  /**
   * Which exceptions leave a dispatch: the loss of the connection if it happened before the
   * snapshot or in the update that gives up, but none once an execution may have begun;
   * there only a crash does, and what giving up passes on.
   */
  predicate Propagates(d: Dispatched, began: bool, lostLast: bool) {
    && (d.error.Some? && began ==> d.gaveUp || d.error == Some(S.Crashed))
    && (d.error == Some(S.Disconnected) <==> lostLast && (d.gaveUp || !began))
  }

  /** A claimed pipeline: its snapshot, then the attempts. */
  method RunClaimed(st: S.Store, plan: Plan, batchSize: nat, backoff: seq<real>) returns (d: Dispatched)
    requires st.Valid() && st.sys.pc.Claimed?
    requires st.cfg.out == OutputOf(plan) && st.cfg.maxAttempts >= 1 && backoff != []
    modifies st
    ensures st.Valid() && st.faults >= old(st.faults) && d.claimed
    ensures st.sys.pc == if d.error == Some(S.Crashed) then Down else Idle
    ensures st.faults == old(st.faults) ==>
      Retried(old(st.runs), st.runs, d, st.cfg.maxAttempts, backoff)
    ensures Froze(old(st.sizes), st.sizes, batchSize)
    ensures st.sizes == old(st.sizes) ==> d.error.Some? && !d.gaveUp && st.runs == old(st.runs)
    ensures Propagates(d, st.sizes != old(st.sizes), S.LostLast(st.hist))
    ensures d.gaveUp && st.faults == old(st.faults) ==> FailureTried(st)
    ensures d.error.Some? && !d.gaveUp ==> st.faults > old(st.faults)
    ensures d.finished ==> st.status == IDLE && Complete(st)
  {
    var snapshot := st.TakeSnapshot(BatchSize(batchSize));
    if snapshot.Raise? {
      return Dispatched(true, false, false, [], Some(snapshot.exn));
    }
    d := RunAttempts(st, snapshot.value, plan, backoff);
  }

  /** An unclaimed dispatch: a pause still pending is applied, a request that the API withdrew meanwhile is left. */
  ghost predicate LeftAlone(st: S.Store, observed: Status, d: Dispatched)
    reads st
  {
    !d.claimed && d.error.None? ==>
      st.status == (if observed == st.seen == PAUSE_REQUESTED then PAUSED else st.seen) != observed
  }

  /** The claim of a listed run request. */
  method ClaimListed(st: S.Store) returns (r: Result<bool>)
    requires st.Valid() && st.sys.pc == Seen(RUN_REQUESTED)
    modifies st
    ensures st.Valid() && st.sizes == old(st.sizes) && st.runs == old(st.runs)
    ensures r.Ok? && r.value ==> st.sys.pc == Claimed
    ensures !(r.Ok? && r.value) ==> st.sys.pc == if r.Raise? && r.exn.Crashed? then Down else Idle
    ensures r.Ok? && !r.value ==> st.status == st.seen != RUN_REQUESTED
    ensures if r.Ok? then st.faults == old(st.faults) else st.faults > old(st.faults)
    ensures S.LostLast(st.hist) <==> r.Raise? && r.exn.Disconnected?
  {
    r := st.ClaimRunRequested();
  }

  /** The branch of a run request: claim, then run; a pipeline claimed by others is left. */
  method DispatchRun(st: S.Store, plan: Plan, batchSize: nat, backoff: seq<real>) returns (d: Dispatched)
    requires st.Valid() && st.sys.pc == Seen(RUN_REQUESTED)
    requires st.cfg.out == OutputOf(plan) && st.cfg.maxAttempts >= 1 && backoff != []
    modifies st
    ensures st.Valid() && st.sys.pc == if d.error == Some(S.Crashed) then Down else Idle
    ensures d.claimed && st.faults == old(st.faults) ==>
      Retried(old(st.runs), st.runs, d, st.cfg.maxAttempts, backoff)
    ensures Froze(old(st.sizes), st.sizes, batchSize)
    ensures !d.claimed ==> st.sizes == old(st.sizes)
    ensures d.claimed && st.sizes == old(st.sizes) ==> d.error.Some? && !d.gaveUp
    ensures st.sizes == old(st.sizes) ==> st.runs == old(st.runs)
    ensures Propagates(d, st.sizes != old(st.sizes), S.LostLast(st.hist))
    ensures LeftAlone(st, RUN_REQUESTED, d)
    ensures d.gaveUp ==> d.claimed && (st.faults == old(st.faults) ==> FailureTried(st))
    ensures d.error.Some? && !d.gaveUp ==> st.faults > old(st.faults)
    ensures d.finished ==> st.status == IDLE && Complete(st)
  {
    d := Dispatched(false, false, false, [], None);
    var claimed := ClaimListed(st);
    if claimed.Raise? {
      return d.(error := Some(claimed.exn));
    }
    if !claimed.value {
      return;
    }
    d := RunClaimed(st, plan, batchSize, backoff);
  }

  /** The branch of a pause request. */
  method DispatchPause(st: S.Store) returns (d: Dispatched)
    requires st.Valid() && st.sys.pc == Seen(PAUSE_REQUESTED)
    modifies st
    ensures st.Valid() && st.sys.pc == if d.error == Some(S.Crashed) then Down else Idle
    ensures !d.claimed && !d.gaveUp && !d.finished
    ensures st.sizes == old(st.sizes) && st.runs == old(st.runs)
    ensures Propagates(d, false, S.LostLast(st.hist))
    ensures LeftAlone(st, PAUSE_REQUESTED, d)
    ensures d.error.Some? ==> st.faults > old(st.faults)
  {
    var applied := st.ApplyPauseIdle();
    d := Dispatched(false, false, false, [], if applied.Raise? then Some(applied.exn) else None);
  }

  /** dispatch: acts on the observed status, which may be out of date. */
  method Dispatch(st: S.Store, observed: Status, plan: Plan, batchSize: nat, backoff: seq<real>)
    returns (d: Dispatched)
    requires st.Valid() && st.sys.pc == Seen(observed) && observed in {RUN_REQUESTED, PAUSE_REQUESTED}
    requires st.cfg.out == OutputOf(plan) && st.cfg.maxAttempts >= 1 && backoff != []
    modifies st
    ensures st.Valid() && st.sys.pc == if d.error == Some(S.Crashed) then Down else Idle
    ensures d.claimed ==> observed == RUN_REQUESTED
    ensures d.claimed && st.faults == old(st.faults) ==>
      Retried(old(st.runs), st.runs, d, st.cfg.maxAttempts, backoff)
    ensures Froze(old(st.sizes), st.sizes, batchSize)
    ensures !d.claimed ==> st.sizes == old(st.sizes)
    ensures d.claimed && st.sizes == old(st.sizes) ==> d.error.Some? && !d.gaveUp
    ensures st.sizes == old(st.sizes) ==> st.runs == old(st.runs)
    ensures Propagates(d, st.sizes != old(st.sizes), S.LostLast(st.hist))
    ensures LeftAlone(st, observed, d)
    ensures d.gaveUp ==> d.claimed && (st.faults == old(st.faults) ==> FailureTried(st))
    ensures d.error.Some? && !d.gaveUp ==> st.faults > old(st.faults)
    ensures d.finished ==> st.status == IDLE && Complete(st)
  {
    if observed == PAUSE_REQUESTED {
      d := DispatchPause(st);
    } else {
      d := DispatchRun(st, plan, batchSize, backoff);
    }
  }

  // ---------- Manager and main loop ----------

  /** A pipeline at one moment: its status, runs and outside failures, and the batch sizes frozen so far. */
  datatype Snap = Snap(status: Status, runs: seq<Run>, faults: nat, sizes: seq<nat>, lostLast: bool)

  ghost function Now(st: S.Store): Snap
    reads st
  {
    Snap(st.status, st.runs, st.faults, st.sizes, S.LostLast(st.hist))
  }

  /** A dispatched pipeline: at most the configured batch size was frozen, and losses in an execution stay inside. */
  predicate Isolated(was: Snap, now: Snap, batchSize: nat, d: Dispatched) {
    && Froze(was.sizes, now.sizes, batchSize)
    && (!d.claimed || now.sizes == was.sizes ==> now.sizes == was.sizes && now.runs == was.runs)
    && (d.claimed && now.sizes == was.sizes ==> d.error.Some? && !d.gaveUp)
    && Propagates(d, now.sizes != was.sizes, now.lostLast)
  }

  /** What a tick did with a pipeline: not dispatched because it was inactive, or dispatched like this. */
  ghost predicate Ticked(c: Config, was: Snap, now: Snap, batchSize: nat, d: Option<Dispatched>, backoff: seq<real>)
    requires backoff != []
  {
    match d
    case None =>
      && now.runs == was.runs && now.sizes == was.sizes
      && (c.enabled ==> now.status !in {RUN_REQUESTED, PAUSE_REQUESTED})
    case Some(x) =>
      && c.enabled && Isolated(was, now, batchSize, x)
      && (x.claimed && now.faults == was.faults ==> Retried(was.runs, now.runs, x, c.maxAttempts, backoff))
      && (x.gaveUp && now.faults == was.faults ==> now.status !in {RUNNING, PAUSE_REQUESTED})
      && (x.error.Some? && !x.gaveUp ==> now.faults > was.faults)
      && (x.finished ==> now.status == IDLE)
  }

  predicate Died(d: Option<Dispatched>) {
    d.Some? && d.value.error == Some(S.Crashed)
  }

  /** One tick for the pipeline: an inactive one is not dispatched, an exception is not passed on. */
  method RunTick(st: S.Store, plan: Plan, batchSize: nat, backoff: seq<real>)
    returns (observed: Option<Status>, d: Option<Dispatched>)
    requires st.Valid() && st.sys.pc.Idle?
    requires st.cfg.out == OutputOf(plan) && st.cfg.maxAttempts >= 1 && backoff != []
    modifies st
    ensures st.Valid() && st.sys.pc == if Died(d) then Down else Idle
    ensures d.Some? <==> observed.Some?
    ensures Ticked(st.cfg, old(Now(st)), Now(st), batchSize, d, backoff)
    ensures d.Some? ==> LeftAlone(st, observed.value, d.value)
    ensures d.Some? && d.value.gaveUp && st.faults == old(st.faults) ==> FailureTried(st)
    ensures d.Some? && d.value.finished ==> Complete(st)
  {
    observed := st.ObserveActive();
    if observed.None? {
      return observed, None;
    }
    var dispatched := Dispatch(st, observed.value, plan, batchSize, backoff);
    d := Some(dispatched);
  }

  /** Startup recovery: afterwards nothing is RUNNING that no process runs; `stuck` is what was listed. */
  method Startup(st: S.Store) returns (stuck: bool, r: Result<()>)
    requires st.Valid() && st.sys.pc.Down?
    modifies st
    ensures st.sizes == old(st.sizes)
    ensures st.Valid() && st.sys.pc == if r.Ok? then Idle else Down
    ensures stuck ==> old(st.status) == RUNNING
    ensures st.faults == old(st.faults) + if r.Raise? then 1 else 0
    ensures r.Ok? ==> st.status == if stuck && st.seen == RUNNING then RUN_REQUESTED else st.seen
    ensures r.Ok? ==> st.status != RUNNING
    ensures r.Ok? ==> st.runs == if stuck then FailRunning(old(st.runs)) else old(st.runs)
    ensures r.Raise? ==> st.runs == old(st.runs)
  {
    stuck := st.ListStuck();
    r := st.RecoverStuck(stuck);
  }

  /** The moments between the ticks, each tick leading from one to the next. */
  ghost predicate Ticking(c: Config, snaps: seq<Snap>, batchSizes: seq<nat>, ticks: seq<Option<Dispatched>>,
                          backoff: seq<real>)
    requires backoff != []
  {
    |snaps| == |ticks| + 1 && |ticks| <= |batchSizes|
    && forall i :: 0 <= i < |ticks| ==> Ticked(c, snaps[i], snaps[i + 1], batchSizes[i], ticks[i], backoff)
  }

  lemma TickingOn(c: Config, snaps: seq<Snap>, batchSizes: seq<nat>, ticks: seq<Option<Dispatched>>,
                  backoff: seq<real>, now: Snap, d: Option<Dispatched>)
    requires backoff != [] && Ticking(c, snaps, batchSizes, ticks, backoff) && |ticks| < |batchSizes|
    requires Ticked(c, Last(snaps), now, batchSizes[|ticks|], d, backoff)
    ensures Ticking(c, snaps + [now], batchSizes, ticks + [d], backoff)
  {
    var snaps', ticks' := snaps + [now], ticks + [d];
    forall i | 0 <= i < |ticks'| ensures Ticked(c, snaps'[i], snaps'[i + 1], batchSizes[i], ticks'[i], backoff) {
      if i < |ticks| {
        assert Ticked(c, snaps[i], snaps[i + 1], batchSizes[i], ticks[i], backoff);
      }
    }
  }

  /** All of these batch sizes come to n. */
  predicate OneSize(batchSizes: seq<nat>, n: nat) {
    forall i :: 0 <= i < |batchSizes| ==> BatchSize(batchSizes[i]) == n
  }

  predicate AllAre(sizes: seq<nat>, n: nat) {
    forall i :: 0 <= i < |sizes| ==> sizes[i] == n
  }

  lemma {:induction false} FrozenSizes(acts: seq<Action>, n: nat)
    ensures AllAre(S.TallyOf(acts).sizes, n) <==> SizesAre(acts, n)
  {
    if acts == [] {
      assert S.TallyOf(acts).sizes == [];
    } else {
      var front, a := acts[..|acts| - 1], Last(acts);
      assert acts == front + [a];
      FrozenSizes(front, n);
      S.TallySnoc(front, a);
      FrozenSnoc(S.TallyOf(front).sizes, a, n);
      assert S.TallyOf(acts) == S.Noted(S.TallyOf(front), a);
      SizesAreSnoc(front, a, n);
    }
  }

  lemma FrozenSnoc(sizes: seq<nat>, a: Action, n: nat)
    ensures AllAre(if a.Snapshot? then sizes + [a.n] else sizes, n) <==> AllAre(sizes, n) && (a.Snapshot? ==> a.n == n)
  {
    if a.Snapshot? {
      AllAreSnoc(sizes, [a.n], n);
      assert [a.n][0] == a.n;
    }
  }

  lemma SizesAreSnoc(acts: seq<Action>, a: Action, n: nat)
    ensures SizesAre(acts + [a], n) <==> SizesAre(acts, n) && (a.Snapshot? ==> a.n == n)
  {
    if SizesAre(acts + [a], n) {
      assert (acts + [a])[|acts|] == a;
      forall i | 0 <= i < |acts| && acts[i].Snapshot? ensures acts[i].n == n { assert (acts + [a])[i] == acts[i]; }
    }
  }

  lemma AllAreSnoc(sizes: seq<nat>, more: seq<nat>, n: nat)
    ensures AllAre(sizes + more, n) <==> AllAre(sizes, n) && AllAre(more, n)
  {
    if AllAre(sizes + more, n) {
      forall i | 0 <= i < |sizes| ensures sizes[i] == n { assert (sizes + more)[i] == n; }
      forall i | 0 <= i < |more| ensures more[i] == n { assert (sizes + more)[|sizes| + i] == n; }
    }
  }

  lemma TickKeepsSize(c: Config, was: Snap, now: Snap, batchSize: nat, d: Option<Dispatched>, backoff: seq<real>,
                      n: nat)
    requires backoff != [] && Ticked(c, was, now, batchSize, d, backoff)
    requires AllAre(was.sizes, n) && BatchSize(batchSize) == n
    ensures AllAre(now.sizes, n)
  {
    AllAreSnoc(was.sizes, [BatchSize(batchSize)], n);
  }

  /**
   * Startup recovery, then a tick for every configured batch size, unless the process
   * dies: in recovery, which then counts as a failure, or in a tick.  `size` is any number.
   */
  method MainLoop(st: S.Store, plan: Plan, batchSizes: seq<nat>, backoff: seq<real>, ghost size: nat)
    returns (started: bool, ticks: seq<Option<Dispatched>>, ghost snaps: seq<Snap>)
    requires st.Valid() && st.sys.pc.Down?
    requires st.cfg.out == OutputOf(plan) && st.cfg.maxAttempts >= 1 && backoff != []
    modifies st
    ensures st.Valid() && st.sys.pc == Down
    ensures !started ==> ticks == [] && st.faults == old(st.faults) + 1 && st.runs == old(st.runs)
    ensures started ==> |ticks| == |batchSizes| || (ticks != [] && Died(Last(ticks)))
    ensures started ==> Ticking(st.cfg, snaps, batchSizes, ticks, backoff)
    ensures started ==> snaps[0].status != RUNNING && snaps[0].faults == old(st.faults)
    ensures started ==> snaps[0].runs == old(st.runs) || snaps[0].runs == FailRunning(old(st.runs))
    ensures started ==> snaps[0].sizes == old(st.sizes)
    ensures started ==> st.runs == Last(snaps).runs
    ensures st.sizes == if started then Last(snaps).sizes else old(st.sizes)
    ensures AllAre(old(st.sizes), size) && OneSize(batchSizes, size) ==> AllAre(st.sizes, size)
    ensures forall i :: 0 <= i < |ticks| - 1 ==> !Died(ticks[i])
  {
    ticks, snaps := [], [];
    var _, recovered := Startup(st);
    if recovered.Raise? {
      return false, [], [];
    }
    snaps := [Now(st)];
    started := true;
    ghost var first := snaps[0];
    for tick := 0 to |batchSizes|
      invariant st.Valid() && st.sys.pc.Idle?
      invariant |ticks| == tick && forall i :: 0 <= i < tick ==> !Died(ticks[i])
      invariant Ticking(st.cfg, snaps, batchSizes, ticks, backoff)
      invariant snaps[0] == first && Last(snaps) == Now(st)
      invariant AllAre(old(st.sizes), size) && OneSize(batchSizes, size) ==> AllAre(st.sizes, size)
    {
      var _, d := RunTick(st, plan, batchSizes[tick], backoff);
      TickingOn(st.cfg, snaps, batchSizes, ticks, backoff, Now(st), d);
      if AllAre(old(st.sizes), size) && OneSize(batchSizes, size) {
        TickKeepsSize(st.cfg, Last(snaps), Now(st), batchSizes[tick], d, backoff, size);
      }
      ticks, snaps := ticks + [d], snaps + [Now(st)];
      if Died(d) {
        return;
      }
    }
    st.Kill();
  }

  /**
   * The life of a deployment: any number of runner processes one after another,
   * each killed or crashed at any point.  Whatever the API did and whatever
   * failed, the committed sink is the fold of the rows up to the checkpoint; an
   * index is that in every cell no row above the checkpoint writes.  For any transform
   * and one batch size `size` throughout it is the committed batches, an index up to the
   * cells of the next one.
   */
  method Operate(st: S.Store, plan: Plan, lives: seq<seq<nat>>, backoff: seq<real>, ghost size: nat)
    requires st.Valid() && st.sys.pc.Down?
    requires st.cfg.out == OutputOf(plan) && st.cfg.maxAttempts >= 1 && backoff != []
    modifies st
    ensures st.Valid()
    ensures RowWise(st.cfg.out) && !st.cfg.es ==>
      st.sink == st.init.sink + Written(st.cfg.out, Between(st.source, st.init.ckpt, st.sys.ckpt))
    ensures RowWise(st.cfg.out) && st.cfg.es ==>
      CleanCellsAgree(st.cfg, st.init, st.sink, st.sys.ckpt, Safe(st.cfg, st.init, st.hist),
                      Between(st.source, st.init.ckpt, st.sys.ckpt))
    ensures size >= 1 && AllAre(old(st.sizes), size) && (forall i :: 0 <= i < |lives| ==> OneSize(lives[i], size)) ==>
      SizesAre(st.hist, size) && Paged(st.cfg, CommittedSink(st.cfg, st.init, st.hist), st.sys, size)
  {
    ghost var same := AllAre(st.sizes, size) && forall i :: 0 <= i < |lives| ==> OneSize(lives[i], size);
    for life := 0 to |lives|
      invariant st.Valid() && st.sys.pc.Down?
      invariant same ==> AllAre(st.sizes, size)
    {
      var _, _, _ := MainLoop(st, plan, lives[life], backoff, size);
    }
    RowsAreHeld(st);
    if size >= 1 && same {
      FrozenSizes(st.hist, size);
      OneSizeSink(st.cfg, st.init, st.hist, size);
    }
  }

  lemma RowsAreHeld(st: S.Store)
    requires st.Valid()
    ensures RowWise(st.cfg.out) && !st.cfg.es ==>
      st.sink == st.init.sink + Written(st.cfg.out, Between(st.source, st.init.ckpt, st.sys.ckpt))
    ensures RowWise(st.cfg.out) && st.cfg.es ==>
      CleanCellsAgree(st.cfg, st.init, st.sink, st.sys.ckpt, Safe(st.cfg, st.init, st.hist),
                      Between(st.source, st.init.ckpt, st.sys.ckpt))
  {
    if RowWise(st.cfg.out) && !st.cfg.es {
      AtomicCheckpoint(st.cfg, st.init, st.hist);
    } else if RowWise(st.cfg.out) {
      AbsorbAlways(st.cfg, st.init, st.hist, Safe(st.cfg, st.init, st.hist));
      ProgressAlways(st.cfg, st.init, st.hist);
      AppliedIsBetween(st.init, st.sys);
    }
  }
}
