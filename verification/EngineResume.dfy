/** From any moment of any history: when a pipeline can still finish, and what an index may hold at a pause. */
module EngineResume {
  import opened Rows
  import opened Keyset
  import opened Sinks
  import opened Status
  import opened Engine
  import opened EngineProtocol
  import opened EngineProgress
  import opened EngineSafety
  import opened EngineRuns
  import opened EngineKeys
  import opened EngineReplay
  import opened EngineConverge
  import opened EngineNulls
  import EngineRecovery
  import EngineRequests

  // ---------- When a pipeline can still finish ----------

  /** Kill the process wherever it is, start it again and request a run. */
  const REQUEUED := RECOVERED + [ApiRun]

  lemma Killed(c: Config, s: Sys)
    requires SessionOk(c, s)
    ensures Step(c, s, Crash) == s.(pend := CLEAN, pc := Down)
  {
  }

  lemma ComesBack(c: Config, s: Sys)
    requires s.pc.Down? && s.pend == CLEAN && s.status != FAILED
    ensures var s' := Exec(c, s, [Restart] + [Recover]);
      && s'.pc == Idle && s'.status != RUNNING && s'.status != FAILED
      && Keeps(s, s') && s'.ckpt == s.ckpt
  {
    if s.status == RUNNING {
      Recovers(c, s);
    } else {
      ComesBackIdle(c, s);
    }
  }

  lemma ComesBackIdle(c: Config, s: Sys)
    requires s.pc.Down? && s.status != RUNNING
    ensures Exec(c, s, [Restart] + [Recover]) == s.(pc := Idle)
  {
    EngineRecovery.Lists(c, s);
    ExecTwo(c, s, Restart, Recover);
  }

  lemma Queues(c: Config, s: Sys)
    requires s.status != RUNNING && s.status != FAILED
    ensures Step(c, s, ApiRun) == s.(status := RUN_REQUESTED)
  {
  }

  lemma Requeues(c: Config, s: Sys)
    requires SessionOk(c, s) && s.status != FAILED
    ensures var s' := Exec(c, s, REQUEUED);
      s'.pc == Idle && s'.status == RUN_REQUESTED && Keeps(s, s') && s'.ckpt == s.ckpt
  {
    Killed(c, s);
    ExecOne(c, s, Crash);
    ComesBack(c, Step(c, s, Crash));
    ExecAppend(c, s, [Crash], [Restart] + [Recover]);
    Queues(c, Exec(c, s, RECOVERED));
    ExecSnoc(c, s, RECOVERED, ApiRun);
  }

  /** From there an undisturbed run. */
  function Resuming(source: seq<Row>, ckpt: Option<Key>, n: nat): seq<Action>
    requires Distinct(source) && n >= 1 && Drain(source, ckpt, n).Some?
  {
    REQUEUED + Undisturbed(source, ckpt, n)
  }

  /**
   * No dead end: at every moment of every history, wherever the runner and the status are,
   * a pipeline that has not failed and whose remaining batches can be committed finishes
   * after a restart and a run request.
   */
  lemma ResumedRunFinishes(c: Config, s0: Sys, acts: seq<Action>, n: nat)
    requires Initial(s0) && c.enabled && n >= 1 && Exec(c, s0, acts).changes == 0
    requires Exec(c, s0, acts).status != FAILED && Drain(s0.source, Exec(c, s0, acts).ckpt, n).Some?
    ensures Finishes(c, s0, acts + Resuming(s0.source, Exec(c, s0, acts).ckpt, n), Close)
  {
    var s := Exec(c, s0, acts);
    ProgressAlways(c, s0, acts);
    Requeues(c, s);
    UndisturbedRunFinishes(c, Exec(c, s, REQUEUED), n);
    ExecAppend(c, s, REQUEUED, Undisturbed(s0.source, s.ckpt, n));
    ExecAppend(c, s0, acts, Resuming(s0.source, s.ckpt, n));
  }

  lemma OnlyNullsLeft(c: Config, s0: Sys, acts: seq<Action>, a: Action)
    requires Initial(s0) && s0.ckpt.None? && Drain(s0.source, None, 1).None?
    ensures !Finishes(c, s0, acts, a)
  {
    FirstRunCompletes(s0.source, 1);
    forall m: nat | m >= 1 ensures Hopeless(s0.source, m) {
      NothingKeyedIsHopeless(s0.source, m);
    }
    HopelessNeverFinishes(c, s0, acts, a);
  }

  /**
   * Exactly: the pipeline can still finish, with whatever batch sizes, if and only if it
   * has not failed and there is a checkpoint, a keyed row, or no row at all, that is, if
   * its rows can be committed one by one.
   */
  lemma CanStillFinishExactly(c: Config, s0: Sys, acts: seq<Action>)
    requires Initial(s0) && c.enabled && Exec(c, s0, acts).changes == 0
    ensures (exists more, a :: Finishes(c, s0, acts + more, a))
       <==> Exec(c, s0, acts).status != FAILED && Drain(s0.source, Exec(c, s0, acts).ckpt, 1).Some?
  {
    var s := Exec(c, s0, acts);
    if s.status != FAILED && Drain(s0.source, s.ckpt, 1).Some? {
      ResumedRunFinishes(c, s0, acts, 1);
    } else {
      forall more, a ensures !Finishes(c, s0, acts + more, a) {
        ExecAppend(c, s0, acts, more);
        if s.status == FAILED {
          EngineRequests.FailedIsAbsorbing(c, s, more);
        } else {
          ProgressAlways(c, s0, acts);
          if s.ckpt.Some? {
            CursorRunsComplete(s0.source, s.ckpt.value, 1);
          } else if s0.ckpt.Some? {
            CheckpointStays(s0, s);
          }
          OnlyNullsLeft(c, s0, acts + more, a);
        }
      }
    }
  }

  // ---------- What an index may hold at a pause ----------

  /** A batch is written; a pause is requested; the process dies and is started again; a tick lists the request. */
  function Halting(n: nat): seq<Action> {
    FirstWrite(n) + (([ApiPause] + [Crash]) + ([Restart] + [Recover]) + [Tick])
  }

  lemma Halts(c: Config, s: Sys)
    requires s.status == RUNNING && s.pc.Body? && s.pend == CLEAN && c.enabled
    ensures Exec(c, s, ([ApiPause] + [Crash]) + ([Restart] + [Recover]) + [Tick])
         == s.(status := PAUSE_REQUESTED, pc := Seen(PAUSE_REQUESTED))
  {
    var crash, restart := [ApiPause] + [Crash], [Restart] + [Recover];
    EngineRecovery.PausedCrash(c, s);
    EngineRecovery.PausedRestart(c, Exec(c, s, crash));
    ExecAppend(c, s, crash, restart);
    ExecSnoc(c, s, crash + restart, Tick);
  }

  lemma AppliesPause(c: Config, s: Sys)
    requires s.pc == Seen(PAUSE_REQUESTED) && s.status == PAUSE_REQUESTED && s.pend == CLEAN
    ensures Step(c, s, DispatchPause) == s.(status := PAUSED, pc := Idle)
  {
    CommitClean(s.(status := PAUSED));
  }

  /**
   * The design promises that a pause leaves no partial batch.  In an index it may, for any
   * transform: this history ends PAUSED with a batch written and the checkpoint before it.
   */
  lemma PausedWithPartialBatch(c: Config, s0: Sys, n: nat)
    requires Initial(s0) && s0.pc.Idle? && s0.status == RUN_REQUESTED && c.enabled
    requires c.es && n >= 1 && Page(s0.source, s0.ckpt, n) != []
    ensures var s := Exec(c, s0, Halting(n)); var s' := Step(c, s, DispatchPause);
      && s.changes == 0 && s.status == PAUSE_REQUESTED && s'.status == PAUSED && s'.pc == Idle
      && s'.ckpt == s0.ckpt && s'.sink == s0.sink + Written(c.out, Page(s0.source, s0.ckpt, n))
  {
    var halt := ([ApiPause] + [Crash]) + ([Restart] + [Recover]) + [Tick];
    FirstPageWritten(c, s0, n);
    Halts(c, Exec(c, s0, FirstWrite(n)));
    ExecAppend(c, s0, FirstWrite(n), halt);
    AppliesPause(c, Exec(c, s0, Halting(n)));
  }

  /** Whenever the pipeline becomes PAUSED, the sink holds the rows up to the checkpoint and nothing else. */
  ghost predicate PausesAtCheckpoint(c: Config, s0: Sys) {
    forall acts, a ::
      Exec(c, s0, acts).changes == 0 && Exec(c, s0, acts).status != PAUSED
      && Step(c, Exec(c, s0, acts), a).status == PAUSED ==>
        var s := Step(c, Exec(c, s0, acts), a);
        s.sink == s0.sink + Written(c.out, Between(s0.source, s0.ckpt, s.ckpt))
  }

  lemma BetweenNothing(source: seq<Row>, k: Option<Key>)
    requires Distinct(source)
    ensures Between(source, k, k) == []
  {
    BetweenFacts(source, k, k);
    HasMember(Between(source, k, k));
  }

  /** With no row to fetch nothing is ever written. */
  lemma NothingFetched(c: Config, s0: Sys, acts: seq<Action>)
    requires Initial(s0) && Exec(c, s0, acts).changes == 0 && Page(s0.source, s0.ckpt, 1) == []
    ensures Exec(c, s0, acts).sink == s0.sink && Exec(c, s0, acts).ckpt == s0.ckpt
  {
    PageFacts(s0.source, s0.ckpt, 1);
    forall r | r in s0.source ensures !Above(r, s0.ckpt) { WhereDropsNulls(r, s0.ckpt); }
    if s0.ckpt.None? {
      assert AllKeyed(s0.source);
    }
    assert NullSafe(s0.source, s0.ckpt, acts);
    DrainedRerunIsSilent(c, s0, acts);
  }

  /**
   * The promise holds of an index, exactly: for a queued pipeline whose index does not hold
   * the next row beforehand, every pause finds just the rows up to the checkpoint if and
   * only if there is nothing to fetch.
   */
  lemma PausesAtCheckpointExactly(c: Config, s0: Sys)
    requires Initial(s0) && s0.pc.Idle? && s0.status == RUN_REQUESTED && c.enabled
    requires c.es && RowWise(c.out) && Owns(c.out) && DistinctIds(s0.source)
    requires forall r :: r in Page(s0.source, s0.ckpt, 1) ==> !Present(c, s0.sink, r)
    ensures PausesAtCheckpoint(c, s0) <==> Page(s0.source, s0.ckpt, 1) == []
  {
    var b := Page(s0.source, s0.ckpt, 1);
    BetweenNothing(s0.source, s0.ckpt);
    WrittenNothing(c.out);
    if b == [] {
      forall acts, a |
        Exec(c, s0, acts).changes == 0 && Exec(c, s0, acts).status != PAUSED
        && Step(c, Exec(c, s0, acts), a).status == PAUSED
        ensures var s := Step(c, Exec(c, s0, acts), a);
          s.sink == s0.sink + Written(c.out, Between(s0.source, s0.ckpt, s.ckpt))
      {
        NothingFetched(c, s0, acts);
        PauseAtBatchBoundary(c, s0, acts, a);
        assert s0.sink + map[] == s0.sink;
      }
    } else {
      PausedWithPartialBatch(c, s0, 1);
      PagePresent(c, s0.source, s0.ckpt, 1, s0.sink, b[0]);
      assert s0.sink + map[] == s0.sink;
      assert b[0] in b;
    }
  }
}
