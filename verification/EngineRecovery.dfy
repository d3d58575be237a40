/** Which runs a restart closes, and which stay open although no process executes them. */
module EngineRecovery {
  import opened Rows
  import opened Status
  import opened Engine
  import opened EngineAccounts
  import opened EngineRuns

  /** The runner holds the last run open. */
  predicate Owned(pc: Pc) {
    pc.Body? || pc.Failing? || pc.RolledBack?
  }

  /** No process will end this run. */
  predicate Unowned(s: Sys, i: nat) {
    i < |s.runs| && (Owned(s.pc) ==> i < |s.runs| - 1)
  }

  /** The one action that ends runs of others: the recovery of a restart that found the pipeline RUNNING. */
  predicate Closes(s: Sys, a: Action) {
    a == Recover && s.pc == Recovering(true)
  }

  predicate EndsRun(a: Action) {
    a.FinishRun? || a.RecordFailure?
  }

  lemma EndStep(c: Config, s: Sys, a: Action, i: nat)
    requires Unowned(s, i) && EndsRun(a)
    ensures Unowned(Step(c, s, a), i) && Step(c, s, a).runs[i] == s.runs[i]
  {
  }

  lemma RecoverStep(c: Config, s: Sys, i: nat)
    requires i < |s.runs|
    ensures Unowned(Step(c, s, Recover), i) || !s.pc.Recovering?
    ensures var s' := Step(c, s, Recover);
      |s'.runs| == |s.runs| && s'.runs[i] == if Closes(s, Recover) then Shut(s.runs[i]) else s.runs[i]
  {
  }

  /** The actions that neither end a run nor recover only ever append one. */
  lemma OtherStep(c: Config, s: Sys, a: Action, i: nat)
    requires Unowned(s, i) && !EndsRun(a) && a != Recover
    ensures Unowned(Step(c, s, a), i) && Step(c, s, a).runs[i] == s.runs[i]
  {
    if a.StartRun? {
    } else {
      RunsFrame(c, s, a);
      OwnedStep(c, s, a);
    }
  }

  lemma OwnedStep(c: Config, s: Sys, a: Action)
    requires !a.StartRun?
    ensures Owned(Step(c, s, a).pc) ==> Owned(s.pc)
  {
  }

  lemma UnownedStep(c: Config, s: Sys, a: Action, i: nat)
    requires Unowned(s, i)
    ensures Unowned(Step(c, s, a), i)
    ensures Step(c, s, a).runs[i] == if Closes(s, a) then Shut(s.runs[i]) else s.runs[i]
  {
    if EndsRun(a) {
      EndStep(c, s, a, i);
    } else if a == Recover {
      RecoverStep(c, s, i);
    } else {
      OtherStep(c, s, a, i);
    }
  }

  /** Some restart of the history found the pipeline RUNNING and recovered it. */
  predicate Recovers(c: Config, s: Sys, acts: seq<Action>) {
    acts != []
    && (Recovers(c, s, acts[..|acts| - 1]) || Closes(Exec(c, s, acts[..|acts| - 1]), Last(acts)))
  }

  /** A run that no process executes stays open exactly until such a restart, and is FAILED from then on. */
  lemma {:induction false} OpenUntilRecovery(c: Config, s: Sys, acts: seq<Action>, i: nat)
    requires Unowned(s, i) && s.runs[i].status == RunRunning
    ensures Unowned(Exec(c, s, acts), i)
    ensures Exec(c, s, acts).runs[i] == if Recovers(c, s, acts) then s.runs[i].(status := RunFailed) else s.runs[i]
  {
    if acts != [] {
      var before := acts[..|acts| - 1];
      OpenUntilRecovery(c, s, before, i);
      UnownedStep(c, Exec(c, s, before), Last(acts), i);
    }
  }

  predicate Calls(acts: seq<Action>) {
    forall i :: 0 <= i < |acts| ==> acts[i] in {ApiRun, ApiPause}
  }

  lemma {:induction false} CallsKeepRuns(c: Config, s: Sys, acts: seq<Action>)
    requires Calls(acts)
    ensures Exec(c, s, acts) == s.(status := Exec(c, s, acts).status)
  {
    if acts != [] {
      CallsKeepRuns(c, s, acts[..|acts| - 1]);
    }
  }

  /**
   * One restart: a run left open survives it, with API calls between listing and
   * updating, if and only if the pipeline was not found RUNNING.
   */
  lemma OpenAfterRestart(c: Config, s: Sys, calls: seq<Action>, i: nat)
    requires s.pc.Down? && i < |s.runs| && s.runs[i].status == RunRunning && Calls(calls)
    ensures var s' := Exec(c, s, ([Restart] + calls) + [Recover]);
      && s'.pc == Idle && |s'.runs| == |s.runs|
      && s'.runs[i] == if s.status == RUNNING then s.runs[i].(status := RunFailed) else s.runs[i]
  {
    var listed := s.(pc := Recovering(s.status == RUNNING));
    var called := Exec(c, listed, calls);
    Lists(c, s);
    CallsKeepRuns(c, listed, calls);
    ExecOne(c, s, Restart);
    ExecAppend(c, s, [Restart], calls);
    ExecSnoc(c, s, [Restart] + calls, Recover);
    Recovered(c, called, i);
  }

  lemma Lists(c: Config, s: Sys)
    requires s.pc.Down?
    ensures Step(c, s, Restart) == s.(pc := Recovering(s.status == RUNNING))
  {
  }

  lemma Recovered(c: Config, s: Sys, i: nat)
    requires s.pc.Recovering? && i < |s.runs|
    ensures var s' := Step(c, s, Recover);
      s'.pc == Idle && |s'.runs| == |s.runs| && s'.runs[i] == if s.pc.stuck then Shut(s.runs[i]) else s.runs[i]
  {
    RecoverStep(c, s, i);
  }

  // ---------- Such runs exist ----------

  lemma PausedCrash(c: Config, s: Sys)
    requires s.status == RUNNING && s.pc.Body? && s.pend == CLEAN
    ensures Exec(c, s, [ApiPause] + [Crash]) == s.(status := PAUSE_REQUESTED, pc := Down)
  {
    ExecTwo(c, s, ApiPause, Crash);
  }

  lemma PausedRestart(c: Config, s: Sys)
    requires s.status == PAUSE_REQUESTED && s.pc.Down?
    ensures Exec(c, s, [Restart] + [Recover]) == s.(pc := Idle)
  {
    ExecTwo(c, s, Restart, Recover);
  }

  lemma PausedTick(c: Config, s: Sys)
    requires s.status == PAUSE_REQUESTED && s.pc.Idle? && s.pend == CLEAN && c.enabled
    ensures var s' := Exec(c, s, [Tick] + [DispatchPause]);
      s'.status == PAUSED && s'.pc == Idle && s'.runs == s.runs
  {
    ExecTwo(c, s, Tick, DispatchPause);
  }

  lemma PauseHides(c: Config, s: Sys)
    requires s.status == RUNNING && s.pc.Body? && s.pend == CLEAN && c.enabled
    ensures exists acts :: var s' := Exec(c, s, acts); s'.status == PAUSED && s'.pc.Idle? && s'.runs == s.runs
  {
    var crash, restart, tick := [ApiPause] + [Crash], [Restart] + [Recover], [Tick] + [DispatchPause];
    PausedCrash(c, s);
    PausedRestart(c, Exec(c, s, crash));
    ExecAppend(c, s, crash, restart);
    PausedTick(c, Exec(c, s, crash + restart));
    ExecAppend(c, s, crash + restart, tick);
  }

  /**
   * A pause request during a batch hides the pipeline from recovery: a crash then
   * leaves its run RUNNING although the pipeline is PAUSED in the end and no
   * process runs it.
   */
  lemma StaleRunSurvivesRecovery(c: Config, s0: Sys)
    requires Initial(s0) && s0.pc.Idle? && s0.status == RUN_REQUESTED && c.enabled
    ensures exists acts :: var s := Exec(c, s0, acts);
      s.status == PAUSED && s.pc.Idle? && s.runs == s0.runs + [Run(RunRunning, 0, 0)]
  {
    OpensRun(c, s0, 1);
    PauseHides(c, Exec(c, s0, Opening(1)));
    var hiding :| var s := Exec(c, Exec(c, s0, Opening(1)), hiding);
      s.status == PAUSED && s.pc.Idle? && s.runs == s0.runs + [Run(RunRunning, 0, 0)];
    ExecAppend(c, s0, Opening(1), hiding);
  }
}
