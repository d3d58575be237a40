/**
 * Transforms cannot affect the cursor.  Erasing everything a transform produces
 * (sink contents, pending writes, counts of written rows) turns any history into
 * a history of one fixed engine without transforms.
 */
module EngineTwin {
  import opened Rows
  import opened Sinks
  import opened Status
  import opened Engine

  /** The engine whose transform drops every row. */
  function Blank(c: Config): Config {
    Config(Nothing, false, c.maxAttempts, c.enabled)
  }

  function Nothing(rows: seq<Row>): seq<Item> {
    []
  }

  lemma NothingPlusNothing()
    ensures var none: Sink := map[]; none + none == none
  {
  }

  function EraseRun(r: Run): Run {
    r.(written := 0)
  }

  function EraseRuns(runs: seq<Run>): seq<Run> {
    seq(|runs|, i requires 0 <= i < |runs| => EraseRun(runs[i]))
  }

  function ErasePoint(p: Point): Point {
    match p
    case AtLoad => AtLoad
    case AtFetch(k, read, _) => AtFetch(k, read, 0)
    case AtWrite(k, read, _, b) => AtWrite(k, read, 0, b)
    case AtMark(k, read, _, b) => AtMark(k, read, 0, b)
    case AtSave(k, read, _, b) => AtSave(k, read, 0, b)
    case AtCheck(k, read, _) => AtCheck(k, read, 0)
    case AtPause(read, _) => AtPause(read, 0)
    case AtDone(read, _, drained) => AtDone(read, 0, drained)
  }

  function ErasePc(pc: Pc): Pc {
    if pc.Body? then pc.(at := ErasePoint(pc.at)) else pc
  }

  /** Everything but the output: status, source, checkpoint, reads, positions, committed rows. */
  function Erase(s: Sys): Sys {
    s.(sink := map[], pend := s.pend.(writes := map[]), runs := EraseRuns(s.runs), pc := ErasePc(s.pc))
  }

  /** A partial bulk shows in the sink only. */
  function Mute(a: Action): Action {
    if a.BulkPart? then BulkPart(map[]) else a
  }

  function MuteAll(acts: seq<Action>): seq<Action> {
    seq(|acts|, i requires 0 <= i < |acts| => Mute(acts[i]))
  }

  lemma BlankWrites(c: Config, rows: seq<Row>)
    ensures Blank(c).out(rows) == [] && Written(Blank(c).out, rows) == map[]
  {
  }

  lemma EraseCommit(s: Sys)
    ensures Erase(Commit(s)) == Commit(Erase(s))
  {
    NothingPlusNothing();
  }

  lemma EraseEnabled(c: Config, s: Sys, a: Action)
    requires !a.BulkPart?
    ensures Enabled(c, s, a) <==> Enabled(Blank(c), Erase(s), a)
  {
  }

  lemma EraseGuarded(s: Sys, e: Event)
    ensures Erase(Guarded(s, e)) == Guarded(Erase(s), e)
  {
    EraseCommit(s.(status := Target(e)));
  }

  lemma EraseEndRun(s: Sys, r: Run)
    ensures Erase(EndRun(s, r)) == EndRun(Erase(s), EraseRun(r))
  {
    if s.runs == [] {
      EraseCommit(s);
    } else {
      EraseCommit(s.(runs := s.runs[|s.runs| - 1 := r]));
      assert EraseRuns(s.runs[|s.runs| - 1 := r]) == EraseRuns(s.runs)[|s.runs| - 1 := EraseRun(r)];
    }
  }

  predicate OnStatus(a: Action) {
    a.DispatchPause? || a.DispatchClaim? || a.Pause? || a.Close? || a.GiveUp?
  }

  predicate OnRuns(a: Action) {
    a.StartRun? || a.FinishRun? || a.RecordFailure? || a.Recover?
  }

  predicate OnBatch(a: Action) {
    a.Load? || a.Fetch? || a.Mark? || a.Check?
  }

  lemma ErasePause(c: Config, s: Sys)
    requires Enabled(c, s, Pause) && Enabled(Blank(c), Erase(s), Pause)
    ensures Erase(Next(c, s, Pause)) == Next(Blank(c), Erase(s), Pause)
  {
    EraseGuarded(s, ApplyPause);
  }

  lemma EraseDispatch(c: Config, s: Sys, a: Action)
    requires (a.DispatchPause? || a.DispatchClaim?) && Enabled(c, s, a) && Enabled(Blank(c), Erase(s), a)
    ensures Erase(Next(c, s, a)) == Next(Blank(c), Erase(s), a)
  {
    EraseGuarded(s, if a.DispatchClaim? then Claim else ApplyPause);
  }

  lemma EraseEnding(c: Config, s: Sys, a: Action)
    requires (a.Close? || a.GiveUp?) && Enabled(c, s, a) && Enabled(Blank(c), Erase(s), a)
    ensures Erase(Next(c, s, a)) == Next(Blank(c), Erase(s), a)
  {
    EraseGuarded(s, if a.Close? then Finish else Fail);
  }

  lemma EraseOnStatus(c: Config, s: Sys, a: Action)
    requires OnStatus(a) && Enabled(c, s, a) && Enabled(Blank(c), Erase(s), a)
    ensures Erase(Next(c, s, a)) == Next(Blank(c), Erase(s), a)
  {
    if a == Pause {
      ErasePause(c, s);
    } else if a == DispatchPause || a == DispatchClaim {
      EraseDispatch(c, s, a);
    } else {
      EraseEnding(c, s, a);
    }
  }

  lemma EraseStartRun(c: Config, s: Sys)
    requires Enabled(c, s, StartRun) && Enabled(Blank(c), Erase(s), StartRun)
    ensures Erase(Next(c, s, StartRun)) == Next(Blank(c), Erase(s), StartRun)
  {
    EraseCommit(s);
    assert EraseRuns(s.runs + [Run(RunRunning, 0, 0)]) == EraseRuns(s.runs) + [Run(RunRunning, 0, 0)];
  }

  lemma EraseFinished(c: Config, s: Sys, a: Action)
    requires (a.FinishRun? || a.RecordFailure?) && Enabled(c, s, a) && Enabled(Blank(c), Erase(s), a)
    ensures Erase(Next(c, s, a)) == Next(Blank(c), Erase(s), a)
  {
    EraseEndRun(s, if a.FinishRun? then Run(RunSuccess, s.pc.at.read, s.pc.at.written) else FailedRun(s.runs));
  }

  lemma EraseRecover(c: Config, s: Sys)
    requires Enabled(c, s, Recover) && Enabled(Blank(c), Erase(s), Recover)
    ensures Erase(Next(c, s, Recover)) == Next(Blank(c), Erase(s), Recover)
  {
    assert EraseRuns(FailRunning(s.runs)) == FailRunning(EraseRuns(s.runs));
    EraseCommit(s.(runs := FailRunning(s.runs), status := Cas(Requeue, s.status)));
  }

  lemma EraseOnBatch(c: Config, s: Sys, a: Action)
    requires OnBatch(a) && Enabled(c, s, a) && Enabled(Blank(c), Erase(s), a)
    ensures Erase(Next(c, s, a)) == Next(Blank(c), Erase(s), a)
  {
  }

  lemma EraseWrite(c: Config, s: Sys)
    requires Enabled(c, s, WriteBatch) && Enabled(Blank(c), Erase(s), WriteBatch)
    ensures Erase(Next(c, s, WriteBatch)) == Next(Blank(c), Erase(s), WriteBatch)
  {
    BlankWrites(c, s.pc.at.batch);
    NothingPlusNothing();
  }

  lemma EraseSave(c: Config, s: Sys)
    requires Enabled(c, s, Save) && Enabled(Blank(c), Erase(s), Save)
    ensures Erase(Next(c, s, Save)) == Next(Blank(c), Erase(s), Save)
  {
    EraseCommit(s);
  }

  lemma EraseRest(c: Config, s: Sys, a: Action)
    requires !OnStatus(a) && !OnRuns(a) && !OnBatch(a) && !a.WriteBatch? && !a.Save? && !a.BulkPart?
    requires Enabled(c, s, a) && Enabled(Blank(c), Erase(s), a)
    ensures Erase(Next(c, s, a)) == Next(Blank(c), Erase(s), a)
  {
  }

  lemma EraseNext(c: Config, s: Sys, a: Action)
    requires !a.BulkPart? && Enabled(c, s, a)
    ensures Enabled(Blank(c), Erase(s), a)
    ensures Erase(Next(c, s, a)) == Next(Blank(c), Erase(s), a)
  {
    EraseEnabled(c, s, a);
    if OnStatus(a) {
      EraseOnStatus(c, s, a);
    } else if OnBatch(a) {
      EraseOnBatch(c, s, a);
    } else if a.WriteBatch? {
      EraseWrite(c, s);
    } else if a.Save? {
      EraseSave(c, s);
    } else if a.StartRun? {
      EraseStartRun(c, s);
    } else if a.Recover? {
      EraseRecover(c, s);
    } else if OnRuns(a) {
      EraseFinished(c, s, a);
    } else {
      EraseRest(c, s, a);
    }
  }

  lemma EraseStep(c: Config, s: Sys, a: Action)
    ensures Erase(Step(c, s, a)) == Step(Blank(c), Erase(s), Mute(a))
  {
    if a.BulkPart? {
      NothingPlusNothing();
    } else {
      EraseEnabled(c, s, a);
      if Enabled(c, s, a) {
        EraseNext(c, s, a);
      }
    }
  }

  lemma {:induction false} EraseExec(c: Config, s: Sys, acts: seq<Action>)
    ensures Erase(Exec(c, s, acts)) == Exec(Blank(c), Erase(s), MuteAll(acts))
  {
    if acts != [] {
      var before := acts[..|acts| - 1];
      EraseExec(c, s, before);
      EraseStep(c, Exec(c, s, before), Last(acts));
      assert MuteAll(acts)[..|acts| - 1] == MuteAll(before);
    }
  }

  /**
   * Two runs of the same history under any two transforms, and any two sinks,
   * commit the same checkpoints and report the same rows read, at every moment.
   */
  lemma TransformsCannotAffectTheCursor(c1: Config, c2: Config, s: Sys, acts: seq<Action>)
    requires c1.maxAttempts == c2.maxAttempts && c1.enabled == c2.enabled
    ensures var s1, s2 := Exec(c1, s, acts), Exec(c2, s, acts);
      && s1.ckpt == s2.ckpt && s1.applied == s2.applied && s1.status == s2.status
      && |s1.runs| == |s2.runs|
      && forall i :: 0 <= i < |s1.runs| ==>
           s1.runs[i].read == s2.runs[i].read && s1.runs[i].status == s2.runs[i].status
  {
    EraseExec(c1, s, acts);
    EraseExec(c2, s, acts);
    assert Blank(c1) == Blank(c2);
    var s1, s2 := Exec(c1, s, acts), Exec(c2, s, acts);
    assert |EraseRuns(s1.runs)| == |EraseRuns(s2.runs)|;
    forall i | 0 <= i < |s1.runs| ensures
      s1.runs[i].read == s2.runs[i].read && s1.runs[i].status == s2.runs[i].status
    {
      assert EraseRuns(s1.runs)[i] == EraseRuns(s2.runs)[i];
    }
  }
}
