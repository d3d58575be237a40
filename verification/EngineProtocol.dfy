/** What every step of the engine keeps: where an open transaction can exist, and who can be RUNNING. */
module EngineProtocol {
  import opened Rows
  import opened Sinks
  import opened Status
  import opened Engine

  /** The part of the session that the current point of the loop allows. */
  ghost predicate SessionOk(c: Config, s: Sys) {
    match s.pc
    case Failing(_, _) => true
    case Body(_, _, AtMark(_, _, _, b)) =>
      s.pend == Overlay(if c.es then map[] else Written(c.out, b), None, [])
    case Body(_, _, AtSave(k, _, _, b)) =>
      b != [] && Last(b).ts.Some? && k == Some(KeyOf(Last(b))) &&
      s.pend == Overlay(if c.es then map[] else Written(c.out, b), k, b)
    case _ => s.pend == CLEAN
  }

  /** Until a batch is committed the cursor is the committed checkpoint. */
  ghost predicate CursorOk(s: Sys) {
    match s.pc
    case Body(n, _, AtFetch(k, _, _)) => k == s.ckpt && n >= 1
    case Body(n, _, AtWrite(k, _, _, b)) => k == s.ckpt && b != []  && n >= 1
    case Body(n, _, AtMark(k, _, _, b)) => k == s.ckpt && b != []  && n >= 1
    case Body(n, _, AtCheck(k, _, _)) => k == s.ckpt && n >= 1
    case Body(n, _, _) => n >= 1
    case Starting(n, _) => n >= 1
    case Failing(n, _) => n >= 1
    case RolledBack(n, _) => n >= 1
    case Retrying(n, _) => n >= 1
    case Settling(n, _, _) => n >= 1
    case Closing(n, _, _) => n >= 1
    case _ => true
  }

  /** After a pause exit the pipeline is not RUNNING, whatever the API did meanwhile. */
  ghost predicate PauseOk(s: Sys) {
    match s.pc
    case Body(_, _, AtPause(_, _)) => s.status != RUNNING
    case Body(_, _, AtDone(_, _, drained)) => drained || s.status != RUNNING
    case Settling(_, _, drained) => drained || s.status != RUNNING
    case Closing(_, _, drained) => drained || s.status != RUNNING
    case _ => true
  }

  ghost predicate Proto(c: Config, s: Sys) {
    SessionOk(c, s) && CursorOk(s) && PauseOk(s)
  }

  lemma CommitClean(s: Sys)
    requires s.pend == CLEAN
    ensures Commit(s) == s
  {
    assert s.sink + map[] == s.sink;
    assert s.applied + [] == s.applied;
    if s.landed != [] {
      assert Last(s.landed) + [] == Last(s.landed);
      assert s.landed[|s.landed| - 1 := Last(s.landed)] == s.landed;
    }
  }

  lemma ChangesGrow(c: Config, s: Sys, a: Action)
    ensures s.changes <= Step(c, s, a).changes
  {
  }

  predicate IsSave(c: Config, s: Sys, a: Action) {
    a.Save? && Enabled(c, s, a)
  }

  lemma CommitFrameInLoop(c: Config, s: Sys, a: Action)
    requires InLoop(a)
    requires SessionOk(c, s) && !IsSave(c, s, a)
    ensures var s' := Step(c, s, a);
      && s'.ckpt == s.ckpt && s'.applied == s.applied
      && (a.StartRun? || s'.landed == s.landed)
      && (a.InsertRow? || a.TouchRow? || (s'.source == s.source && s'.changes == s.changes))
  {
    if Enabled(c, s, a) && s.pend == CLEAN {
      CommitClean(s);
      match a {
        case Pause =>
        case FinishRun =>
        case _ =>
      }
    }
  }

  lemma CommitFrameElsewhere(c: Config, s: Sys, a: Action)
    requires !InLoop(a)
    requires SessionOk(c, s) && !IsSave(c, s, a)
    ensures var s' := Step(c, s, a);
      && s'.ckpt == s.ckpt && s'.applied == s.applied
      && (a.StartRun? || s'.landed == s.landed)
      && (a.InsertRow? || a.TouchRow? || (s'.source == s.source && s'.changes == s.changes))
  {
    if Enabled(c, s, a) && s.pend == CLEAN {
      CommitClean(s);
      match a {
        case DispatchPause =>
        case DispatchClaim =>
        case StartRun =>
        case Close =>
        case RecordFailure =>
        case GiveUp =>
        case Recover =>
        case _ =>
      }
    }
  }

  /** Only the commit of a batch publishes anything; every other commit finds a clean session. */
  lemma CommitFrame(c: Config, s: Sys, a: Action)
    requires SessionOk(c, s) && !IsSave(c, s, a)
    ensures var s' := Step(c, s, a);
      && s'.ckpt == s.ckpt && s'.applied == s.applied
      && (a.StartRun? || s'.landed == s.landed)
      && (a.InsertRow? || a.TouchRow? || (s'.source == s.source && s'.changes == s.changes))
  {
    if InLoop(a) {
      CommitFrameInLoop(c, s, a);
    } else {
      CommitFrameElsewhere(c, s, a);
    }
  }

  lemma SinkFrameInLoop(c: Config, s: Sys, a: Action)
    requires InLoop(a)
    requires SessionOk(c, s) && !IsSave(c, s, a)
    requires c.es ==> !a.BulkPart? && !a.WriteBatch?
    ensures Step(c, s, a).sink == s.sink
  {
    if Enabled(c, s, a) && s.pend == CLEAN {
      CommitClean(s);
      match a {
        case Pause =>
        case FinishRun =>
        case _ =>
      }
    }
  }

  lemma SinkFrameElsewhere(c: Config, s: Sys, a: Action)
    requires !InLoop(a)
    requires SessionOk(c, s) && !IsSave(c, s, a)
    requires c.es ==> !a.BulkPart? && !a.WriteBatch?
    ensures Step(c, s, a).sink == s.sink
  {
    if Enabled(c, s, a) && s.pend == CLEAN {
      CommitClean(s);
      match a {
        case DispatchPause =>
        case DispatchClaim =>
        case StartRun =>
        case Close =>
        case RecordFailure =>
        case GiveUp =>
        case Recover =>
        case _ =>
      }
    }
  }

  lemma SinkFrame(c: Config, s: Sys, a: Action)
    requires SessionOk(c, s) && !IsSave(c, s, a)
    requires c.es ==> !a.BulkPart? && !a.WriteBatch?
    ensures Step(c, s, a).sink == s.sink
  {
    if InLoop(a) {
      SinkFrameInLoop(c, s, a);
    } else {
      SinkFrameElsewhere(c, s, a);
    }
  }

  lemma SessionInLoop(c: Config, s: Sys, a: Action)
    requires InLoop(a)
    requires SessionOk(c, s)
    ensures SessionOk(c, Step(c, s, a))
  {
    if Enabled(c, s, a) {
      match a
      case WriteBatch => assert map[] + Written(c.out, s.pc.at.batch) == Written(c.out, s.pc.at.batch);
      case Save =>
      case FinishRun =>
      case _ =>
    }
  }

  lemma SessionElsewhere(c: Config, s: Sys, a: Action)
    requires !InLoop(a)
    requires SessionOk(c, s)
    ensures SessionOk(c, Step(c, s, a))
  {
    if Enabled(c, s, a) {
      match a
      case RecordFailure =>
      case _ =>
    }
  }

  lemma SessionStep(c: Config, s: Sys, a: Action)
    requires SessionOk(c, s)
    ensures SessionOk(c, Step(c, s, a))
  {
    if InLoop(a) {
      SessionInLoop(c, s, a);
    } else {
      SessionElsewhere(c, s, a);
    }
  }

  lemma CursorInLoop(c: Config, s: Sys, a: Action)
    requires InLoop(a)
    requires SessionOk(c, s) && CursorOk(s)
    ensures CursorOk(Step(c, s, a))
  {
  }

  lemma CursorElsewhere(c: Config, s: Sys, a: Action)
    requires !InLoop(a)
    requires SessionOk(c, s) && CursorOk(s)
    ensures CursorOk(Step(c, s, a))
  {
  }

  lemma CursorStep(c: Config, s: Sys, a: Action)
    requires SessionOk(c, s) && CursorOk(s)
    ensures CursorOk(Step(c, s, a))
  {
    if InLoop(a) {
      CursorInLoop(c, s, a);
    } else {
      CursorElsewhere(c, s, a);
    }
  }

  lemma PauseOkInLoop(c: Config, s: Sys, a: Action)
    requires InLoop(a)
    requires PauseOk(s)
    ensures PauseOk(Step(c, s, a))
  {
  }

  lemma PauseOkElsewhere(c: Config, s: Sys, a: Action)
    requires !InLoop(a)
    requires PauseOk(s)
    ensures PauseOk(Step(c, s, a))
  {
  }

  lemma PauseStep(c: Config, s: Sys, a: Action)
    requires PauseOk(s)
    ensures PauseOk(Step(c, s, a))
  {
    if InLoop(a) {
      PauseOkInLoop(c, s, a);
    } else {
      PauseOkElsewhere(c, s, a);
    }
  }

  lemma ProtoStep(c: Config, s: Sys, a: Action)
    requires Proto(c, s)
    ensures Proto(c, Step(c, s, a))
  {
    SessionStep(c, s, a);
    CursorStep(c, s, a);
    PauseStep(c, s, a);
  }

  lemma {:induction false} ProtoAlways(c: Config, s: Sys, acts: seq<Action>)
    requires Initial(s)
    ensures Proto(c, Exec(c, s, acts))
  {
    if acts != [] {
      ProtoAlways(c, s, acts[..|acts| - 1]);
      ProtoStep(c, Exec(c, s, acts[..|acts| - 1]), Last(acts));
    }
  }
}
