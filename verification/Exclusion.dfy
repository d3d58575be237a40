/**
 * Several runner processes over one pipeline.  The atomic claim alone does not
 * keep two of them from executing at once; these are the exact conditions.
 */
module Exclusion {
  import opened Status

  /** The status and the runners that are executing the pipeline. */
  datatype World = World(status: Status, busy: set<nat>)

  /** Process `who` issues a guarded update, or leaves its execution without one (pause exit, disconnect, crash). */
  datatype Move = Issue(e: Event, who: nat) | Leave(who: nat)

  /** A runner that executes does not claim; only one that executes finishes or fails. */
  predicate Possible(w: World, m: Move) {
    match m
    case Leave(_) => true
    case Issue(Claim, r) => r !in w.busy
    case Issue(Finish, r) => r in w.busy
    case Issue(Fail, r) => r in w.busy
    case Issue(_, _) => true
  }

  /** A matched claim begins an execution; a matched Finish or Fail is its last await. */
  function Play(w: World, m: Move): World {
    if !Possible(w, m) then w else
    match m
    case Leave(r) => w.(busy := w.busy - {r})
    case Issue(e, r) =>
      World(Cas(e, w.status),
            if !Guard(e, w.status) then w.busy
            else if e == Claim then w.busy + {r}
            else if e == Finish || e == Fail then w.busy - {r}
            else w.busy)
  }

  function PlayAll(w: World, ms: seq<Move>): World {
    if ms == [] then w else Play(PlayAll(w, ms[..|ms| - 1]), ms[|ms| - 1])
  }

  /** At most one runner executes. */
  ghost predicate Exclusive(w: World) {
    |w.busy| <= 1
  }

  /** At most one runner executes, and while it does the status is one that only its own moves finish. */
  ghost predicate Guarded(w: World) {
    Exclusive(w) && (w.busy != {} ==> w.status in {RUNNING, PAUSE_REQUESTED, PAUSED})
  }

  /** An execution is re-armed: a run request finds it PAUSE_REQUESTED or PAUSED, or a restart re-queues it. */
  predicate Rearms(w: World, m: Move) {
    && w.busy != {} && m.Issue?
    && ((m.e == RequestRun && w.status in {PAUSE_REQUESTED, PAUSED}) || (m.e == Requeue && w.status == RUNNING))
  }

  /** The design's promise fails: pause and run again while runner 1 executes, and runner 2 claims. */
  lemma TwoRunnersExecute()
    ensures var w := PlayAll(World(RUN_REQUESTED, {}),
                             [Issue(Claim, 1), Issue(RequestPause, 0), Issue(RequestRun, 0), Issue(Claim, 2)]);
      w.busy == {1, 2} && !Exclusive(w)
  {
    var m1, m2, m3, m4 := Issue(Claim, 1), Issue(RequestPause, 0), Issue(RequestRun, 0), Issue(Claim, 2);
    assert [m1, m2, m3, m4][..3] == [m1, m2, m3];
    assert [m1, m2, m3][..2] == [m1, m2];
    assert [m1, m2][..1] == [m1];
    assert [m1][..0] == [];
    var w0 := World(RUN_REQUESTED, {});
    assert PlayAll(w0, [m1]) == World(RUNNING, {1});
    assert PlayAll(w0, [m1, m2]) == World(PAUSE_REQUESTED, {1});
    assert PlayAll(w0, [m1, m2, m3]) == World(RUN_REQUESTED, {1});
    assert 1 in {1, 2} && {1, 2} - {1} == {2};
  }

  /**
   * An ordinary rerun does not: whoever requests it and whoever claims it, once the one
   * executing runner has finished, the next one executes alone.
   */
  lemma RerunIsExclusive(w: World, done: nat, api: nat, next: nat)
    requires w.status == RUNNING && w.busy == {done}
    ensures var w' := PlayAll(w, [Issue(Finish, done), Issue(RequestRun, api), Issue(Claim, next)]);
      w' == World(RUNNING, {next}) && Guarded(w')
  {
    var m1, m2, m3 := Issue(Finish, done), Issue(RequestRun, api), Issue(Claim, next);
    assert [m1, m2, m3][..2] == [m1, m2];
    assert [m1, m2][..1] == [m1];
    assert [m1][..0] == [];
    assert PlayAll(w, [m1]) == World(IDLE, {});
    assert PlayAll(w, [m1, m2]) == World(RUN_REQUESTED, {});
    BusySize({}, next);
  }

  lemma BusySize(busy: set<nat>, r: nat)
    ensures |busy - {r}| <= |busy|
    ensures busy == {} ==> |busy + {r}| == 1
    ensures busy != {} && r !in busy ==> |busy + {r}| >= 2
    ensures |busy| <= 1 && r in busy ==> busy - {r} == {}
  {
    if busy != {} && r !in busy {
      var x :| x in busy;
      assert {x} <= busy && |busy - {x}| + 1 == |busy|;
    }
    if r in busy { assert |busy - {r}| + 1 == |busy|; } else { assert busy - {r} == busy; }
  }

  /** Step by step: exclusion stays guarded exactly when the move does not re-arm an execution. */
  lemma GuardedStep(w: World, m: Move)
    requires Guarded(w)
    ensures Guarded(Play(w, m)) <==> !Rearms(w, m)
  {
    BusySize(w.busy, m.who);
  }

  /** Once an execution is re-armed, any other runner's claim makes two execute. */
  lemma RearmedOverlaps(w: World, m: Move, r: nat)
    requires Guarded(w) && Rearms(w, m) && r !in w.busy
    ensures !Exclusive(Play(Play(w, m), Issue(Claim, r)))
  {
    BusySize(w.busy, r);
  }

  /** No move of the history re-arms an execution. */
  predicate Calm(w: World, ms: seq<Move>) {
    ms == [] || (Calm(w, ms[..|ms| - 1]) && !Rearms(PlayAll(w, ms[..|ms| - 1]), ms[|ms| - 1]))
  }

  /** Exclusive now, and whoever claims next. */
  ghost predicate Safe(w: World) {
    Exclusive(w) && forall r :: Exclusive(Play(w, Issue(Claim, r)))
  }

  lemma GuardedIsSafe(w: World)
    requires Guarded(w)
    ensures Safe(w)
  {
    forall r ensures Exclusive(Play(w, Issue(Claim, r))) {
      BusySize(w.busy, r);
    }
  }

  lemma RearmedIsUnsafe(w: World, m: Move)
    requires Guarded(w) && Rearms(w, m)
    ensures !Safe(Play(w, m))
  {
    var next := Unused(w.busy);
    RearmedOverlaps(w, m, next);
  }

  lemma Unused(busy: set<nat>) returns (r: nat)
    requires |busy| <= 1
    ensures r !in busy
  {
    if 0 in busy && 1 in busy { Larger({0, 1}, busy); }
    r := if 0 in busy then 1 else 0;
  }

  lemma Larger(a: set<nat>, b: set<nat>)
    requires a <= b
    ensures |a| <= |b|
  {
    assert b == a + (b - a);
  }

  lemma {:induction false} CalmIsGuarded(w: World, ms: seq<Move>)
    requires Guarded(w) && Calm(w, ms)
    ensures Guarded(PlayAll(w, ms))
  {
    if ms != [] {
      CalmIsGuarded(w, ms[..|ms| - 1]);
      GuardedStep(PlayAll(w, ms[..|ms| - 1]), ms[|ms| - 1]);
    }
  }

  lemma {:induction false} CalmPrefix(w: World, ms: seq<Move>, k: nat)
    requires Calm(w, ms) && k <= |ms|
    ensures Calm(w, ms[..k])
  {
    if k < |ms| {
      var front := ms[..|ms| - 1];
      CalmPrefix(w, front, k);
      assert front[..k] == ms[..k];
    } else {
      assert ms[..k] == ms;
    }
  }

  /** A history that is not calm has a first move that re-arms an execution. */
  lemma {:induction false} FirstRearm(w: World, ms: seq<Move>) returns (k: nat)
    requires !Calm(w, ms)
    ensures k < |ms| && Calm(w, ms[..k]) && Rearms(PlayAll(w, ms[..k]), ms[k])
    ensures PlayAll(w, ms[..k + 1]) == Play(PlayAll(w, ms[..k]), ms[k])
  {
    var front := ms[..|ms| - 1];
    if Calm(w, front) {
      k := |ms| - 1;
      assert ms[..k + 1] == ms;
    } else {
      k := FirstRearm(w, front);
      assert front[..k] == ms[..k] && front[..k + 1] == ms[..k + 1];
    }
  }

  /**
   * Mutual exclusion over whole histories, for any number of runners: at every moment at
   * most one runner executes, also after any further claim, if and only if no move
   * re-arms an execution.
   */
  lemma CalmHistoriesAreExclusive(w: World, ms: seq<Move>)
    requires Guarded(w)
    ensures Calm(w, ms) <==> forall k :: 0 <= k <= |ms| ==> Safe(PlayAll(w, ms[..k]))
  {
    if Calm(w, ms) {
      forall k | 0 <= k <= |ms| ensures Safe(PlayAll(w, ms[..k])) {
        CalmPrefix(w, ms, k);
        CalmIsGuarded(w, ms[..k]);
        GuardedIsSafe(PlayAll(w, ms[..k]));
      }
    } else {
      var k := FirstRearm(w, ms);
      CalmIsGuarded(w, ms[..k]);
      RearmedIsUnsafe(PlayAll(w, ms[..k]), ms[k]);
    }
  }

  // ---------- Whose execution is finished ----------

  /** The runner that left at a pause finalises the execution of another one. */
  lemma PausedRunnerFinishesAnother()
    ensures var w := PlayAll(World(RUN_REQUESTED, {}),
                             [Issue(Claim, 1), Issue(RequestPause, 0), Issue(ApplyPause, 1), Issue(RequestRun, 0),
                              Issue(Claim, 2), Issue(Finish, 1)]);
      w == World(IDLE, {2})
  {
    var m1, m2, m3 := Issue(Claim, 1), Issue(RequestPause, 0), Issue(ApplyPause, 1);
    var m4, m5, m6 := Issue(RequestRun, 0), Issue(Claim, 2), Issue(Finish, 1);
    assert [m1, m2, m3, m4, m5, m6][..5] == [m1, m2, m3, m4, m5];
    assert [m1, m2, m3, m4, m5][..4] == [m1, m2, m3, m4];
    assert [m1, m2, m3, m4][..3] == [m1, m2, m3];
    assert [m1, m2, m3][..2] == [m1, m2];
    assert [m1, m2][..1] == [m1];
    assert [m1][..0] == [];
    var w0 := World(RUN_REQUESTED, {});
    assert PlayAll(w0, [m1]) == World(RUNNING, {1});
    assert PlayAll(w0, [m1, m2]) == World(PAUSE_REQUESTED, {1});
    assert PlayAll(w0, [m1, m2, m3]) == World(PAUSED, {1});
    assert PlayAll(w0, [m1, m2, m3, m4]) == World(RUN_REQUESTED, {1});
    assert PlayAll(w0, [m1, m2, m3, m4, m5]) == World(RUNNING, {1, 2});
    assert {1, 2} - {1} == {2};
  }

  /** A finalisation that is accepted although another runner executes. */
  predicate FinishesAnother(w: World, m: Move) {
    m.Issue? && m.e == Finish && Possible(w, m) && Guard(Finish, w.status) && w.busy - {m.who} != {}
  }

  /** As long as no move re-arms an execution, a finish is always the runner's own. */
  lemma CalmFinishesAreOwn(w: World, ms: seq<Move>, m: Move)
    requires Guarded(w) && Calm(w, ms)
    ensures !FinishesAnother(PlayAll(w, ms), m)
  {
    CalmIsGuarded(w, ms);
    if m.Issue? {
      BusySize(PlayAll(w, ms).busy, m.who);
    }
  }

  /** At one moment: an accepted finish is another's exactly when two execute. */
  lemma FinishesAnotherExactly(w: World, r: nat)
    requires w.status == RUNNING && r in w.busy
    ensures FinishesAnother(w, Issue(Finish, r)) <==> !Exclusive(w)
  {
    BusySize(w.busy, r);
    assert |w.busy - {r}| + 1 == |w.busy|;
    if |w.busy - {r}| > 0 { var x :| x in w.busy - {r}; }
  }

  /** Whoever claims next and whoever finishes then, it is that runner's own execution. */
  ghost predicate FinishesOwn(w: World) {
    forall r, x :: !FinishesAnother(Play(w, Issue(Claim, r)), Issue(Finish, x))
  }

  lemma GuardedFinishesOwn(w: World)
    requires Guarded(w)
    ensures FinishesOwn(w)
  {
    forall r, x ensures !FinishesAnother(Play(w, Issue(Claim, r)), Issue(Finish, x)) {
      GuardedStep(w, Issue(Claim, r));
      BusySize(Play(w, Issue(Claim, r)).busy, x);
    }
  }

  /** After a re-arming move and a claim by another runner the first one finishes the other's execution. */
  lemma RearmedFinishesAnother(w: World, m: Move, first: nat, next: nat)
    requires Guarded(w) && Rearms(w, m) && first in w.busy && next !in w.busy
    ensures FinishesAnother(Play(Play(w, m), Issue(Claim, next)), Issue(Finish, first))
  {
    RearmedOverlaps(w, m, next);
    FinishesAnotherExactly(Play(Play(w, m), Issue(Claim, next)), first);
  }

  /**
   * Over whole histories: every finish, also after a further claim, is that of the
   * runner's own execution alone if and only if no move re-arms an execution.
   */
  lemma FinishesOwnExactly(w: World, ms: seq<Move>)
    requires Guarded(w)
    ensures Calm(w, ms) <==> forall k :: 0 <= k <= |ms| ==> FinishesOwn(PlayAll(w, ms[..k]))
  {
    if Calm(w, ms) {
      forall k | 0 <= k <= |ms| ensures FinishesOwn(PlayAll(w, ms[..k])) {
        CalmPrefix(w, ms, k);
        CalmIsGuarded(w, ms[..k]);
        GuardedFinishesOwn(PlayAll(w, ms[..k]));
      }
    } else {
      var k := FirstRearm(w, ms);
      var w' := PlayAll(w, ms[..k]);
      CalmIsGuarded(w, ms[..k]);
      var first :| first in w'.busy;
      var next := Unused(w'.busy);
      RearmedFinishesAnother(w', ms[k], first, next);
      assert !FinishesOwn(PlayAll(w, ms[..k + 1]));
    }
  }
}
