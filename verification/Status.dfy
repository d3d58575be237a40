/**
 * The pipeline status and its guarded updates.  Every transition is one
 * UPDATE ... WHERE status IN (...), so it is atomic against all others.
 */
module Status {

  datatype Status = IDLE | RUN_REQUESTED | RUNNING | PAUSE_REQUESTED | PAUSED | FAILED

  datatype RunStatus = RunRunning | RunSuccess | RunFailed

  datatype Event =
    | RequestRun | RequestPause          // API side
    | Claim | ApplyPause | Finish | Fail // runner side
    | Requeue                            // startup recovery

  /** The guard of each UPDATE. */
  predicate Guard(e: Event, st: Status) {
    match e
    case RequestRun => st in {IDLE, PAUSED, PAUSE_REQUESTED}
    case RequestPause => st in {RUNNING, RUN_REQUESTED, IDLE}
    case Claim => st == RUN_REQUESTED
    case ApplyPause => st == PAUSE_REQUESTED
    case Finish => st == RUNNING
    case Fail => st in {RUNNING, PAUSE_REQUESTED}
    case Requeue => st == RUNNING
  }

  function Target(e: Event): Status {
    match e
    case RequestRun => RUN_REQUESTED
    case RequestPause => PAUSE_REQUESTED
    case Claim => RUNNING
    case ApplyPause => PAUSED
    case Finish => IDLE
    case Fail => FAILED
    case Requeue => RUN_REQUESTED
  }

  /** Compare-and-set: the update applies exactly when its guard holds. */
  function Cas(e: Event, st: Status): Status {
    if Guard(e, st) then Target(e) else st
  }

  function After(st: Status, es: seq<Event>): Status {
    if es == [] then st else Cas(es[|es| - 1], After(st, es[..|es| - 1]))
  }

  lemma AfterSnoc(st: Status, es: seq<Event>, e: Event)
    ensures After(st, es + [e]) == Cas(e, After(st, es))
  {
    assert (es + [e])[..|es + [e]| - 1] == es;
  }

  // ---------- Claims, for any number of runners ----------

  /** How often an event's UPDATE matched over a history. */
  function Accepted(e: Event, st: Status, es: seq<Event>): nat {
    if es == [] then 0
    else Accepted(e, st, es[..|es| - 1])
         + if es[|es| - 1] == e && Guard(e, After(st, es[..|es| - 1])) then 1 else 0
  }

  /** How many accepted pause requests withdrew a pending run request. */
  function Withdrawn(st: Status, es: seq<Event>): nat {
    if es == [] then 0
    else Withdrawn(st, es[..|es| - 1])
         + if es[|es| - 1] == RequestPause && After(st, es[..|es| - 1]) == RUN_REQUESTED then 1 else 0
  }

  function Pending(st: Status): nat {
    if st == RUN_REQUESTED then 1 else 0
  }

  /**
   * Claim conservation: over every interleaving of API calls and any number of
   * runners, claims, withdrawals and the request still pending add up to the
   * requests: each accepted request is claimed at most once.
   */
  lemma {:induction false} ClaimConservation(st: Status, es: seq<Event>)
    ensures Accepted(Claim, st, es) + Withdrawn(st, es) + Pending(After(st, es))
         == Pending(st) + Accepted(RequestRun, st, es) + Accepted(Requeue, st, es)
  {
    if es != [] {
      ClaimConservation(st, es[..|es| - 1]);
    }
  }

  /** FAILED is left by no event. */
  lemma {:induction false} FailedIsFinal(st: Status, es: seq<Event>)
    requires st == FAILED
    ensures After(st, es) == FAILED
  {
    if es != [] {
      FailedIsFinal(st, es[..|es| - 1]);
    }
  }

  predicate Lacks(es: seq<Event>, e: Event) {
    forall i :: 0 <= i < |es| ==> es[i] != e
  }

  /** A run request is consumed only by a claim or an accepted pause request. */
  lemma {:induction false} RunRequestStays(es: seq<Event>)
    requires Lacks(es, Claim) && Lacks(es, RequestPause)
    ensures After(RUN_REQUESTED, es) == RUN_REQUESTED
  {
    if es != [] {
      RunRequestStays(es[..|es| - 1]);
    }
  }

  /** A pause request is consumed only by an accepted run request or a permanent failure. */
  lemma {:induction false} PauseRequestStays(es: seq<Event>)
    requires Lacks(es, RequestRun) && Lacks(es, Fail)
    ensures After(PAUSE_REQUESTED, es) == if Lacks(es, ApplyPause) then PAUSE_REQUESTED else PAUSED
  {
    if es != [] {
      PauseRequestStays(es[..|es| - 1]);
      assert Lacks(es, ApplyPause) <==> Lacks(es[..|es| - 1], ApplyPause) && es[|es| - 1] != ApplyPause;
    }
  }
}
