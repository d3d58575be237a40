/** API requests against one runner: what the engine does to the status, and that requests are not lost. */
module EngineRequests {
  import opened Rows
  import opened Status
  import opened Engine

  datatype Update = Untouched | Update(e: Event)

  /** The guarded update that an action issues. */
  function Issues(c: Config, s: Sys, a: Action): Update {
    if !Enabled(c, s, a) then Untouched else
    match a
    case ApiRun => Update(RequestRun)
    case ApiPause => Update(RequestPause)
    case DispatchPause => Update(ApplyPause)
    case DispatchClaim => Update(Claim)
    case Pause => Update(ApplyPause)
    case Close => Update(Finish)
    case GiveUp => if s.pc.GivingUp? then Update(Fail) else Untouched
    case Recover => if s.pc.stuck then Update(Requeue) else Untouched
    case _ => Untouched
  }

  lemma IssuesStep(c: Config, s: Sys, a: Action)
    ensures Step(c, s, a).status
         == match Issues(c, s, a) case Untouched => s.status case Update(e) => Cas(e, s.status)
  {
  }

  /** The status events of a history. */
  function Events(c: Config, s: Sys, acts: seq<Action>): seq<Event> {
    if acts == [] then []
    else Events(c, s, acts[..|acts| - 1])
         + match Issues(c, Exec(c, s, acts[..|acts| - 1]), Last(acts))
           case Untouched => []
           case Update(e) => [e]
  }

  /** The engine moves the status only through the guarded updates. */
  lemma {:induction false} StatusIsEventHistory(c: Config, s: Sys, acts: seq<Action>)
    ensures Exec(c, s, acts).status == After(s.status, Events(c, s, acts))
  {
    if acts != [] {
      var before := acts[..|acts| - 1];
      StatusIsEventHistory(c, s, before);
      IssuesStep(c, Exec(c, s, before), Last(acts));
      var es, u := Events(c, s, before), Issues(c, Exec(c, s, before), Last(acts));
      if u.Update? {
        assert (es + [u.e])[..|es + [u.e]| - 1] == es;
      } else {
        assert es + [] == es;
      }
    }
  }

  /** Claims are conserved in every history of the engine. */
  lemma EngineClaimConservation(c: Config, s: Sys, acts: seq<Action>)
    ensures var es := Events(c, s, acts);
      Accepted(Claim, s.status, es) + Withdrawn(s.status, es) + Pending(Exec(c, s, acts).status)
      == Pending(s.status) + Accepted(RequestRun, s.status, es) + Accepted(Requeue, s.status, es)
  {
    StatusIsEventHistory(c, s, acts);
    ClaimConservation(s.status, Events(c, s, acts));
  }

  /** A failed pipeline stays failed, whatever the API and the runner do. */
  lemma FailedIsAbsorbing(c: Config, s: Sys, acts: seq<Action>)
    requires s.status == FAILED
    ensures Exec(c, s, acts).status == FAILED
  {
    StatusIsEventHistory(c, s, acts);
    FailedIsFinal(s.status, Events(c, s, acts));
  }

  predicate Without(acts: seq<Action>, a: Action) {
    forall i :: 0 <= i < |acts| ==> acts[i] != a
  }

  /** Without a tick that lists a run request, nothing is claimed. */
  lemma {:induction false} NoClaimBeforeTick(c: Config, s: Sys, acts: seq<Action>)
    requires s.pc != Seen(RUN_REQUESTED) && Without(acts, Tick)
    ensures Exec(c, s, acts).pc != Seen(RUN_REQUESTED) && Lacks(Events(c, s, acts), Claim)
  {
    if acts != [] {
      var before := acts[..|acts| - 1];
      NoClaimBeforeTick(c, s, before);
      SeenOnlyByTick(c, Exec(c, s, before), Last(acts));
      ClaimedWhenSeen(c, Exec(c, s, before), Last(acts));
    }
  }

  lemma SeenOnlyByTick(c: Config, s: Sys, a: Action)
    requires s.pc != Seen(RUN_REQUESTED) && a != Tick
    ensures Step(c, s, a).pc != Seen(RUN_REQUESTED)
  {
  }

  lemma ClaimedWhenSeen(c: Config, s: Sys, a: Action)
    ensures Issues(c, s, a) == Update(Claim) ==> s.pc == Seen(RUN_REQUESTED)
  {
  }

  lemma {:induction false} EventsComeFromCalls(c: Config, s: Sys, acts: seq<Action>)
    ensures Without(acts, ApiRun) ==> Lacks(Events(c, s, acts), RequestRun)
    ensures Without(acts, ApiPause) ==> Lacks(Events(c, s, acts), RequestPause)
    ensures Without(acts, GiveUp) ==> Lacks(Events(c, s, acts), Fail)
  {
    if acts != [] {
      var before := acts[..|acts| - 1];
      EventsComeFromCalls(c, s, before);
      IssuedBy(c, Exec(c, s, before), Last(acts));
    }
  }

  lemma IssuedBy(c: Config, s: Sys, a: Action)
    ensures Issues(c, s, a) == Update(RequestRun) ==> a == ApiRun
    ensures Issues(c, s, a) == Update(RequestPause) ==> a == ApiPause
    ensures Issues(c, s, a) == Update(Fail) ==> a == GiveUp
  {
  }

  lemma TickClaims(c: Config, s: Sys)
    requires s.pc.Idle? && s.status == RUN_REQUESTED
    ensures Step(c, Step(c, s, Tick), DispatchClaim).status == RUNNING <==> c.enabled
  {
  }

  lemma TickPauses(c: Config, s: Sys)
    requires s.pc.Idle? && s.status == PAUSE_REQUESTED
    ensures Step(c, Step(c, s, Tick), DispatchPause).status == PAUSED <==> c.enabled
  {
  }

  /**
   * A run request accepted during an execution, also between the check and the
   * apply of a pause or between the listing of a pause request and its apply,
   * survives whatever comes next (success, failure, disconnect, crash and restart)
   * unless a later pause request withdraws it; and the next tick of an idle runner
   * claims it exactly when the pipeline is enabled.
   */
  lemma RunRequestSurvives(c: Config, s: Sys, acts: seq<Action>)
    requires s.status == RUN_REQUESTED && s.pc != Seen(RUN_REQUESTED)
    requires Without(acts, Tick) && Without(acts, ApiPause)
    ensures var s' := Exec(c, s, acts);
      && s'.status == RUN_REQUESTED
      && (s'.pc.Idle? ==> (Step(c, Step(c, s', Tick), DispatchClaim).status == RUNNING <==> c.enabled))
  {
    NoClaimBeforeTick(c, s, acts);
    EventsComeFromCalls(c, s, acts);
    StatusIsEventHistory(c, s, acts);
    RunRequestStays(Events(c, s, acts));
    if Exec(c, s, acts).pc.Idle? {
      TickClaims(c, Exec(c, s, acts));
    }
  }

  /**
   * A pause request accepted during an execution is still there or has been
   * applied at the end, unless a later run request or a permanent failure
   * consumed it; and an idle runner's next tick applies it exactly when the
   * pipeline is enabled.
   */
  lemma PauseRequestSurvives(c: Config, s: Sys, acts: seq<Action>)
    requires s.status == PAUSE_REQUESTED
    requires Without(acts, ApiRun) && Without(acts, GiveUp)
    ensures var s' := Exec(c, s, acts);
      && (s'.status == PAUSE_REQUESTED || s'.status == PAUSED)
      && (s'.pc.Idle? && s'.status == PAUSE_REQUESTED ==>
            (Step(c, Step(c, s', Tick), DispatchPause).status == PAUSED <==> c.enabled))
  {
    EventsComeFromCalls(c, s, acts);
    StatusIsEventHistory(c, s, acts);
    PauseRequestStays(Events(c, s, acts));
    if Exec(c, s, acts).pc.Idle? && Exec(c, s, acts).status == PAUSE_REQUESTED {
      TickPauses(c, Exec(c, s, acts));
    }
  }

  lemma PauseIsAccepted(c: Config, s: Sys)
    requires s.status != FAILED && s.status != PAUSED
    ensures Step(c, s, ApiPause) == s.(status := PAUSE_REQUESTED)
  {
  }

  lemma PauseIsListed(c: Config, s: Sys)
    requires s.pc.Idle? && s.status == PAUSE_REQUESTED && c.enabled
    ensures var s' := Step(c, Step(c, s, Tick), DispatchPause);
      s'.status == PAUSED && s'.pc == Idle && s'.runs == s.runs && s'.source == s.source
  {
  }

  /**
   * A pause request is accepted in every status but FAILED and PAUSED, IDLE included, and
   * the next tick of an idle, enabled runner pauses the pipeline without executing it.
   */
  lemma PauseTakesEffect(c: Config, s: Sys)
    requires s.pc.Idle? && s.status != FAILED && s.status != PAUSED && c.enabled
    ensures var s' := Exec(c, s, [ApiPause] + ([Tick] + [DispatchPause]));
      s'.status == PAUSED && s'.pc == Idle && s'.runs == s.runs && s'.source == s.source
  {
    PauseIsAccepted(c, s);
    ExecOne(c, s, ApiPause);
    PauseIsListed(c, Step(c, s, ApiPause));
    ExecTwo(c, Step(c, s, ApiPause), Tick, DispatchPause);
    ExecAppend(c, s, [ApiPause], [Tick] + [DispatchPause]);
  }
}
