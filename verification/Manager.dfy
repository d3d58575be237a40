/** The manager's tick over several pipelines of one runner process. */
module Manager {
  import opened Rows
  import opened Status
  import opened Engine
  import opened Orchestration
  import S = Store

  /** A pipeline as the manager sees it. */
  datatype Slot = Slot(st: S.Store, plan: Plan, batchSize: nat)

  /** The pipeline's store is sound and the runner is at this position with it. */
  ghost predicate Rests(slot: Slot, pc: Pc)
    reads slot.st
  {
    slot.st.Valid() && slot.st.sys.pc == pc
    && slot.st.cfg.out == OutputOf(slot.plan) && slot.st.cfg.maxAttempts >= 1
  }

  predicate Separate(slots: seq<Slot>) {
    forall i, j :: 0 <= i < j < |slots| ==> slots[i].st != slots[j].st
  }

  function Stores(slots: seq<Slot>): set<S.Store> {
    set i | 0 <= i < |slots| :: slots[i].st
  }

  /** Exactly the enabled pipelines with a pending request are listed. */
  ghost predicate Listable(slot: Slot, observed: Option<Status>)
    reads slot.st
  {
    if observed.Some? then slot.st.cfg.enabled && observed.value in {RUN_REQUESTED, PAUSE_REQUESTED}
    else slot.st.cfg.enabled ==> slot.st.status !in {RUN_REQUESTED, PAUSE_REQUESTED}
  }

  /** Where the runner is with a pipeline between listing and dispatching it. */
  function Listed(observed: Option<Status>): Pc {
    if observed.Some? then Seen(observed.value) else Idle
  }

  /** The exceptions that a tick does not isolate: a lost connection ends the tick, a crash the process. */
  predicate Aborts(d: Option<Dispatched>) {
    d.Some? && d.value.error.Some? && !d.value.error.value.Ordinary?
  }

  /** Nothing has been executed for the pipeline yet. */
  ghost predicate Undispatched(slot: Slot, was: Snap)
    reads slot.st
  {
    slot.st.runs == was.runs && slot.st.faults == was.faults && slot.st.sizes == was.sizes
  }

  /** Not yet listed. */
  ghost predicate Fresh(slot: Slot, was: Snap)
    reads slot.st
  {
    Rests(slot, Idle) && Undispatched(slot, was)
  }

  /** Listed or passed over, and not yet dispatched. */
  ghost predicate Pending(slot: Slot, observed: Option<Status>, was: Snap)
    reads slot.st
  {
    Rests(slot, Listed(observed)) && Listable(slot, observed) && Undispatched(slot, was)
  }

  /** What a tick did with one pipeline: dispatched exactly if listed. */
  ghost predicate Outcome(slot: Slot, observed: Option<Status>, was: Snap, d: Option<Dispatched>, backoff: seq<real>)
    requires backoff != []
    reads slot.st
  {
    && (d.Some? <==> observed.Some?) && Rests(slot, if Died(d) then Down else Idle)
    && Ticked(slot.st.cfg, was, Now(slot.st), slot.batchSize, d, backoff)
    && (d.Some? ==> LeftAlone(slot.st, observed.value, d.value))
    && (d.Some? && d.value.finished ==> Complete(slot.st))
  }

  method ObserveSlot(slot: Slot, ghost was: Snap) returns (observed: Option<Status>)
    requires Fresh(slot, was)
    modifies slot.st
    ensures Pending(slot, observed, was)
  {
    observed := slot.st.ObserveActive();
  }

  /** get_active: every pipeline is looked at once, before any is dispatched. */
  method Observe(slots: seq<Slot>, ghost was: seq<Snap>) returns (observed: seq<Option<Status>>)
    requires Separate(slots) && |was| == |slots|
    requires forall i :: 0 <= i < |slots| ==> Fresh(slots[i], was[i])
    modifies Stores(slots)
    ensures |observed| == |slots|
    ensures forall i :: 0 <= i < |slots| ==> Pending(slots[i], observed[i], was[i])
  {
    observed := [];
    for i := 0 to |slots|
      invariant |observed| == i
      invariant forall k :: 0 <= k < i ==> Pending(slots[k], observed[k], was[k])
      invariant forall k :: i <= k < |slots| ==> Fresh(slots[k], was[k])
    {
      var o := ObserveSlot(slots[i], was[i]);
      observed := observed + [o];
    }
  }

  /** Dispatch of one listed pipeline; the exception that leaves it is caught by the tick, or ends it. */
  method DispatchSlot(slot: Slot, observed: Option<Status>, backoff: seq<real>, ghost was: Snap)
    returns (d: Option<Dispatched>)
    requires Pending(slot, observed, was) && backoff != []
    modifies slot.st
    ensures Outcome(slot, observed, was, d, backoff)
  {
    if observed.None? {
      return None;
    }
    var dispatched := Dispatch(slot.st, observed.value, slot.plan, slot.batchSize, backoff);
    d := Some(dispatched);
  }

  /** The first pipelines have been dispatched with these outcomes, the others are pending. */
  ghost predicate Halfway(slots: seq<Slot>, observed: seq<Option<Status>>, was: seq<Snap>,
                          log: seq<Option<Dispatched>>, backoff: seq<real>)
    requires backoff != [] && |observed| == |slots| == |was|
    reads Stores(slots)
  {
    && |log| <= |slots|
    && (forall i :: 0 <= i < |log| ==> Outcome(slots[i], observed[i], was[i], log[i], backoff))
    && (forall i :: |log| <= i < |slots| ==> Pending(slots[i], observed[i], was[i]))
  }

  /** The next pipeline; the others are not touched. */
  method DispatchNext(slots: seq<Slot>, observed: seq<Option<Status>>, backoff: seq<real>, ghost was: seq<Snap>,
                      log: seq<Option<Dispatched>>)
    returns (d: Option<Dispatched>)
    requires Separate(slots) && |observed| == |slots| == |was| && backoff != [] && |log| < |slots|
    requires Halfway(slots, observed, was, log, backoff)
    modifies Stores(slots)
    ensures Halfway(slots, observed, was, log + [d], backoff)
  {
    var i := |log|;
    assert Pending(slots[i], observed[i], was[i]);
    d := DispatchSlot(slots[i], observed[i], backoff, was[i]);
    forall k | 0 <= k < i ensures Outcome(slots[k], observed[k], was[k], log[k], backoff) {
      assert slots[k].st != slots[i].st;
    }
    forall k | i < k < |slots| ensures Pending(slots[k], observed[k], was[k]) {
      assert slots[i].st != slots[k].st;
    }
  }

  /** A crash, or a connection lost outside of an execution: only these end a tick early. */
  ghost predicate EndsTick(slot: Slot, was: Snap, d: Option<Dispatched>)
    reads slot.st
  {
    && Aborts(d)
    && (d.value.error == Some(S.Crashed)
        || (S.LostLast(slot.st.hist) && (d.value.gaveUp || slot.st.sizes == was.sizes)))
  }

  lemma AbortEndsTick(slot: Slot, observed: Option<Status>, was: Snap, d: Option<Dispatched>, backoff: seq<real>)
    requires backoff != [] && Outcome(slot, observed, was, d, backoff) && Aborts(d)
    ensures EndsTick(slot, was, d)
  {
    assert Isolated(was, Now(slot.st), slot.batchSize, d.value);
  }

  /** The loop of the tick; a lost connection or a crash leaves it. */
  method DispatchAll(slots: seq<Slot>, observed: seq<Option<Status>>, backoff: seq<real>, ghost was: seq<Snap>)
    returns (log: seq<Option<Dispatched>>)
    requires Separate(slots) && |observed| == |slots| == |was| && backoff != []
    requires forall i :: 0 <= i < |slots| ==> Pending(slots[i], observed[i], was[i])
    modifies Stores(slots)
    ensures Halfway(slots, observed, was, log, backoff)
    ensures forall i :: 0 <= i < |log| - 1 ==> !Aborts(log[i])
    ensures |log| < |slots| ==> log != [] && Aborts(Last(log))
  {
    log := [];
    while |log| < |slots|
      invariant Halfway(slots, observed, was, log, backoff)
      invariant forall k :: 0 <= k < |log| ==> !Aborts(log[k])
    {
      var d := DispatchNext(slots, observed, backoff, was, log);
      log := log + [d];
      if Aborts(d) {
        return;
      }
    }
  }

  method CountFound(observed: seq<Option<Status>>) returns (found: nat)
    ensures found == |set i | 0 <= i < |observed| && observed[i].Some?|
  {
    found := 0;
    for k := 0 to |observed|
      invariant found == |set i | 0 <= i < k && observed[i].Some?|
    {
      ghost var before := set i | 0 <= i < k && observed[i].Some?;
      ghost var after := set i | 0 <= i < k + 1 && observed[i].Some?;
      assert after == if observed[k].Some? then before + {k} else before;
      if observed[k].Some? {
        found := found + 1;
      }
    }
  }

  /** Dispatches that returned without an exception. */
  predicate Returns(d: Option<Dispatched>) {
    d.Some? && d.value.error.None?
  }

  method CountProcessed(log: seq<Option<Dispatched>>) returns (processed: nat)
    ensures processed == |set i | 0 <= i < |log| && log[i].Some? && log[i].value.error.None?|
  {
    processed := 0;
    for k := 0 to |log|
      invariant processed == |set i | 0 <= i < k && Returns(log[i])|
    {
      ghost var before := set i | 0 <= i < k && Returns(log[i]);
      ghost var after := set i | 0 <= i < k + 1 && Returns(log[i]);
      assert after == if Returns(log[k]) then before + {k} else before;
      if log[k].Some? && log[k].value.error.None? {
        processed := processed + 1;
      }
    }
    assert (set i | 0 <= i < |log| && Returns(log[i]))
        == (set i | 0 <= i < |log| && log[i].Some? && log[i].value.error.None?);
  }

  /**
   * One tick.  An exception of one pipeline does not keep the others from their
   * dispatch, nor does a connection lost while it executes: only a connection lost before
   * or after that, or a crash, ends the tick early, and then the pipelines after it keep
   * their runs.
   */
  method Tick(slots: seq<Slot>, backoff: seq<real>, ghost was: seq<Snap>)
    returns (observed: seq<Option<Status>>, log: seq<Option<Dispatched>>, found: nat, processed: nat)
    requires Separate(slots) && |was| == |slots| && backoff != []
    requires forall i :: 0 <= i < |slots| ==> Fresh(slots[i], was[i])
    modifies Stores(slots)
    ensures |observed| == |slots| && Halfway(slots, observed, was, log, backoff)
    ensures forall i :: 0 <= i < |log| - 1 ==> !Aborts(log[i])
    ensures |log| < |slots| ==> log != [] && EndsTick(slots[|log| - 1], was[|log| - 1], Last(log))
    ensures found == |set i | 0 <= i < |observed| && observed[i].Some?|
    ensures processed == |set i | 0 <= i < |log| && log[i].Some? && log[i].value.error.None?|
  {
    observed := Observe(slots, was);
    log := DispatchAll(slots, observed, backoff, was);
    if |log| < |slots| {
      AbortEndsTick(slots[|log| - 1], observed[|log| - 1], was[|log| - 1], Last(log), backoff);
    }
    found := CountFound(observed);
    processed := CountProcessed(log);
  }
}
