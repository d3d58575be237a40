/**
 * The database, the runner's session and the repositories, updated in place.
 * Every method is one await: API calls may come first, then the call happens or
 * an exception, a lost connection or a crash takes its place.  The ghost fields
 * record the history as a run of the engine.
 */
module Store {
  import opened Rows
  import opened Keyset
  import opened Sinks
  import opened Writers
  import opened Status
  import opened Engine
  import opened EngineProtocol

  /** An exception: ordinary, a database disconnect, or the death of the process. */
  datatype Exn = Ordinary | Disconnected | Crashed

  datatype Result<+T> = Ok(value: T) | Raise(exn: Exn) {
    predicate IsFailure() {
      Raise?
    }

    function PropagateFailure<U>(): Result<U>
      requires Raise?
    {
      Raise(exn)
    }

    function Extract(): T
      requires Ok?
    {
      value
    }
  }

  function AfterRaise(pc: Pc): Pc {
    match pc
    case Body(n, k, _) => Failing(n, k)
    case Starting(n, k) => Retrying(n, k)
    case RolledBack(n, k) => Retrying(n, k)
    case Settling(n, k, _) => Retrying(n, k)
    case Closing(n, k, _) => Retrying(n, k)
    case _ => Idle
  }

  /** Where an exception leaves the runner. */
  function FaultPc(pc: Pc, e: Exn): Pc {
    match e
    case Ordinary => AfterRaise(pc)
    case Disconnected => Idle
    case Crashed => Down
  }

  /** Only an ordinary exception in the body of a run is no fault. */
  function FaultCount(pc: Pc, e: Exn): nat {
    if e.Ordinary? && pc.Body? then 0 else 1
  }

  /** An ordinary exception leaves the transaction open; the others lose it. */
  function AfterFault(s: Sys, e: Exn): Sys {
    s.(pend := if e.Ordinary? then s.pend else CLEAN, pc := FaultPc(s.pc, e))
  }

  predicate CanRaise(pc: Pc) {
    pc.Body? || pc.Seen? || pc.Claimed? || pc.Starting? || pc.RolledBack? || pc.Settling? || pc.Closing?
    || pc.GivingUp?
  }

  lemma LostStep(c: Config, s: Sys)
    requires CanRaise(s.pc)
    ensures Step(c, s, Disconnect) == AfterFault(s, Disconnected)
    ensures Step(c, s, Crash) == AfterFault(s, Crashed)
  {
  }

  lemma RaiseStep(c: Config, s: Sys)
    requires CanRaise(s.pc)
    ensures s.pc.Body? ==> Step(c, s, RaiseInBody) == AfterFault(s, Ordinary)
    ensures !s.pc.Body? ==> Step(c, s, RaiseOutside) == AfterFault(s, Ordinary)
  {
  }

  function FaultAction(pc: Pc, e: Exn): Action {
    match e
    case Ordinary => if pc.Body? then RaiseInBody else RaiseOutside
    case Disconnected => Disconnect
    case Crashed => Crash
  }

  lemma FaultStep(c: Config, s: Sys, e: Exn)
    requires CanRaise(s.pc)
    ensures Step(c, s, FaultAction(s.pc, e)) == AfterFault(s, e)
  {
    if e.Ordinary? { RaiseStep(c, s); } else { LostStep(c, s); }
  }

  /** Failures that do not arise in the body of a run. */
  predicate IsFault(a: Action) {
    a.RaiseOutside? || a.Disconnect? || a.Crash?
  }

  lemma FaultKind(pc: Pc, e: Exn)
    ensures var a := FaultAction(pc, e);
      !a.Snapshot? && (IsFault(a) <==> !e.Ordinary? || !pc.Body?) && (a == Disconnect <==> e.Disconnected?)
  {
  }

  /** Of a history: how many outside failures it has, and the batch sizes that its snapshots froze. */
  datatype Tally = Tally(faults: nat, sizes: seq<nat>)

  function Noted(t: Tally, a: Action): Tally {
    Tally(t.faults + (if IsFault(a) then 1 else 0), if a.Snapshot? then t.sizes + [a.n] else t.sizes)
  }

  function TallyOf(acts: seq<Action>): Tally {
    if acts == [] then Tally(0, []) else Noted(TallyOf(acts[..|acts| - 1]), Last(acts))
  }

  lemma TallySnoc(acts: seq<Action>, a: Action)
    ensures TallyOf(acts + [a]) == Noted(TallyOf(acts), a)
  {
    assert (acts + [a])[..|acts + [a]| - 1] == acts;
  }

  /** This history leads from one state to the other, with this tally. */
  ghost predicate Reaches(c: Config, s0: Sys, hist: seq<Action>, s: Sys, t: Tally) {
    Initial(s0) && s == Exec(c, s0, hist) && t == TallyOf(hist)
  }

  lemma ReachesNext(c: Config, s0: Sys, hist: seq<Action>, s: Sys, t: Tally, a: Action)
    requires Reaches(c, s0, hist, s, t)
    ensures Reaches(c, s0, hist + [a], Step(c, s, a), Noted(t, a))
  {
    ExecSnoc(c, s0, hist, a);
    TallySnoc(hist, a);
  }

  /** The last thing that happened was the loss of the connection. */
  predicate LostLast(acts: seq<Action>) {
    acts != [] && Last(acts) == Disconnect
  }

  /** An index takes the cells at once, a table only with the transaction. */
  function AfterWrite(es: bool, sink: Sink, pending: Sink, cells: Sink): (Sink, Sink) {
    if es then (sink + cells, pending) else (sink, pending + cells)
  }

  class Store {
    const cfg: Config
    const source: seq<Row>

    // committed
    var status: Status
    var lastValue: Option<int>
    var lastId: Option<int>
    var sink: Sink
    var runs: seq<Run>

    // the session's open transaction
    var pendWrites: Sink
    var pendMark: Option<Key>

    ghost const init: Sys
    ghost var hist: seq<Action>
    ghost var sys: Sys
    ghost var seen: Status
    ghost var faults: nat
    ghost var sizes: seq<nat>
    /** How often an await raised, a record was refused or a tail row had no key. */
    ghost var troubles: nat

    /** The fields hold this state of the engine. */
    ghost predicate Mirrors(s: Sys)
      reads this
    {
      match s
      case Sys(rows, st, ckpt, cells, rs, Overlay(writes, mark, _), _, _, _, changes) =>
        && rows == source && changes == 0
        && st == status && cells == sink && rs == runs && writes == pendWrites && mark == pendMark
        && lastValue == (if ckpt.Some? then Some(ckpt.value.ts) else None)
        && lastId == (if ckpt.Some? then Some(ckpt.value.id) else None)
    }

    ghost predicate Recorded()
      reads this
    {
      source == init.source && Reaches(cfg, init, hist, sys, Tally(faults, sizes))
    }

    ghost predicate Valid()
      reads this
    {
      Recorded() && Mirrors(sys)
    }

    /** An exception came instead of the call. */
    ghost predicate Stopped(pc: Pc, faultsBefore: nat, e: Exn)
      reads this
    {
      sys.pc == FaultPc(pc, e) && faults == faultsBefore + FaultCount(pc, e)
    }

    constructor (cfg: Config, source: seq<Row>, status: Status, ckpt: Option<Key>, sink: Sink, runs: seq<Run>)
      requires Distinct(source)
      ensures Valid() && sys == init && sys.pc == Down && sys.ckpt == ckpt && hist == []
      ensures this.cfg == cfg && this.source == source && this.status == status
      ensures this.sink == sink && this.runs == runs
    {
      this.cfg, this.source, this.status, this.sink, this.runs := cfg, source, status, sink, runs;
      this.lastValue := if ckpt.Some? then Some(ckpt.value.ts) else None;
      this.lastId := if ckpt.Some? then Some(ckpt.value.id) else None;
      this.pendWrites, this.pendMark := map[], None;
      var start := Sys(source, status, ckpt, sink, runs, CLEAN, Down, [], seq(|runs|, i => []), 0);
      this.init, this.sys, this.hist, this.faults, this.sizes, this.troubles := start, start, [], 0, [], 0;
    }

    ghost method Advance(a: Action)
      requires Recorded()
      modifies this`sys, this`hist, this`faults, this`sizes
      ensures Recorded() && sys == Step(cfg, old(sys), a) && hist == old(hist) + [a]
      ensures faults == old(faults) + if IsFault(a) then 1 else 0
      ensures sizes == if a.Snapshot? then old(sizes) + [a.n] else old(sizes)
    {
      ReachesNext(cfg, init, hist, sys, Tally(faults, sizes), a);
      sys := Step(cfg, sys, a);
      hist := hist + [a];
      faults := faults + if IsFault(a) then 1 else 0;
      sizes := sizes + if a.Snapshot? then [a.n] else [];
    }

    ghost method AdvanceTo(a: Action, s: Sys)
      requires Recorded() && Step(cfg, sys, a) == s && !a.Snapshot?
      modifies this`sys, this`hist, this`faults, this`sizes
      ensures sizes == old(sizes)
      ensures Recorded() && sys == s && hist == old(hist) + [a]
      ensures faults == old(faults) + if IsFault(a) then 1 else 0
    {
      Advance(a);
    }

    /** The guarded update that an action stands for, at the position where it happens. */
    ghost predicate Stands(pc: Pc, a: Action, e: Event) {
      match a
      case DispatchClaim => pc == Seen(RUN_REQUESTED) && e == Claim
      case DispatchPause => pc == Seen(PAUSE_REQUESTED) && e == ApplyPause
      case Pause => pc.Body? && pc.at.AtPause? && e == ApplyPause
      case Close => pc.Closing? && e == Finish
      case GiveUp => pc.GivingUp? && e == Fail
      case _ => false
    }

    ghost function AfterUpdate(pc: Pc, a: Action, updated: bool): Pc {
      match a
      case DispatchClaim => if updated then Claimed else Idle
      case Pause => if pc.Body? && pc.at.AtPause? then pc.(at := AtDone(pc.at.read, pc.at.written, false)) else pc
      case _ => Idle
    }

    ghost method AdvanceUpdate(a: Action, e: Event)
      requires Recorded() && Stands(sys.pc, a, e)
      modifies this`sys, this`hist, this`faults, this`sizes
      ensures sizes == old(sizes)
      ensures Recorded() && faults == old(faults) && old(hist) <= hist && hist != [] && Last(hist) == a
      ensures sys == Guarded(old(sys), e).(pc := AfterUpdate(old(sys.pc), a, Guard(e, old(sys.status))))
    {
      Advance(a);
      match a {
        case DispatchClaim =>
        case DispatchPause =>
        case Pause =>
        case Close =>
        case GiveUp =>
      }
    }

    ghost method AdvanceFault(e: Exn)
      requires Recorded() && CanRaise(sys.pc)
      modifies this`sys, this`hist, this`faults, this`sizes
      ensures sizes == old(sizes)
      ensures Recorded() && sys == AfterFault(old(sys), e) && old(hist) <= hist
      ensures LostLast(hist) <==> e.Disconnected?
      ensures faults == old(faults) + if e.Ordinary? && old(sys.pc).Body? then 0 else 1
    {
      ghost var a, s := FaultAction(sys.pc, e), AfterFault(sys, e);
      FaultStep(cfg, sys, e);
      FaultKind(sys.pc, e);
      AdvanceTo(a, s);
    }

    ghost method FaultFromFailing(e: Exn)
      requires Recorded() && sys.pc.Failing? && !e.Ordinary?
      modifies this`sys, this`hist, this`faults, this`sizes
      ensures sizes == old(sizes)
      ensures Recorded() && sys == AfterFault(old(sys), e) && faults == old(faults) + 1
    {
      if e.Crashed? { Advance(Crash); } else { Advance(Disconnect); }
    }

    ghost method AdvanceWrite()
      requires Recorded() && sys.pc.Body? && sys.pc.at.AtWrite?
      modifies this`sys, this`hist, this`faults, this`sizes
      ensures sizes == old(sizes)
      ensures Recorded() && faults == old(faults)
      ensures var p, cells := old(sys.pc).at, Effect(cfg.out(old(sys.pc).at.batch));
        sys == (if cfg.es then old(sys).(sink := old(sys).sink + cells)
                else old(sys).(pend := old(sys).pend.(writes := old(sys).pend.writes + cells)))
               .(pc := old(sys.pc).(at := AtMark(p.cursor, p.read, p.written + |cfg.out(p.batch)|, p.batch)))
    {
      Advance(WriteBatch);
    }

    ghost method AdvancePart(m: Sink)
      requires Recorded() && MayApply(cfg, sys, m)
      modifies this`sys, this`hist, this`faults, this`sizes
      ensures sizes == old(sizes)
      ensures Recorded() && faults == old(faults) && sys == old(sys).(sink := old(sys).sink + m)
    {
      Advance(BulkPart(m));
    }

    ghost method AdvanceStart()
      requires Recorded() && sys.pc.Starting?
      modifies this`sys, this`hist, this`faults, this`sizes
      ensures sizes == old(sizes)
      ensures Recorded() && faults == old(faults) && sys == Started(old(sys))
    {
      Advance(Action.StartRun);
    }

    ghost method AdvanceApi(a: Action)
      requires Recorded() && (a.ApiRun? || a.ApiPause?)
      modifies this`sys, this`hist, this`faults, this`sizes
      ensures sizes == old(sizes)
      ensures Recorded() && faults == old(faults) && old(hist) <= hist
      ensures sys == old(sys).(status :=
        Cas(if a.ApiRun? then Event.RequestRun else Event.RequestPause, old(sys).status))
    {
      Advance(a);
    }

    ghost method AdvanceTick()
      requires Recorded() && cfg.enabled && sys.pc.Idle? && sys.status in {RUN_REQUESTED, PAUSE_REQUESTED}
      modifies this`sys, this`hist, this`faults, this`sizes
      ensures sizes == old(sizes)
      ensures Recorded() && faults == old(faults) && sys == old(sys).(pc := Seen(old(sys).status))
    {
      Advance(Tick);
    }

    ghost method AdvanceSettle()
      requires Recorded() && sys.pc.Settling?
      modifies this`sys, this`hist, this`faults, this`sizes
      ensures sizes == old(sizes)
      ensures Recorded() && faults == old(faults)
      ensures sys == old(sys).(pc := if old(sys).status == PAUSED then Idle
                                     else Closing(old(sys).pc.n, old(sys).pc.attempt, old(sys).pc.drained))
    {
      Advance(Settle);
    }

    ghost method AdvanceSnapshot(n: nat)
      requires Recorded() && sys.pc.Claimed? && n >= 1
      modifies this`sys, this`hist, this`faults, this`sizes
      ensures sizes == old(sizes) + [n] && !LostLast(hist)
      ensures Recorded() && faults == old(faults) && sys == old(sys).(pc := Starting(n, 1))
    {
      Advance(Snapshot(n));
    }

    ghost method AdvanceLoad()
      requires Recorded() && sys.pc.Body? && sys.pc.at.AtLoad?
      modifies this`sys, this`hist, this`faults, this`sizes
      ensures sizes == old(sizes)
      ensures Recorded() && faults == old(faults) && sys == At(old(sys), AtFetch(old(sys).ckpt, 0, 0))
    {
      Advance(Load);
    }

    ghost method AdvanceFetch()
      requires Recorded() && sys.pc.Body? && sys.pc.at.AtFetch?
      modifies this`sys, this`hist, this`faults, this`sizes
      ensures sizes == old(sizes)
      ensures Recorded() && faults == old(faults) && sys == Fetched(old(sys))
    {
      Advance(Fetch);
    }

    ghost method AdvanceMark()
      requires Recorded() && MayMark(sys)
      modifies this`sys, this`hist, this`faults, this`sizes
      ensures sizes == old(sizes)
      ensures Recorded() && faults == old(faults) && sys == Marked(old(sys))
    {
      Advance(Mark);
    }

    ghost method AdvanceRestart()
      requires Recorded() && sys.pc.Down?
      modifies this`sys, this`hist, this`faults, this`sizes
      ensures sizes == old(sizes)
      ensures Recorded() && faults == old(faults) && sys == old(sys).(pc := Recovering(old(sys).status == RUNNING))
    {
      Advance(Restart);
    }

    ghost method AdvanceCheck()
      requires Recorded() && sys.pc.Body? && sys.pc.at.AtCheck?
      modifies this`sys, this`hist, this`faults, this`sizes
      ensures sizes == old(sizes)
      ensures Recorded() && faults == old(faults)
      ensures var p := old(sys.pc).at;
        sys == At(old(sys), if old(sys.status) == PAUSE_REQUESTED then AtPause(p.read, p.written)
                            else AtFetch(p.cursor, p.read, p.written))
    {
      Advance(Check);
    }

    ghost method AdvanceSave()
      requires Recorded() && sys.pc.Body? && sys.pc.at.AtSave?
      modifies this`sys, this`hist, this`faults, this`sizes
      ensures sizes == old(sizes)
      ensures Recorded() && faults == old(faults)
      ensures var p := old(sys.pc).at;
        sys == At(Engine.Commit(old(sys)), AtCheck(p.cursor, p.read, p.written))
    {
      Advance(Save);
    }

    ghost method AdvanceRollback()
      requires Recorded() && sys.pc.Failing?
      modifies this`sys, this`hist, this`faults, this`sizes
      ensures sizes == old(sizes)
      ensures Recorded() && faults == old(faults)
      ensures sys == old(sys).(pend := CLEAN, pc := RolledBack(old(sys.pc).n, old(sys.pc).attempt))
    {
      Advance(Rollback);
    }

    ghost method AdvanceAgain()
      requires Recorded() && sys.pc.Retrying? && sys.pc.attempt < cfg.maxAttempts
      modifies this`sys, this`hist, this`faults, this`sizes
      ensures sizes == old(sizes)
      ensures Recorded() && faults == old(faults)
      ensures sys == old(sys).(pc := Starting(old(sys.pc).n, old(sys.pc).attempt + 1))
    {
      Advance(Again);
    }

    ghost method AdvanceExhausted()
      requires Recorded() && sys.pc.Retrying? && sys.pc.attempt >= cfg.maxAttempts
      modifies this`sys, this`hist, this`faults, this`sizes
      ensures sizes == old(sizes)
      ensures Recorded() && faults == old(faults) && sys == old(sys).(pc := GivingUp)
    {
      Advance(Action.GiveUp);
    }

    ghost method AdvanceFinish()
      requires Recorded() && sys.pc.Body? && sys.pc.at.AtDone?
      modifies this`sys, this`hist, this`faults, this`sizes
      ensures sizes == old(sizes)
      ensures Recorded() && faults == old(faults)
      ensures sys == EndRun(old(sys), Run(RunSuccess, old(sys.pc).at.read, old(sys.pc).at.written))
                     .(pc := Settling(old(sys.pc).n, old(sys.pc).attempt, old(sys.pc).at.drained))
    {
      Advance(FinishRun);
    }

    ghost method AdvanceRecord()
      requires Recorded() && sys.pc.RolledBack?
      modifies this`sys, this`hist, this`faults, this`sizes
      ensures sizes == old(sizes)
      ensures Recorded() && faults == old(faults)
      ensures sys == EndRun(old(sys), FailedRun(old(sys).runs)).(pc := Retrying(old(sys.pc).n, old(sys.pc).attempt))
    {
      Advance(RecordFailure);
    }

    ghost method AdvanceRecover()
      requires Recorded() && sys.pc.Recovering?
      modifies this`sys, this`hist, this`faults, this`sizes
      ensures sizes == old(sizes)
      ensures Recorded() && faults == old(faults)
      ensures sys == (if old(sys.pc).stuck
        then Engine.Commit(old(sys).(runs := FailRunning(old(sys).runs), status := Cas(Requeue, old(sys).status)))
        else old(sys)).(pc := Idle)
    {
      Advance(Recover);
    }

    ghost method AdvanceCrash()
      requires Recorded() && !sys.pc.Down?
      modifies this`sys, this`hist, this`faults, this`sizes
      ensures sizes == old(sizes)
      ensures Recorded() && sys == old(sys).(pend := CLEAN, pc := Down) && faults == old(faults) + 1
    {
      Advance(Crash);
    }

    // ---------- API side ----------

    method RequestRun() returns (updated: bool)
      requires Valid()
      modifies this`status, this`sys, this`hist, this`faults, this`sizes
      ensures sizes == old(sizes)
      ensures Valid() && faults == old(faults) && old(hist) <= hist
      ensures updated == (old(status) in {IDLE, PAUSED, PAUSE_REQUESTED})
      ensures status == if updated then RUN_REQUESTED else old(status)
      ensures sys == old(sys).(status := status)
    {
      updated := status in {IDLE, PAUSED, PAUSE_REQUESTED};
      if updated {
        status := RUN_REQUESTED;
      }
      AdvanceApi(ApiRun);
    }

    method RequestPause() returns (updated: bool)
      requires Valid()
      modifies this`status, this`sys, this`hist, this`faults, this`sizes
      ensures sizes == old(sizes)
      ensures Valid() && faults == old(faults) && old(hist) <= hist
      ensures updated == (old(status) in {IDLE, RUN_REQUESTED, RUNNING})
      ensures status == if updated then PAUSE_REQUESTED else old(status)
      ensures sys == old(sys).(status := status)
    {
      updated := status in {RUNNING, RUN_REQUESTED, IDLE};
      if updated {
        status := PAUSE_REQUESTED;
      }
      AdvanceApi(ApiPause);
    }

    /** run_pipeline: a pipeline that already runs or is queued is returned as it is. */
    method RunPipeline() returns (result: Status)
      requires Valid()
      modifies this`status, this`sys, this`hist, this`faults, this`sizes
      ensures sizes == old(sizes)
      ensures Valid() && faults == old(faults) && old(hist) <= hist
      ensures result == status && sys == old(sys).(status := status)
      ensures status == if old(status) in {RUNNING, FAILED} then old(status) else RUN_REQUESTED
    {
      if status in {RUNNING, RUN_REQUESTED} {
        return status;
      }
      var _ := RequestRun();
      result := status;
    }

    /** pause_pipeline: a pipeline that is paused or about to be is returned as it is. */
    method PausePipeline() returns (result: Status)
      requires Valid()
      modifies this`status, this`sys, this`hist, this`faults, this`sizes
      ensures sizes == old(sizes)
      ensures Valid() && faults == old(faults) && old(hist) <= hist
      ensures result == status && sys == old(sys).(status := status)
      ensures status == if old(status) in {PAUSED, FAILED} then old(status) else PAUSE_REQUESTED
    {
      if status in {PAUSED, PAUSE_REQUESTED} {
        return status;
      }
      var _ := RequestPause();
      result := status;
    }

    /** Any number of API calls. */
    method Interleave()
      requires Valid()
      modifies this`status, this`sys, this`hist, this`seen, this`faults, this`sizes
      ensures sizes == old(sizes)
      ensures Valid() && faults == old(faults) && old(hist) <= hist
      ensures seen == status && sys == old(sys).(status := seen)
      ensures status == RUNNING ==> old(status) == RUNNING
    {
      var calls: nat := *;
      var i := 0;
      while i < calls
        invariant Valid() && faults == old(faults) && sizes == old(sizes) && old(hist) <= hist
        invariant sys == old(sys).(status := status)
        invariant status == RUNNING ==> old(status) == RUNNING
      {
        i := i + 1;
        if * {
          var _ := RunPipeline();
        } else {
          var _ := PausePipeline();
        }
      }
      seen := status;
    }

    /** An exception takes the place of a call; a lost connection or process takes the open transaction with it. */
    method Fault(exn: Exn)
      requires Valid() && CanRaise(sys.pc)
      modifies this`sys, this`hist, this`faults, this`sizes, this`pendWrites, this`pendMark, this`troubles
      ensures sizes == old(sizes) && troubles == old(troubles) + 1
      ensures Valid() && old(hist) <= hist && sys == AfterFault(old(sys), exn)
      ensures Stopped(old(sys.pc), old(faults), exn) && (LostLast(hist) <==> exn.Disconnected?)
    {
      if !exn.Ordinary? {
        pendWrites, pendMark := map[], None;
      }
      troubles := troubles + 1;
      AdvanceFault(exn);
    }

    /** An await: API calls, and possibly an exception in place of the call. */
    method Await() returns (e: Option<Exn>)
      requires Valid() && CanRaise(sys.pc)
      modifies this`status, this`sys, this`hist, this`seen, this`faults, this`sizes
      modifies this`pendWrites, this`pendMark, this`troubles
      ensures sizes == old(sizes)
      ensures troubles == old(troubles) + if e.Some? then 1 else 0
      ensures Valid() && old(hist) <= hist && (status == RUNNING ==> old(status) == RUNNING)
      ensures e.None? ==> sys == old(sys).(status := seen) && seen == status && faults == old(faults)
                          && pendWrites == old(pendWrites) && pendMark == old(pendMark)
      ensures e.Some? ==> sys == AfterFault(old(sys).(status := seen), e.value)
      ensures e.Some? ==> Stopped(old(sys.pc), old(faults), e.value) && (LostLast(hist) <==> e.value.Disconnected?)
    {
      Interleave();
      e := None;
      if * {
        var exn: Exn := *;
        Fault(exn);
        e := Some(exn);
      }
    }

    /** session.commit(): publishes whatever the transaction holds. */
    method Flush(ghost s: Sys)
      requires Mirrors(s)
      modifies this`sink, this`lastValue, this`lastId, this`pendWrites, this`pendMark
      ensures Mirrors(Engine.Commit(s)) && Published(old(pendWrites), old(pendMark))
    {
      sink := sink + pendWrites;
      if pendMark.Some? {
        lastValue, lastId := Some(pendMark.value.ts), Some(pendMark.value.id);
      }
      pendWrites, pendMark := map[], None;
    }

    /** UPDATE ... WHERE status IN guard, then commit if a row matched. */
    method Update(e: Event) returns (updated: bool)
      requires Mirrors(sys)
      modifies this`status, this`sink, this`lastValue, this`lastId, this`pendWrites, this`pendMark
      ensures updated == Guard(e, old(status)) && status == Cas(e, old(status))
      ensures Mirrors(Guarded(sys, e))
    {
      updated := Guard(e, status);
      if updated {
        status := Target(e);
        Flush(sys.(status := status));
      }
    }

    /** The same update, as a step of the engine. */
    method UpdateAt(ghost a: Action, e: Event) returns (updated: bool)
      requires Valid() && Stands(sys.pc, a, e)
      modifies this`status, this`sink, this`lastValue, this`lastId, this`pendWrites, this`pendMark
      modifies this`sys, this`hist, this`faults, this`sizes
      ensures sizes == old(sizes)
      ensures Valid() && faults == old(faults) && old(hist) <= hist && hist != [] && Last(hist) == a
      ensures updated == Guard(e, old(status)) && status == Cas(e, old(status))
      ensures sys == Guarded(old(sys), e).(pc := AfterUpdate(old(sys.pc), a, updated))
    {
      updated := Update(e);
      AdvanceUpdate(a, e);
    }

    // ---------- Status repository, runner side ----------

    /** get_active for one pipeline: the status that the dispatcher will act on. */
    method ObserveActive() returns (observed: Option<Status>)
      requires Valid() && sys.pc.Idle?
      modifies this`status, this`sys, this`hist, this`seen, this`faults, this`sizes
      ensures sizes == old(sizes)
      ensures Valid() && faults == old(faults)
      ensures observed.Some? <==> cfg.enabled && status in {RUN_REQUESTED, PAUSE_REQUESTED}
      ensures observed.Some? ==> observed.value == status
      ensures sys == old(sys).(status := status, pc := if observed.Some? then Seen(observed.value) else Idle)
    {
      Interleave();
      if cfg.enabled && status in {RUN_REQUESTED, PAUSE_REQUESTED} {
        observed := Some(status);
        AdvanceTick();
      } else {
        observed := None;
      }
    }

    /** get_status after execution. */
    method GetFinalStatus() returns (r: Result<Status>)
      requires Valid() && sys.pc.Settling?
      modifies this
      ensures sizes == old(sizes)
      ensures Valid()
      ensures r.Ok? ==> faults == old(faults) && r.value == status == seen && runs == old(runs)
      ensures r.Ok? ==> sys == old(sys).(status := status, pc :=
        if status == PAUSED then Idle else Closing(old(sys.pc).n, old(sys.pc).attempt, old(sys.pc).drained))
      ensures r.Raise? ==> Stopped(old(sys.pc), old(faults), r.exn) && runs == old(runs)
    {
      var e := Await();
      if e.Some? {
        return Raise(e.value);
      }
      r := Ok(status);
      AdvanceSettle();
    }

    /** get_status between batches. */
    method GetStatus() returns (r: Result<Status>)
      requires Valid() && sys.pc.Body? && sys.pc.at.AtCheck?
      modifies this
      ensures sizes == old(sizes)
      ensures Valid() && troubles == old(troubles) + if r.Raise? then 1 else 0
      ensures r.Ok? ==> faults == old(faults) && r.value == status == seen
      ensures r.Ok? ==> sys == At(old(sys).(status := status),
        if status == PAUSE_REQUESTED then AtPause(old(sys.pc).at.read, old(sys.pc).at.written)
        else AtFetch(old(sys.pc).at.cursor, old(sys.pc).at.read, old(sys.pc).at.written))
      ensures r.Raise? ==> Stopped(old(sys.pc), old(faults), r.exn) && runs == old(runs)
    {
      var e := Await();
      if e.Some? {
        return Raise(e.value);
      }
      r := Ok(status);
      AdvanceCheck();
    }

    method ClaimRunRequested() returns (r: Result<bool>)
      requires Valid() && sys.pc == Seen(RUN_REQUESTED)
      modifies this
      ensures sizes == old(sizes)
      ensures Valid()
      ensures r.Ok? ==> faults == old(faults) && r.value == (seen == RUN_REQUESTED)
      ensures r.Ok? ==> sys == Guarded(old(sys).(status := seen), Claim).(pc := if r.value then Claimed else Idle)
      ensures r.Ok? ==> status == (if r.value then RUNNING else seen)
      ensures LostLast(hist) <==> r.Raise? && r.exn.Disconnected?
      ensures r.Raise? ==> Stopped(old(sys.pc), old(faults), r.exn) && runs == old(runs)
    {
      var e := Await();
      if e.Some? {
        return Raise(e.value);
      }
      var claimed := UpdateAt(DispatchClaim, Claim);
      r := Ok(claimed);
    }

    /** apply_pause_requested for a pipeline that is not executing. */
    method ApplyPauseIdle() returns (r: Result<bool>)
      requires Valid() && sys.pc == Seen(PAUSE_REQUESTED)
      modifies this
      ensures sizes == old(sizes)
      ensures Valid()
      ensures r.Ok? ==> faults == old(faults) && r.value == (seen == PAUSE_REQUESTED)
      ensures r.Ok? ==> sys == Guarded(old(sys).(status := seen), ApplyPause).(pc := Idle)
      ensures r.Ok? ==> status == (if r.value then PAUSED else seen)
      ensures LostLast(hist) <==> r.Raise? && r.exn.Disconnected?
      ensures r.Raise? ==> Stopped(old(sys.pc), old(faults), r.exn) && runs == old(runs)
    {
      var e := Await();
      if e.Some? {
        return Raise(e.value);
      }
      var applied := UpdateAt(DispatchPause, ApplyPause);
      r := Ok(applied);
    }

    /** apply_pause_requested between batches. */
    method ApplyPauseRequested() returns (r: Result<bool>)
      requires Valid() && sys.pc.Body? && sys.pc.at.AtPause?
      modifies this
      ensures sizes == old(sizes)
      ensures Valid() && troubles == old(troubles) + if r.Raise? then 1 else 0
      ensures r.Ok? ==> faults == old(faults) && r.value == (seen == PAUSE_REQUESTED)
      ensures r.Ok? ==> sys == Guarded(old(sys).(status := seen), ApplyPause).(pc :=
        old(sys.pc).(at := AtDone(old(sys.pc).at.read, old(sys.pc).at.written, false)))
      ensures r.Ok? ==> status == if r.value then PAUSED else seen
      ensures r.Ok? ==> seen == RUNNING ==> old(status) == RUNNING
      ensures r.Raise? ==> Stopped(old(sys.pc), old(faults), r.exn) && runs == old(runs)
    {
      var e := Await();
      if e.Some? {
        return Raise(e.value);
      }
      var applied := UpdateAt(Pause, ApplyPause);
      r := Ok(applied);
    }

    /** Between runs no transaction is open, and only a drained run is still RUNNING. */
    lemma FinishPublishesNothing()
      requires Valid() && sys.pc.Closing?
      ensures Engine.Commit(sys.(status := Target(Finish))) == sys.(status := Target(Finish))
      ensures status == RUNNING ==> sys.pc.drained
    {
      ProtoAlways(cfg, init, hist);
      CommitClean(sys.(status := Target(Finish)));
    }

    method FinishRunningToIdle() returns (r: Result<bool>)
      requires Valid() && sys.pc.Closing?
      modifies this
      ensures sizes == old(sizes)
      ensures Valid()
      ensures r.Ok? ==> faults == old(faults) && r.value == (seen == RUNNING) && runs == old(runs)
      ensures r.Ok? ==> sys == Guarded(old(sys).(status := seen), Finish).(pc := Idle)
      ensures old(hist) <= hist && (r.Ok? ==> sink == old(sink) && status == if r.value then IDLE else seen)
      ensures r.Ok? && r.value ==> old(sys.pc).drained
      ensures r.Raise? ==> Stopped(old(sys.pc), old(faults), r.exn) && runs == old(runs)
    {
      var e := Await();
      if e.Some? {
        return Raise(e.value);
      }
      FinishPublishesNothing();
      var updated := UpdateAt(Close, Finish);
      r := Ok(updated);
    }

    method FailIfActive() returns (r: Result<bool>)
      requires Valid() && sys.pc.GivingUp?
      modifies this
      ensures sizes == old(sizes)
      ensures Valid()
      ensures r.Ok? ==> faults == old(faults) && r.value == (seen in {RUNNING, PAUSE_REQUESTED}) && runs == old(runs)
      ensures r.Ok? ==> sys == Guarded(old(sys).(status := seen), Fail).(pc := Idle)
      ensures r.Ok? ==> status == (if r.value then FAILED else seen)
      ensures LostLast(hist) <==> r.Raise? && r.exn.Disconnected?
      ensures r.Raise? ==> Stopped(old(sys.pc), old(faults), r.exn) && runs == old(runs)
    {
      var e := Await();
      if e.Some? {
        return Raise(e.value);
      }
      var updated := UpdateAt(GiveUp, Fail);
      r := Ok(updated);
    }

    // ---------- Snapshot and runs ----------

    /** snapshot_pipeline_with_tasks: the batch size is frozen here. */
    method TakeSnapshot(n: nat) returns (r: Result<nat>)
      requires Valid() && sys.pc.Claimed? && n >= 1
      modifies this
      ensures Valid()
      ensures r.Ok? ==> r.value == n && faults == old(faults)
      ensures r.Ok? ==> sys == old(sys).(status := status, pc := Starting(n, 1))
      ensures sizes == if r.Ok? then old(sizes) + [n] else old(sizes)
      ensures LostLast(hist) <==> r.Raise? && r.exn.Disconnected?
      ensures r.Raise? ==> Stopped(old(sys.pc), old(faults), r.exn) && runs == old(runs)
    {
      var e := Await();
      if e.Some? {
        return Raise(e.value);
      }
      AdvanceSnapshot(n);
      r := Ok(n);
    }

    /** start_run: inserts a RUNNING row with zero counts; the run id is its position. */
    method StartRun() returns (r: Result<nat>)
      requires Valid() && sys.pc.Starting?
      modifies this
      ensures sizes == old(sizes)
      ensures Valid()
      ensures r.Ok? ==> faults == old(faults) && r.value == |old(runs)| == |runs| - 1
      ensures r.Ok? ==> runs == old(runs) + [Run(RunRunning, 0, 0)]
      ensures r.Ok? ==> sys.pc == Body(old(sys.pc).n, old(sys.pc).attempt, AtLoad)
      ensures r.Raise? ==> Stopped(old(sys.pc), old(faults), r.exn) && runs == old(runs)
    {
      var e := Await();
      if e.Some? {
        return Raise(e.value);
      }
      Flush(sys);
      r := Ok(|runs|);
      runs := runs + [Run(RunRunning, 0, 0)];
      AdvanceStart();
    }

    method SetRun(run: nat, row: Run)
      requires Mirrors(sys) && run == |runs| - 1
      modifies this`runs, this`sink, this`lastValue, this`lastId, this`pendWrites, this`pendMark
      ensures runs == old(runs)[run := row]
      ensures Mirrors(EndRun(sys, row))
    {
      runs := runs[run := row];
      Flush(sys.(runs := runs));
    }

    method FinishSuccess(run: nat, read: nat, written: nat) returns (r: Result<()>)
      requires Valid() && sys.pc.Body? && sys.pc.at.AtDone? && run == |runs| - 1
      requires read == sys.pc.at.read && written == sys.pc.at.written
      modifies this
      ensures sizes == old(sizes)
      ensures Valid()
      ensures r.Ok? ==> faults == old(faults) && runs == old(runs)[run := Run(RunSuccess, read, written)]
      ensures r.Ok? ==> sys.pc == Settling(old(sys.pc).n, old(sys.pc).attempt, old(sys.pc).at.drained)
      ensures r.Raise? ==> Stopped(old(sys.pc), old(faults), r.exn) && runs == old(runs)
    {
      var e := Await();
      if e.Some? {
        return Raise(e.value);
      }
      SetRun(run, Run(RunSuccess, read, written));
      AdvanceFinish();
      r := Ok(());
    }

    /** session.rollback() */
    method RollbackSession() returns (r: Result<()>)
      requires Valid() && sys.pc.Failing?
      modifies this
      ensures sizes == old(sizes)
      ensures Valid()
      ensures r.Ok? ==> faults == old(faults)
      ensures r.Ok? ==> sys == old(sys).(status := status, pend := CLEAN,
                                         pc := RolledBack(old(sys.pc).n, old(sys.pc).attempt))
      ensures r.Raise? ==> !r.exn.Ordinary? && Stopped(old(sys.pc), old(faults), r.exn) && runs == old(runs)
    {
      Interleave();
      pendWrites, pendMark := map[], None;
      if * {
        var exn := Disconnected;
        if * { exn := Crashed; }
        FaultFromFailing(exn);
        return Raise(exn);
      }
      AdvanceRollback();
      r := Ok(());
    }

    /** finish_failed: the counts of the row are left as they were inserted. */
    method FinishFailed(run: nat) returns (r: Result<()>)
      requires Valid() && sys.pc.RolledBack? && run == |runs| - 1
      modifies this
      ensures sizes == old(sizes)
      ensures Valid()
      ensures r.Ok? ==> faults == old(faults) && runs == old(runs)[run := old(runs)[run].(status := RunFailed)]
      ensures r.Ok? ==> sys.pc == Retrying(old(sys.pc).n, old(sys.pc).attempt)
      ensures r.Raise? ==> Stopped(old(sys.pc), old(faults), r.exn) && runs == old(runs)
    {
      var e := Await();
      if e.Some? {
        return Raise(e.value);
      }
      assert FailedRun(runs) == runs[run].(status := RunFailed);
      SetRun(run, runs[run].(status := RunFailed));
      AdvanceRecord();
      r := Ok(());
    }

    // ---------- Data plane ----------

    /** state_repo.get and the guard for a checkpoint without an id, which never fires. */
    method GetState() returns (r: Result<Option<Key>>)
      requires Valid() && sys.pc.Body? && sys.pc.at.AtLoad?
      modifies this
      ensures sizes == old(sizes)
      ensures Valid() && troubles == old(troubles) + if r.Raise? then 1 else 0
      ensures r.Ok? ==> faults == old(faults) && r.value == sys.ckpt && runs == old(runs)
      ensures r.Ok? ==> sys.pc == old(sys.pc).(at := AtFetch(r.value, 0, 0))
      ensures r.Raise? ==> Stopped(old(sys.pc), old(faults), r.exn) && runs == old(runs)
    {
      var e := Await();
      if e.Some? {
        return Raise(e.value);
      }
      if lastValue.Some? && lastId.None? {
        assert false;
      }
      r := Ok(if lastValue.Some? then Some(Key(lastValue.value, lastId.value)) else None);
      AdvanceLoad();
    }

    /** The batch query. */
    method Query(cursor: Option<Key>, n: nat) returns (r: Result<seq<Row>>)
      requires Valid() && sys.pc.Body? && sys.pc.at.AtFetch?
      requires cursor == sys.pc.at.cursor && n == sys.pc.n
      modifies this
      ensures sizes == old(sizes)
      ensures Valid() && troubles == old(troubles) + if r.Raise? then 1 else 0
      ensures r.Ok? ==> faults == old(faults) && r.value == Page(source, cursor, n) && runs == old(runs)
      ensures r.Ok? ==> var p := old(sys.pc).at;
        sys.pc == old(sys.pc).(at :=
          if r.value == [] then AtDone(p.read, p.written, true)
          else AtWrite(cursor, p.read + |r.value|, p.written, r.value))
      ensures r.Raise? ==> Stopped(old(sys.pc), old(faults), r.exn) && runs == old(runs)
    {
      var e := Await();
      if e.Some? {
        return Raise(e.value);
      }
      r := Ok(Page(source, cursor, n));
      AdvanceFetch();
    }

    /** Any of the items of a bulk request. */
    method ChooseItems(items: seq<Item>) returns (part: Sink)
      ensures part.Keys <= Effect(items).Keys
    {
      part := map[];
      for i := 0 to |items|
        invariant part.Keys <= Effect(items[..i]).Keys
      {
        assert items[..i + 1][..i] == items[..i];
        if * {
          part := part + CellsOf(items[i]);
        }
      }
      assert items[..|items|] == items;
    }

    /** A bulk request reaches the index in part. */
    method PartOfBulk(items: seq<Item>) returns (ghost part: Sink)
      requires Valid() && cfg.es && sys.pc.Body? && sys.pc.at.AtWrite?
      requires items == cfg.out(sys.pc.at.batch)
      modifies this`sink, this`sys, this`hist, this`faults, this`sizes
      ensures sizes == old(sizes)
      ensures Valid() && faults == old(faults) && sys == old(sys).(sink := sink)
      ensures sink == old(sink) + part && part.Keys <= Effect(items).Keys
    {
      var applied := ChooseItems(items);
      sink := sink + applied;
      part := applied;
      AdvancePart(applied);
    }

    /** The sink after a write that raised: as it was, or with part of the bulk. */
    twostate predicate LeftBehind(items: seq<Item>)
      reads this
    {
      exists part :: MayRemain(items, cfg.es, part) && sink == old(sink) + part
    }

    twostate lemma NothingLeft(items: seq<Item>)
      requires sink == old(sink)
      ensures LeftBehind(items)
    {
      NothingRemains(items, cfg.es, sink);
    }

    /** The sink and the transaction after a complete write. */
    twostate predicate Delivered(items: seq<Item>)
      reads this
    {
      (sink, pendWrites) == AfterWrite(cfg.es, old(sink), old(pendWrites), Effect(items))
    }

    /** The loop has gone on from a write to the checkpoint, having counted n records. */
    twostate predicate Counted(n: nat)
      reads this
    {
      match old(sys.pc)
      case Body(size, attempt, AtWrite(cursor, read, written, batch)) =>
        sys.pc == Body(size, attempt, AtMark(cursor, read, written + n, batch))
      case _ => false
    }

    /** The whole batch arrives. */
    method Deliver(items: seq<Item>)
      requires Valid() && sys.pc.Body? && sys.pc.at.AtWrite?
      requires items == cfg.out(sys.pc.at.batch)
      modifies this`sink, this`pendWrites, this`sys, this`hist, this`faults, this`sizes
      ensures sizes == old(sizes)
      ensures Valid() && faults == old(faults)
      ensures Counted(|items|)
      ensures Delivered(items)
    {
      if cfg.es {
        sink := sink + Effect(items);
      } else {
        pendWrites := pendWrites + Effect(items);
      }
      AdvanceWrite();
    }

    /** writer.write for a non-empty batch output: into the transaction, or straight into the index. */
    method Write(items: seq<Item>) returns (r: Result<nat>)
      requires Valid() && sys.pc.Body? && sys.pc.at.AtWrite?
      requires items == cfg.out(sys.pc.at.batch)
      modifies this
      ensures sizes == old(sizes)
      ensures Valid() && troubles == old(troubles) + if r.Raise? then 1 else 0
      ensures r.Ok? ==> faults == old(faults) && r.value == |items|
      ensures r.Ok? ==> Counted(|items|) && runs == old(runs)
      ensures r.Ok? ==> Delivered(items)
      ensures r.Raise? ==> Stopped(old(sys.pc), old(faults), r.exn) && runs == old(runs) && LeftBehind(items)
    {
      ghost var part: Sink := map[];
      assert sink == sink + part;
      if cfg.es {
        part := PartOfBulk(items);
        PartIsOverwritten(old(sink), part, Effect(items));
      }
      assert MayRemain(items, cfg.es, part) && sink == old(sink) + part;
      var e := Await();
      if e.Some? {
        return Raise(e.value);
      }
      Deliver(items);
      r := Ok(|items|);
    }

    /** A batch whose transform returned nothing is not written. */
    ghost method SkipWrite()
      requires Valid() && sys.pc.Body? && sys.pc.at.AtWrite? && cfg.out(sys.pc.at.batch) == []
      modifies this`sys, this`hist, this`faults, this`sizes
      ensures sizes == old(sizes)
      ensures Valid() && faults == old(faults)
      ensures Counted(0) && Delivered([])
    {
      assert sink + map[] == sink && pendWrites + map[] == pendWrites;
      AdvanceWrite();
    }

    /** Building the payload raised: a record lacks a required field. */
    ghost method RejectRecords(to: Encoder, rows: seq<Record>)
      requires Valid() && sys.pc.Body? && sys.pc.at.AtWrite?
      requires cfg.out(sys.pc.at.batch) == Items(to, rows) && !Writable(to, rows)
      modifies this`sys, this`hist, this`faults, this`sizes, this`troubles
      ensures sizes == old(sizes)
      ensures troubles == old(troubles) + 1
      ensures Valid() && faults == old(faults) && Stopped(old(sys.pc), old(faults), Ordinary)
    {
      troubles := troubles + 1;
      AdvanceFault(Ordinary);
    }

    /** The tail guard raised: the last row of the batch has a NULL incremental key. */
    ghost method RejectTail()
      requires Valid() && sys.pc.Body? && sys.pc.at.AtMark?
      requires sys.pc.at.batch != [] && Last(sys.pc.at.batch).ts.None?
      modifies this`sys, this`hist, this`faults, this`sizes, this`troubles
      ensures sizes == old(sizes)
      ensures troubles == old(troubles) + 1
      ensures Valid() && faults == old(faults) && Stopped(old(sys.pc), old(faults), Ordinary)
    {
      troubles := troubles + 1;
      AdvanceFault(Ordinary);
    }

    /** Neither the sink nor the stored checkpoint has changed. */
    twostate predicate Unpublished()
      reads this
    {
      sink == old(sink) && lastValue == old(lastValue) && lastId == old(lastId)
    }

    /** A transaction has become visible as a whole: its writes and its checkpoint. */
    twostate predicate Published(writes: Sink, mark: Option<Key>)
      reads this
    {
      && sink == old(sink) + writes
      && lastValue == (if mark.Some? then Some(mark.value.ts) else old(lastValue))
      && lastId == (if mark.Some? then Some(mark.value.id) else old(lastId))
      && pendWrites == map[] && pendMark == None
    }

    /** state_repo.upsert: the checkpoint joins the open transaction. */
    method UpsertState(k: Key) returns (r: Result<()>)
      requires Valid() && sys.pc.Body? && sys.pc.at.AtMark? && sys.pc.at.batch != []
      requires Last(sys.pc.at.batch).ts.Some? && k == KeyOf(Last(sys.pc.at.batch))
      modifies this
      ensures sizes == old(sizes)
      ensures Valid() && troubles == old(troubles) + if r.Raise? then 1 else 0
      ensures r.Ok? ==> faults == old(faults) && runs == old(runs)
      ensures r.Ok? ==> var p := old(sys.pc).at;
        sys.pc == old(sys.pc).(at := AtSave(Some(k), p.read, p.written, p.batch))
      ensures r.Ok? ==> pendMark == Some(k) && pendWrites == old(pendWrites)
      ensures Unpublished()
      ensures r.Raise? ==> Stopped(old(sys.pc), old(faults), r.exn) && runs == old(runs)
    {
      var e := Await();
      if e.Some? {
        return Raise(e.value);
      }
      pendMark := Some(k);
      AdvanceMark();
      r := Ok(());
    }

    /** session.commit() of a batch; a crash may come before it or after it. */
    method CommitBatch() returns (r: Result<()>)
      requires Valid() && sys.pc.Body? && sys.pc.at.AtSave?
      modifies this
      ensures sizes == old(sizes)
      ensures Valid() && troubles == old(troubles) + if r.Raise? then 1 else 0
      ensures r.Ok? ==> faults == old(faults) && runs == old(runs)
      ensures r.Ok? ==> var p := old(sys.pc).at;
        sys.pc == old(sys.pc).(at := AtCheck(p.cursor, p.read, p.written))
      ensures r.Ok? ==> Published(old(pendWrites), old(pendMark))
      ensures r.Raise? ==> Stopped(old(sys.pc), old(faults), r.exn) && runs == old(runs) && Unpublished()
    {
      var e := Await();
      if e.Some? {
        return Raise(e.value);
      }
      Flush(sys);
      AdvanceSave();
      r := Ok(());
    }

    // ---------- Retry bookkeeping and startup ----------

    /** The dispatcher goes on to the next attempt, or gives up after the last one. */
    ghost method NextAttempt()
      requires Valid() && sys.pc.Retrying?
      modifies this`sys, this`hist, this`faults, this`sizes
      ensures sizes == old(sizes)
      ensures Valid() && faults == old(faults)
      ensures sys == old(sys).(pc := if old(sys.pc).attempt < cfg.maxAttempts
                                     then Starting(old(sys.pc).n, old(sys.pc).attempt + 1) else GivingUp)
    {
      if sys.pc.attempt < cfg.maxAttempts {
        AdvanceAgain();
      } else {
        AdvanceExhausted();
      }
    }

    method Kill()
      requires Valid() && !sys.pc.Down?
      modifies this
      ensures sizes == old(sizes)
      ensures Valid() && sys.pc == Down && runs == old(runs) && status == old(status)
      ensures faults == old(faults) + 1 && seen == old(seen)
    {
      pendWrites, pendMark := map[], None;
      AdvanceCrash();
    }

    method ListStuck() returns (stuck: bool)
      requires Valid() && sys.pc.Down?
      modifies this`status, this`sys, this`hist, this`seen, this`faults, this`sizes
      ensures sizes == old(sizes)
      ensures Valid() && faults == old(faults)
      ensures stuck == (status == RUNNING) && (stuck ==> old(status) == RUNNING)
      ensures sys.pc == Recovering(stuck) && sys == old(sys).(status := status, pc := sys.pc)
    {
      Interleave();
      stuck := status == RUNNING;
      AdvanceRestart();
    }

    /** recover_running_failed_bulk and mark_run_requested_bulk, committed together. */
    method FailRunsAndRequeue()
      requires Mirrors(sys)
      modifies this`status, this`runs, this`sink, this`lastValue, this`lastId, this`pendWrites, this`pendMark
      ensures status == Cas(Requeue, old(status)) && runs == FailRunning(old(runs))
      ensures Mirrors(Engine.Commit(sys.(runs := FailRunning(sys.runs), status := Cas(Requeue, sys.status))))
    {
      runs := FailRunning(runs);
      status := Cas(Requeue, status);
      Flush(sys.(runs := runs, status := status));
    }

    method RecoverStuck(stuck: bool) returns (r: Result<()>)
      requires Valid() && sys.pc == Recovering(stuck)
      modifies this
      ensures sizes == old(sizes)
      ensures Valid()
      ensures seen == RUNNING ==> old(status) == RUNNING
      ensures r.Ok? ==> faults == old(faults) && sys.pc.Idle?
      ensures r.Ok? ==> status == if stuck && seen == RUNNING then RUN_REQUESTED else seen
      ensures r.Ok? ==> runs == if stuck then FailRunning(old(runs)) else old(runs)
      ensures r.Raise? ==> faults == old(faults) + 1 && sys.pc.Down? && runs == old(runs)
    {
      Interleave();
      if * {
        Kill();
        return Raise(Crashed);
      }
      CloseAndRequeue(stuck);
      r := Ok(());
    }

    /** The updates of the restart. */
    method CloseAndRequeue(stuck: bool)
      requires Valid() && sys.pc == Recovering(stuck)
      modifies this`status, this`runs, this`sink, this`lastValue, this`lastId, this`pendWrites, this`pendMark
      modifies this`sys, this`hist, this`faults, this`sizes
      ensures sizes == old(sizes)
      ensures Valid() && faults == old(faults) && sys.pc.Idle?
      ensures status == if stuck && old(status) == RUNNING then RUN_REQUESTED else old(status)
      ensures runs == if stuck then FailRunning(old(runs)) else old(runs)
    {
      if stuck {
        FailRunsAndRequeue();
      }
      AdvanceRecover();
    }
  }
}
