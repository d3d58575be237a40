/**
 * One pipeline, one runner process and any number of API calls, as a state
 * machine.  An action is one await of the runner, one API call, one change of
 * the source table, or a failure; actions interleave freely.
 */
module Engine {
  import opened Rows
  import opened Keyset
  import opened Sinks
  import opened Status

  /** `out` is transform plus payload; `es` selects the Elasticsearch sink; only an enabled pipeline is dispatched. */
  datatype Config = Config(out: Output, es: bool, maxAttempts: nat, enabled: bool)

  /** A row of etl_runs. */
  datatype Run = Run(status: RunStatus, read: nat, written: nat)

  /** The session's uncommitted transaction; `rows` names the batch it would checkpoint. */
  datatype Overlay = Overlay(writes: Sink, mark: Option<Key>, rows: seq<Row>)

  const CLEAN := Overlay(map[], None, [])

  /** Where the batch loop of a runner is. */
  datatype Point =
    | AtLoad
    | AtFetch(cursor: Option<Key>, read: nat, written: nat)
    | AtWrite(cursor: Option<Key>, read: nat, written: nat, batch: seq<Row>)
    | AtMark(cursor: Option<Key>, read: nat, written: nat, batch: seq<Row>)
    | AtSave(cursor: Option<Key>, read: nat, written: nat, batch: seq<Row>)
    | AtCheck(cursor: Option<Key>, read: nat, written: nat)
    | AtPause(read: nat, written: nat)
    | AtDone(read: nat, written: nat, drained: bool)

  /** Where the runner process is; `n` is the batch size of the frozen snapshot. */
  datatype Pc =
    | Down
    | Recovering(stuck: bool)
    | Idle
    | Seen(observed: Status)
    | Claimed
    | Starting(n: nat, attempt: nat)
    | Body(n: nat, attempt: nat, at: Point)
    | Failing(n: nat, attempt: nat)
    | RolledBack(n: nat, attempt: nat)
    | Retrying(n: nat, attempt: nat)
    | GivingUp
    | Settling(n: nat, attempt: nat, drained: bool)
    | Closing(n: nat, attempt: nat, drained: bool)

  /**
   * The database, the session and the runner.  The last three fields are
   * bookkeeping: the rows whose checkpoint has been committed, in commit order,
   * the same rows by run, and how often the source changed.
   */
  datatype Sys = Sys(
    source: seq<Row>,
    status: Status,
    ckpt: Option<Key>,
    sink: Sink,
    runs: seq<Run>,
    pend: Overlay,
    pc: Pc,
    applied: seq<Row>,
    landed: seq<seq<Row>>,
    changes: nat)

  datatype Action =
    | ApiRun | ApiPause
    | InsertRow(row: Row) | TouchRow(at: nat, row: Row)
    | Tick | DispatchPause | DispatchClaim | Snapshot(n: nat)
    | StartRun | Load | Fetch | BulkPart(part: Sink) | WriteBatch | Mark | Save | Check | Pause
    | FinishRun | Settle | Close
    | RaiseInBody | Rollback | RecordFailure | Again | GiveUp | RaiseOutside
    | Disconnect | Crash
    | Restart | Recover

  // ---------- Session ----------

  function Credit(landed: seq<seq<Row>>, rows: seq<Row>): seq<seq<Row>> {
    if landed == [] then [] else landed[|landed| - 1 := Last(landed) + rows]
  }

  function Commit(s: Sys): Sys {
    s.(sink := s.sink + s.pend.writes,
       ckpt := if s.pend.mark.Some? then s.pend.mark else s.ckpt,
       applied := s.applied + s.pend.rows,
       landed := Credit(s.landed, s.pend.rows),
       pend := CLEAN)
  }

  /** A guarded update: when it matches a row it commits, otherwise nothing happens. */
  function Guarded(s: Sys, e: Event): Sys {
    if Guard(e, s.status) then Commit(s.(status := Target(e))) else s
  }

  /** An UPDATE of the current run row, followed by commit. */
  function EndRun(s: Sys, r: Run): Sys {
    Commit(if s.runs == [] then s else s.(runs := s.runs[|s.runs| - 1 := r]))
  }

  function FailedRun(runs: seq<Run>): Run {
    if runs == [] then Run(RunFailed, 0, 0) else Last(runs).(status := RunFailed)
  }

  /** Recovery closes an open run and keeps its counts. */
  function Shut(r: Run): Run {
    if r.status == RunRunning then r.(status := RunFailed) else r
  }

  function FailRunning(runs: seq<Run>): seq<Run> {
    seq(|runs|, i requires 0 <= i < |runs| => Shut(runs[i]))
  }

  // ---------- Source changes ----------

  predicate Newest(source: seq<Row>, r: Row) {
    r.ts.Some? && forall x :: x in source && x.ts.Some? ==> KeyLess(KeyOf(x), KeyOf(r))
  }

  // ---------- Steps ----------

  function PageOf(s: Sys): seq<Row>
    requires s.pc.Body? && s.pc.at.AtFetch?
  {
    Page(s.source, s.pc.at.cursor, s.pc.n)
  }

  predicate MayInsert(s: Sys, r: Row) {
    Newest(s.source, r) && forall x :: x in s.source ==> x.id != r.id
  }

  predicate MayTouch(s: Sys, i: nat, r: Row) {
    i < |s.source| && Newest(s.source, r) && s.source[i].id == r.id
  }

  predicate MayApply(c: Config, s: Sys, m: Sink) {
    c.es && s.pc.Body? && s.pc.at.AtWrite? && m.Keys <= Written(c.out, s.pc.at.batch).Keys
  }

  /** The guard against a NULL incremental key in the tail row. */
  predicate MayMark(s: Sys) {
    s.pc.Body? && s.pc.at.AtMark? && s.pc.at.batch != [] && Last(s.pc.at.batch).ts.Some?
  }

  /** Outside the body of a run an exception leaves the dispatch or asks for the next attempt. */
  predicate RaisesOutside(pc: Pc) {
    pc.Seen? || pc.Claimed? || pc.Starting? || pc.RolledBack? || pc.Settling? || pc.Closing? || pc.GivingUp?
  }

  predicate Enabled(c: Config, s: Sys, a: Action) {
    match a
    case ApiRun => true
    case ApiPause => true
    case InsertRow(r) => MayInsert(s, r)
    case TouchRow(i, r) => MayTouch(s, i, r)
    case Tick => c.enabled && s.pc.Idle? && s.status in {RUN_REQUESTED, PAUSE_REQUESTED}
    case DispatchPause => s.pc == Seen(PAUSE_REQUESTED)
    case DispatchClaim => s.pc == Seen(RUN_REQUESTED)
    case Snapshot(n) => s.pc.Claimed? && n >= 1
    case StartRun => s.pc.Starting?
    case Load => s.pc.Body? && s.pc.at.AtLoad?
    case Fetch => s.pc.Body? && s.pc.at.AtFetch?
    case BulkPart(m) => MayApply(c, s, m)
    case WriteBatch => s.pc.Body? && s.pc.at.AtWrite?
    case Mark => MayMark(s)
    case Save => s.pc.Body? && s.pc.at.AtSave?
    case Check => s.pc.Body? && s.pc.at.AtCheck?
    case Pause => s.pc.Body? && s.pc.at.AtPause?
    case FinishRun => s.pc.Body? && s.pc.at.AtDone?
    case Settle => s.pc.Settling?
    case Close => s.pc.Closing?
    case RaiseInBody => s.pc.Body?
    case Rollback => s.pc.Failing?
    case RecordFailure => s.pc.RolledBack?
    case Again => s.pc.Retrying? && s.pc.attempt < c.maxAttempts
    case GiveUp => (s.pc.Retrying? && s.pc.attempt >= c.maxAttempts) || s.pc.GivingUp?
    case RaiseOutside => RaisesOutside(s.pc)
    case Disconnect => !s.pc.Idle? && !s.pc.Down? && !s.pc.Recovering?
    case Crash => !s.pc.Down?
    case Restart => s.pc.Down?
    case Recover => s.pc.Recovering?
  }

  function Started(s: Sys): Sys
    requires s.pc.Starting?
  {
    Commit(s).(runs := s.runs + [Run(RunRunning, 0, 0)], landed := s.landed + [[]],
               pc := Body(s.pc.n, s.pc.attempt, AtLoad))
  }

  function Fetched(s: Sys): Sys
    requires s.pc.Body? && s.pc.at.AtFetch?
  {
    var b, p := PageOf(s), s.pc.at;
    At(s, if b == [] then AtDone(p.read, p.written, true) else AtWrite(p.cursor, p.read + |b|, p.written, b))
  }

  function WriteDone(c: Config, s: Sys): Sys
    requires s.pc.Body? && s.pc.at.AtWrite?
  {
    var p := s.pc.at;
    var cells := Written(c.out, p.batch);
    At(if c.es then s.(sink := s.sink + cells)
       else s.(pend := s.pend.(writes := s.pend.writes + cells)),
       AtMark(p.cursor, p.read, p.written + |c.out(p.batch)|, p.batch))
  }

  function Marked(s: Sys): Sys
    requires MayMark(s)
  {
    var p := s.pc.at;
    var k := KeyOf(Last(p.batch));
    At(s.(pend := s.pend.(mark := Some(k), rows := p.batch)), AtSave(Some(k), p.read, p.written, p.batch))
  }

  function Checked(s: Sys): Sys
    requires s.pc.Body? && s.pc.at.AtCheck?
  {
    var p := s.pc.at;
    At(s, if s.status == PAUSE_REQUESTED then AtPause(p.read, p.written) else AtFetch(p.cursor, p.read, p.written))
  }

  function Finished(s: Sys): Sys
    requires s.pc.Body? && s.pc.at.AtDone?
  {
    var p := s.pc.at;
    EndRun(s, Run(RunSuccess, p.read, p.written)).(pc := Settling(s.pc.n, s.pc.attempt, p.drained))
  }

  function AfterOutside(pc: Pc): Pc {
    match pc
    case Starting(n, k) => Retrying(n, k)
    case RolledBack(n, k) => Retrying(n, k)
    case Settling(n, k, _) => Retrying(n, k)
    case Closing(n, k, _) => Retrying(n, k)
    case _ => Idle
  }

  function AfterRecovery(s: Sys): Sys
    requires s.pc.Recovering?
  {
    (if s.pc.stuck
     then Commit(s.(runs := FailRunning(s.runs), status := Cas(Requeue, s.status)))
     else s).(pc := Idle)
  }

  function Next(c: Config, s: Sys, a: Action): Sys
    requires Enabled(c, s, a)
  {
    match a
    case ApiRun => s.(status := Cas(RequestRun, s.status))
    case ApiPause => s.(status := Cas(RequestPause, s.status))
    case InsertRow(r) => s.(source := s.source + [r], changes := s.changes + 1)
    case TouchRow(i, r) => s.(source := s.source[i := r], changes := s.changes + 1)
    case Tick => s.(pc := Seen(s.status))
    case DispatchPause => Guarded(s, ApplyPause).(pc := Idle)
    case DispatchClaim => Guarded(s, Claim).(pc := if s.status == RUN_REQUESTED then Claimed else Idle)
    case Snapshot(n) => s.(pc := Starting(n, 1))
    case StartRun => Started(s)
    case Load => At(s, AtFetch(s.ckpt, 0, 0))
    case Fetch => Fetched(s)
    case BulkPart(m) => s.(sink := s.sink + m)
    case WriteBatch => WriteDone(c, s)
    case Mark => Marked(s)
    case Save => At(Commit(s), AtCheck(s.pc.at.cursor, s.pc.at.read, s.pc.at.written))
    case Check => Checked(s)
    // leaves the loop even when the guarded update lost a race
    case Pause => At(Guarded(s, ApplyPause), AtDone(s.pc.at.read, s.pc.at.written, false))
    case FinishRun => Finished(s)
    case Settle => s.(pc := if s.status == PAUSED then Idle else Closing(s.pc.n, s.pc.attempt, s.pc.drained))
    case Close => Guarded(s, Finish).(pc := Idle)
    case RaiseInBody => s.(pc := Failing(s.pc.n, s.pc.attempt))
    case Rollback => s.(pend := CLEAN, pc := RolledBack(s.pc.n, s.pc.attempt))
    case RecordFailure => EndRun(s, FailedRun(s.runs)).(pc := Retrying(s.pc.n, s.pc.attempt))
    case Again => s.(pc := Starting(s.pc.n, s.pc.attempt + 1))
    case GiveUp => if s.pc.Retrying? then s.(pc := GivingUp) else Guarded(s, Fail).(pc := Idle)
    case RaiseOutside => s.(pc := AfterOutside(s.pc))
    case Disconnect => s.(pend := CLEAN, pc := Idle)
    case Crash => s.(pend := CLEAN, pc := Down)
    case Restart => s.(pc := Recovering(s.status == RUNNING))
    case Recover => AfterRecovery(s)
  }

  function At(s: Sys, p: Point): Sys
    requires s.pc.Body?
  {
    s.(pc := s.pc.(at := p))
  }

  /** The actions inside the body of a run. */
  predicate InLoop(a: Action) {
    a.Load? || a.Fetch? || a.BulkPart? || a.WriteBatch? || a.Mark? || a.Save? || a.Check? || a.Pause?
    || a.FinishRun? || a.RaiseInBody?
  }

  // ---------- Histories ----------

  function Step(c: Config, s: Sys, a: Action): Sys {
    if Enabled(c, s, a) then Next(c, s, a) else s
  }

  /** A finite history; an action that is not enabled when its turn comes does nothing. */
  function Exec(c: Config, s: Sys, acts: seq<Action>): Sys {
    if acts == [] then s else Step(c, Exec(c, s, acts[..|acts| - 1]), Last(acts))
  }

  lemma ExecSnoc(c: Config, s: Sys, acts: seq<Action>, a: Action)
    ensures Exec(c, s, acts + [a]) == Step(c, Exec(c, s, acts), a)
  {
    assert (acts + [a])[..|acts + [a]| - 1] == acts;
  }

  lemma {:induction false} ExecAppend(c: Config, s: Sys, acts: seq<Action>, more: seq<Action>)
    ensures Exec(c, s, acts + more) == Exec(c, Exec(c, s, acts), more)
  {
    if more == [] {
      assert acts + more == acts;
    } else {
      var less := more[..|more| - 1];
      ExecAppend(c, s, acts, less);
      assert (acts + more)[..|acts + more| - 1] == acts + less;
    }
  }

  lemma ExecOne(c: Config, s: Sys, a: Action)
    ensures Exec(c, s, [a]) == Step(c, s, a)
  {
    ExecSnoc(c, s, [], a);
    assert [] + [a] == [a];
  }

  lemma ExecTwo(c: Config, s: Sys, a: Action, b: Action)
    ensures Exec(c, s, [a] + [b]) == Step(c, Step(c, s, a), b)
  {
    ExecOne(c, s, a);
    ExecSnoc(c, s, [a], b);
  }

  /** Any database content, no open transaction, the process down or between ticks. */
  ghost predicate Initial(s: Sys) {
    && Distinct(s.source)
    && (s.pc.Down? || s.pc.Idle?)
    && s.pend == CLEAN
    && s.applied == []
    && s.landed == seq(|s.runs|, i => [])
    && s.changes == 0
  }
}
