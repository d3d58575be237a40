/**
 * Rows without an incremental key.  The guard against them runs after the write,
 * so what matters is whether a batch can ever hold one.
 */
module EngineKeys {
  import opened Rows
  import opened Keyset
  import opened Status
  import opened Engine
  import opened EngineProtocol
  import opened EngineProgress
  import opened EngineSafety
  import opened EngineRuns

  /** The batch size of the snapshot the runner works with. */
  function SizeOf(pc: Pc): nat {
    match pc
    case Starting(n, _) => n
    case Body(n, _, _) => n
    case Failing(n, _) => n
    case RolledBack(n, _) => n
    case Retrying(n, _) => n
    case Settling(n, _, _) => n
    case Closing(n, _, _) => n
    case _ => 0
  }

  /** Every snapshot of the history froze a batch size of at most `bound`. */
  predicate SizesUpTo(acts: seq<Action>, bound: nat) {
    forall i :: 0 <= i < |acts| && acts[i].Snapshot? ==> acts[i].n <= bound
  }

  lemma SizeStep(c: Config, s: Sys, a: Action, bound: nat)
    requires SizeOf(s.pc) <= bound && (a.Snapshot? ==> a.n <= bound)
    ensures SizeOf(Step(c, s, a).pc) <= bound
  {
  }

  lemma {:induction false} SizesAlways(c: Config, s0: Sys, acts: seq<Action>, bound: nat)
    requires Initial(s0) && SizesUpTo(acts, bound)
    ensures SizeOf(Exec(c, s0, acts).pc) <= bound
  {
    if acts != [] {
      SizesAlways(c, s0, acts[..|acts| - 1], bound);
      SizeStep(c, Exec(c, s0, acts[..|acts| - 1]), Last(acts), bound);
    }
  }

  ghost predicate AllKeyed(rows: seq<Row>) {
    forall r :: r in rows ==> r.ts.Some?
  }

  /**
   * When no batch can hold a row without a key: the first batch is filtered by a
   * stored checkpoint, there is no such row, or the keyed rows fill every first batch.
   */
  ghost predicate NullSafe(source: seq<Row>, ckpt: Option<Key>, acts: seq<Action>) {
    ckpt.Some? || AllKeyed(source) || SizesUpTo(acts, |Scan(source, None)|)
  }

  lemma NullSafeBefore(source: seq<Row>, ckpt: Option<Key>, acts: seq<Action>, more: seq<Action>)
    requires acts <= more && NullSafe(source, ckpt, more)
    ensures NullSafe(source, ckpt, acts)
  {
    assert forall i :: 0 <= i < |acts| ==> acts[i] == more[i];
  }

  /** The same guard for one batch query, exactly. */
  lemma PageKeyedExactly(source: seq<Row>, cursor: Option<Key>, n: nat)
    requires Distinct(source) && n >= 1
    ensures AllKeyed(Page(source, cursor, n))
       <==> cursor.Some? || AllKeyed(source) || n <= |Scan(source, None)|
  {
    PageFacts(source, cursor, n);
    if cursor.Some? {
      forall r | r in Page(source, cursor, n) ensures r.ts.Some? { WhereDropsNulls(r, cursor); }
    } else {
      NullInFirstBatch(source, n);
    }
  }

  lemma CheckpointStays(s0: Sys, s: Sys)
    requires AppliedOk(s0, s) && s0.ckpt.Some?
    ensures s.ckpt.Some?
  {
    if s.applied != [] {
      assert Last(s.applied) in s.applied;
    }
  }

  /** Under the guard no batch in flight ever holds a row without a key. */
  lemma {:induction false} FlightIsKeyed(c: Config, s0: Sys, acts: seq<Action>)
    requires Initial(s0) && NullSafe(s0.source, s0.ckpt, acts)
    requires Exec(c, s0, acts).changes == 0
    ensures AllKeyed(InFlight(Exec(c, s0, acts).pc))
  {
    if acts != [] {
      var before, a := acts[..|acts| - 1], Last(acts);
      var s := Exec(c, s0, before);
      ChangesGrow(c, s, a);
      FlightIsKeyed(c, s0, before);
      ProgressAlways(c, s0, before);
      if a == Fetch && Enabled(c, s, a) {
        if s0.ckpt.Some? {
          CheckpointStays(s0, s);
        } else if !AllKeyed(s0.source) {
          SizesAlways(c, s0, before, |Scan(s0.source, None)|);
        }
        PageKeyedExactly(s.source, s.ckpt, s.pc.n);
        FetchFlies(c, s);
      } else if a != Fetch {
        QuietPc(c, s, a);
      }
    }
  }

  lemma FetchFlies(c: Config, s: Sys)
    requires Enabled(c, s, Fetch)
    ensures InFlight(Step(c, s, Fetch).pc) == PageOf(s)
  {
  }

  // ---------- When the guard fails ----------

  /** From a queued pipeline to its first batch. */
  function Fetching(n: nat): seq<Action> {
    Opening(n) + ([Load] + [Fetch])
  }

  lemma LoadsAndFetches(c: Config, s: Sys, n: nat)
    requires s.pc == Body(n, 1, AtLoad)
    ensures var s', b := Exec(c, s, [Load] + [Fetch]), Page(s.source, s.ckpt, n);
      s' == s.(pc := Body(n, 1, if b == [] then AtDone(0, 0, true) else AtWrite(s.ckpt, |b|, 0, b)))
  {
    ExecTwo(c, s, Load, Fetch);
  }

  lemma FetchesFirstPage(c: Config, s0: Sys, n: nat)
    requires Initial(s0) && s0.pc.Idle? && s0.status == RUN_REQUESTED && c.enabled && n >= 1
    ensures var s, b := Exec(c, s0, Fetching(n)), Page(s0.source, s0.ckpt, n);
      && SizesUpTo(Fetching(n), n) && Keeps(s0, s) && s.changes == 0 && s.sink == s0.sink
      && s.ckpt == s0.ckpt && s.status == RUNNING
      && s.pc == Body(n, 1, if b == [] then AtDone(0, 0, true) else AtWrite(s0.ckpt, |b|, 0, b))
  {
    OpensRun(c, s0, n);
    LoadsAndFetches(c, Exec(c, s0, Opening(n)), n);
    ExecAppend(c, s0, Opening(n), [Load] + [Fetch]);
  }

  /**
   * The guard is exact: over all histories of a queued pipeline whose batch sizes
   * reach up to n, no batch holds a row without a key if and only if there is a
   * checkpoint, no such row, or n keyed rows.
   */
  lemma NullsStayOutExactly(c: Config, s0: Sys, n: nat)
    requires Initial(s0) && s0.pc.Idle? && s0.status == RUN_REQUESTED && c.enabled && n >= 1
    ensures (forall acts :: SizesUpTo(acts, n) && Exec(c, s0, acts).changes == 0 ==>
               AllKeyed(InFlight(Exec(c, s0, acts).pc)))
       <==> s0.ckpt.Some? || AllKeyed(s0.source) || n <= |Scan(s0.source, None)|
  {
    if s0.ckpt.Some? || AllKeyed(s0.source) || n <= |Scan(s0.source, None)| {
      forall acts | SizesUpTo(acts, n) && Exec(c, s0, acts).changes == 0
        ensures AllKeyed(InFlight(Exec(c, s0, acts).pc))
      {
        FlightIsKeyed(c, s0, acts);
      }
    } else {
      FetchesFirstPage(c, s0, n);
      PageKeyedExactly(s0.source, s0.ckpt, n);
      assert !AllKeyed(InFlight(Exec(c, s0, Fetching(n)).pc));
    }
  }

  // ---------- Runs that can never get to the end ----------

  /** The first page ends in a row without a key, so its batch can never be committed. */
  ghost predicate Hopeless(source: seq<Row>, n: nat) {
    var b := Page(source, None, n);
    n >= 1 && b != [] && Last(b).ts.None?
  }

  lemma HopelessExactly(source: seq<Row>, ckpt: Option<Key>, n: nat)
    requires Distinct(source) && n >= 1
    ensures Drain(source, ckpt, n).None? <==> ckpt.None? && Hopeless(source, n)
  {
    var b := Page(source, ckpt, n);
    PageFacts(source, ckpt, n);
    if ckpt.Some? {
      CursorRunsComplete(source, ckpt.value, n);
    } else if b != [] && Last(b).ts.Some? {
      CursorAdvances(source, None, n);
      CursorRunsComplete(source, KeyOf(Last(b)), n);
    }
  }

  ghost predicate AllHopeless(source: seq<Row>, acts: seq<Action>) {
    forall i :: 0 <= i < |acts| && acts[i].Snapshot? && acts[i].n >= 1 ==> Hopeless(source, acts[i].n)
  }

  /** No checkpoint, no drained run, and only batches that cannot be committed. */
  ghost predicate Blocked(source: seq<Row>, s: Sys) {
    && s.source == source && s.ckpt.None? && !Drained(s.pc)
    && (SizeOf(s.pc) == 0 || Hopeless(source, SizeOf(s.pc)))
    && (InFlight(s.pc) == [] || Last(InFlight(s.pc)).ts.None?)
  }

  lemma SizeComesFromSnapshot(c: Config, s: Sys, a: Action)
    ensures var n := SizeOf(Step(c, s, a).pc); n == SizeOf(s.pc) || n == 0 || (a == Snapshot(n) && n >= 1)
  {
  }

  lemma BlockedFetch(c: Config, source: seq<Row>, s: Sys)
    requires Proto(c, s) && Blocked(source, s) && Enabled(c, s, Fetch)
    ensures Blocked(source, Step(c, s, Fetch))
  {
    FetchFlies(c, s);
  }

  lemma BlockedStep(c: Config, source: seq<Row>, s: Sys, a: Action)
    requires Proto(c, s) && Blocked(source, s) && Step(c, s, a).changes == s.changes
    requires a.Snapshot? && a.n >= 1 ==> Hopeless(source, a.n)
    ensures Blocked(source, Step(c, s, a))
  {
    if a == Fetch && Enabled(c, s, a) {
      BlockedFetch(c, source, s);
    } else if a == Fetch {
    } else if IsSave(c, s, a) {
      assert false;
    } else {
      SizeComesFromSnapshot(c, s, a);
      QuietPc(c, s, a);
      CommitFrame(c, s, a);
    }
  }

  lemma {:induction false} BlockedAlways(c: Config, s0: Sys, acts: seq<Action>)
    requires Initial(s0) && s0.ckpt.None? && AllHopeless(s0.source, acts) && Exec(c, s0, acts).changes == 0
    ensures Blocked(s0.source, Exec(c, s0, acts))
  {
    if acts != [] {
      var before := acts[..|acts| - 1];
      var s := Exec(c, s0, before);
      ChangesGrow(c, s, Last(acts));
      BlockedAlways(c, s0, before);
      ProtoAlways(c, s0, before);
      BlockedStep(c, s0.source, s, Last(acts));
    }
  }

  lemma HopelessNeverFinishes(c: Config, s0: Sys, acts: seq<Action>, a: Action)
    requires Initial(s0) && s0.ckpt.None? && AllHopeless(s0.source, acts)
    ensures !Finishes(c, s0, acts, a)
  {
    if Finishes(c, s0, acts, a) {
      BlockedAlways(c, s0, acts);
      ProtoAlways(c, s0, acts);
      OnlyDrainedRunsFinish(c, Exec(c, s0, acts), a);
    }
  }

  // ---------- When a pipeline can finish ----------

  predicate SizesAre(acts: seq<Action>, n: nat) {
    forall i :: 0 <= i < |acts| && acts[i].Snapshot? ==> acts[i].n == n
  }

  /**
   * With a fixed batch size a queued pipeline can finish if and only if the
   * undisturbed sequence of its batches gets to the end, that is unless the first
   * page ends in a row without a key.
   */
  lemma CanFinishExactly(c: Config, s0: Sys, n: nat)
    requires Initial(s0) && s0.pc.Idle? && s0.status == RUN_REQUESTED && c.enabled && n >= 1
    ensures (exists acts, a :: SizesAre(acts, n) && Finishes(c, s0, acts, a))
       <==> Drain(s0.source, s0.ckpt, n).Some?
  {
    HopelessExactly(s0.source, s0.ckpt, n);
    if Drain(s0.source, s0.ckpt, n).Some? {
      UndisturbedRunFinishes(c, s0, n);
      UndisturbedSizes(s0.source, s0.ckpt, n);
      var acts := Undisturbed(s0.source, s0.ckpt, n);
      assert SizesAre(acts, n) && Finishes(c, s0, acts, Close);
    } else {
      forall acts, a | SizesAre(acts, n) ensures !Finishes(c, s0, acts, a) {
        HopelessNeverFinishes(c, s0, acts, a);
      }
    }
  }
}
