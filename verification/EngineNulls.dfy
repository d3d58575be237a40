/**
 * Rows without a key and the index.  Whether they are kept out decides whether a
 * finished pipeline has erased every trace of what it did on the way.
 */
module EngineNulls {
  import opened Rows
  import opened Keyset
  import opened Sinks
  import opened Status
  import opened Engine
  import opened EngineProtocol
  import opened EngineSafety
  import opened EngineRuns
  import opened EngineKeys
  import opened EngineReplay
  import opened EngineConverge

  /** Under the guard, rows without a key leave no trace: a cell only they would write keeps its value. */
  lemma NullsLeaveNoTrace(c: Config, s0: Sys, acts: seq<Action>, cell: Cell)
    requires Initial(s0) && c.es && RowWise(c.out)
    requires NullSafe(s0.source, s0.ckpt, acts) && Exec(c, s0, acts).changes == 0
    requires forall r :: r in s0.source && r.ts.Some? ==> !Writes(c, r, cell)
    ensures AgreeAt(Exec(c, s0, acts).sink, s0.sink, cell)
  {
    var s := Exec(c, s0, acts);
    ReplayAbsorption(c, s0, acts, cell);
    var rows := Between(s0.source, s0.ckpt, s.ckpt);
    BetweenFacts(s0.source, s0.ckpt, s.ckpt);
    WrittenCells(c.out, rows);
    assert forall r :: r in rows ==> !Writes(c, r, cell);
  }

  // ---------- Without the guard ----------

  lemma WritesIndex(c: Config, s: Sys)
    requires c.es && Enabled(c, s, WriteBatch)
    ensures var s', b := Step(c, s, WriteBatch), s.pc.at.batch;
      && s'.sink == s.sink + Written(c.out, b) && s'.source == s.source && s'.changes == s.changes
      && s'.pend == s.pend && s'.ckpt == s.ckpt && s'.status == s.status
      && s'.pc.Body? && s'.pc.n == s.pc.n && s'.pc.at.AtMark? && s'.pc.at.batch == b
  {
  }

  /** From a queued pipeline to the write of its first batch. */
  function FirstWrite(n: nat): seq<Action> {
    Fetching(n) + [WriteBatch]
  }

  lemma FirstPageWritten(c: Config, s0: Sys, n: nat)
    requires Initial(s0) && s0.pc.Idle? && s0.status == RUN_REQUESTED && c.enabled && n >= 1
    requires c.es && Page(s0.source, s0.ckpt, n) != []
    ensures var s, b := Exec(c, s0, FirstWrite(n)), Page(s0.source, s0.ckpt, n);
      && s.sink == s0.sink + Written(c.out, b) && Keeps(s0, s) && s.ckpt == s0.ckpt && s.status == RUNNING
      && s.pc.Body? && s.pc.at.AtMark? && s.pc.at.batch == b
  {
    FetchesFirstPage(c, s0, n);
    ExecSnoc(c, s0, Fetching(n), WriteBatch);
    WritesIndex(c, Exec(c, s0, Fetching(n)));
  }

  /** No row of a page overwrites another row of it. */
  lemma PagePresent(c: Config, source: seq<Row>, k: Option<Key>, n: nat, sink: Sink, r: Row)
    requires RowWise(c.out) && Owns(c.out) && Distinct(source) && DistinctIds(source) && n >= 1
    requires r in Page(source, k, n)
    ensures Present(c, sink + Written(c.out, Page(source, k, n)), r)
  {
    PageFacts(source, k, n);
    PageIds(source, Page(source, k, n));
    BatchHoldsRow(c, Page(source, k, n), r);
  }

  /**
   * Without the guard a row without a key gets into the index: with no checkpoint, such
   * a row in the source and a batch size above the number of keyed rows, the first
   * batch holds one, is written as a whole, and can never be committed.
   */
  lemma NullRowReachesIndex(c: Config, s0: Sys, n: nat)
    requires Initial(s0) && s0.pc.Idle? && s0.status == RUN_REQUESTED && c.enabled
    requires c.es && RowWise(c.out)
    requires s0.ckpt.None? && !AllKeyed(s0.source) && n > |Scan(s0.source, None)|
    ensures var s, b := Exec(c, s0, FirstWrite(n)), Page(s0.source, None, n);
      && s.sink == s0.sink + Written(c.out, b) && !AllKeyed(b) && !Enabled(c, s, Mark)
      && (Owns(c.out) && DistinctIds(s0.source) ==> forall r :: r in b ==> Present(c, s.sink, r))
  {
    var b := Page(s0.source, None, n);
    var _ := NullInPage(s0.source, n);
    FirstPageWritten(c, s0, n);
    if Owns(c.out) && DistinctIds(s0.source) {
      forall r | r in b ensures Present(c, s0.sink + Written(c.out, b), r) {
        PagePresent(c, s0.source, None, n, s0.sink, r);
      }
    }
  }

  lemma NullInPage(source: seq<Row>, n: nat) returns (r: Row)
    requires Distinct(source) && n >= 1 && !AllKeyed(source) && n > |Scan(source, None)|
    ensures var b := Page(source, None, n); r in b && r in source && r.ts.None? && Last(b).ts.None?
  {
    var b := Page(source, None, n);
    PageKeyedExactly(source, None, n);
    PageFacts(source, None, n);
    r :| r in b && r.ts.None?;
    if Last(b).ts.Some? { KeyedBatch(b, None); }
  }

  // ---------- ... and can stay there although the pipeline finishes ----------

  const RECOVERED := [Crash] + ([Restart] + [Recover])

  lemma CrashesAndRecovers(c: Config, s: Sys)
    requires s.status == RUNNING && s.pend == CLEAN && s.pc.Body?
    ensures var s' := Exec(c, s, RECOVERED);
      && s'.status == RUN_REQUESTED && s'.pc == Idle && Keeps(s, s') && s'.ckpt == s.ckpt && s'.sink == s.sink
  {
    Crashes(c, s);
    ExecOne(c, s, Crash);
    ExecAppend(c, s, [Crash], [Restart] + [Recover]);
    Recovers(c, s.(pc := Down));
  }

  lemma Crashes(c: Config, s: Sys)
    requires s.pend == CLEAN && s.pc.Body?
    ensures Step(c, s, Crash) == s.(pc := Down)
  {
  }

  lemma Recovers(c: Config, s: Sys)
    requires s.status == RUNNING && s.pend == CLEAN && s.pc.Down?
    ensures var s' := Exec(c, s, [Restart] + [Recover]);
      && s'.status == RUN_REQUESTED && s'.pc == Idle && Keeps(s, s') && s'.ckpt == s.ckpt && s'.sink == s.sink
  {
    CommitClean(s.(runs := FailRunning(s.runs), status := RUN_REQUESTED, pc := Recovering(true)));
    ExecTwo(c, s, Restart, Recover);
  }

  /** A large batch is written and lost in a crash; then the batch size is lowered, and the pipeline runs to its end. */
  function Muddying(source: seq<Row>, n: nat): seq<Action>
    requires Distinct(source) && Drain(source, None, 1).Some?
  {
    (FirstWrite(n) + RECOVERED) + Undisturbed(source, None, 1)
  }

  lemma MuddyingSizes(source: seq<Row>, n: nat)
    requires Distinct(source) && Drain(source, None, 1).Some? && n >= 1
    ensures SizesUpTo(Muddying(source, n), n)
  {
    UndisturbedSizes(source, None, 1);
    var rest := Undisturbed(source, None, 1);
    assert forall i :: 0 <= i < |rest| ==> rest[i] in rest;
  }

  /**
   * The finishing history: what the lost batch wrote stays under the scan, rows
   * without a key included.
   */
  lemma NullRowStaysAfterFinish(c: Config, s0: Sys, n: nat)
    requires Initial(s0) && s0.pc.Idle? && s0.status == RUN_REQUESTED && c.enabled
    requires c.es && RowWise(c.out)
    requires s0.ckpt.None? && !AllKeyed(s0.source) && n > |Scan(s0.source, None)| >= 1
    ensures Drain(s0.source, None, 1).Some?
    ensures var acts := Muddying(s0.source, n);
      && SizesUpTo(acts, n) && Finishes(c, s0, acts, Close)
      && Step(c, Exec(c, s0, acts), Close).sink
         == (s0.sink + Written(c.out, Page(s0.source, None, n))) + Written(c.out, Scan(s0.source, None))
  {
    var written, again := Exec(c, s0, FirstWrite(n)), Exec(c, s0, FirstWrite(n) + RECOVERED);
    var _ := NullInPage(s0.source, n);
    FirstRunCompletes(s0.source, 1);
    MuddyingSizes(s0.source, n);
    FirstPageWritten(c, s0, n);
    CrashesAndRecovers(c, written);
    ExecAppend(c, s0, FirstWrite(n), RECOVERED);
    UndisturbedRunFinishes(c, again, 1);
    ExecAppend(c, s0, FirstWrite(n) + RECOVERED, Undisturbed(s0.source, None, 1));
  }

  // ---------- The exact condition ----------

  /** Writing the scan does not touch a row without a key. */
  lemma ScanSparesNull(c: Config, source: seq<Row>, sink: Sink, r: Row)
    requires RowWise(c.out) && Owns(c.out) && Distinct(source) && DistinctIds(source)
    requires r in source && r.ts.None?
    ensures Present(c, sink, r) <==> Present(c, sink + Written(c.out, Scan(source, None)), r)
  {
    var scan := Scan(source, None);
    ScanFacts(source, None);
    forall x | x in scan ensures x.id != r.id {
      if x.id == r.id { DistinctMembers(source, x, r); }
    }
    WrittenCells(c.out, scan);
    forall cell | cell in Written(c.out, [r]) ensures cell !in Written(c.out, scan) {
      assert forall x :: x in scan ==> cell !in Written(c.out, [x]);
    }
  }

  /** Every finished history with batch sizes up to n ends with exactly the scan over the initial index. */
  ghost predicate FinishesClean(c: Config, s0: Sys, n: nat) {
    forall acts, a :: SizesUpTo(acts, n) && Finishes(c, s0, acts, a) ==>
      Step(c, Exec(c, s0, acts), a).sink == s0.sink + Written(c.out, Scan(s0.source, s0.ckpt))
  }

  /** When that can be relied on: rows without a key are kept out, or no history can finish at all. */
  ghost predicate KeptClean(source: seq<Row>, ckpt: Option<Key>, n: nat) {
    ckpt.Some? || AllKeyed(source) || n <= |Scan(source, None)| || Scan(source, None) == []
  }

  lemma NothingKeyedIsHopeless(source: seq<Row>, n: nat)
    requires Distinct(source) && !AllKeyed(source) && Scan(source, None) == [] && n >= 1
    ensures Hopeless(source, n)
  {
    PageFacts(source, None, n);
    ScanFacts(source, None);
    var b := Page(source, None, n);
    var r :| r in source && r.ts.None?;
    assert Passes(r, None);
    assert b != [];
    assert Last(b) in b;
    assert Last(b) !in Scan(source, None);
  }

  lemma KeptCleanSuffices(c: Config, s0: Sys, n: nat, acts: seq<Action>, a: Action)
    requires Initial(s0) && c.es && RowWise(c.out) && KeptClean(s0.source, s0.ckpt, n)
    requires SizesUpTo(acts, n) && Finishes(c, s0, acts, a)
    ensures Step(c, Exec(c, s0, acts), a).sink == s0.sink + Written(c.out, Scan(s0.source, s0.ckpt))
  {
    if !NullSafe(s0.source, s0.ckpt, acts) {
      forall m: nat | m >= 1 ensures Hopeless(s0.source, m) {
        NothingKeyedIsHopeless(s0.source, m);
      }
      HopelessNeverFinishes(c, s0, acts, a);
    } else {
      EndToEndIndex(c, s0, acts, a);
    }
  }

  lemma KeptCleanIsNeeded(c: Config, s0: Sys, n: nat)
    requires Initial(s0) && s0.pc.Idle? && s0.status == RUN_REQUESTED && c.enabled && n >= 1
    requires c.es && RowWise(c.out) && Owns(c.out) && DistinctIds(s0.source)
    requires forall r :: r in s0.source && r.ts.None? ==> !Present(c, s0.sink, r)
    requires !KeptClean(s0.source, s0.ckpt, n)
    ensures !FinishesClean(c, s0, n)
  {
    var r := NullInPage(s0.source, n);
    var first := s0.sink + Written(c.out, Page(s0.source, None, n));
    NullRowStaysAfterFinish(c, s0, n);
    PagePresent(c, s0.source, None, n, s0.sink, r);
    ScanSparesNull(c, s0.source, first, r);
    ScanSparesNull(c, s0.source, s0.sink, r);
  }

  /**
   * End-to-end safety of the index, exactly.  For a queued pipeline whose index does
   * not hold the rows without a key beforehand: every finished history with batch
   * sizes up to n ends with exactly the scan in the index if and only if there is a
   * checkpoint, no row without a key, n keyed rows, or no keyed row at all.
   */
  lemma EndToEndIndexExactly(c: Config, s0: Sys, n: nat)
    requires Initial(s0) && s0.pc.Idle? && s0.status == RUN_REQUESTED && c.enabled && n >= 1
    requires c.es && RowWise(c.out) && Owns(c.out) && DistinctIds(s0.source)
    requires forall r :: r in s0.source && r.ts.None? ==> !Present(c, s0.sink, r)
    ensures FinishesClean(c, s0, n) <==> KeptClean(s0.source, s0.ckpt, n)
  {
    if KeptClean(s0.source, s0.ckpt, n) {
      forall acts, a | SizesUpTo(acts, n) && Finishes(c, s0, acts, a)
        ensures Step(c, Exec(c, s0, acts), a).sink == s0.sink + Written(c.out, Scan(s0.source, s0.ckpt))
      {
        KeptCleanSuffices(c, s0, n, acts, a);
      }
    } else {
      KeptCleanIsNeeded(c, s0, n);
    }
  }
}
