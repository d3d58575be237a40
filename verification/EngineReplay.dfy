/**
 * Replay absorption with the Elasticsearch sink: bulk requests run outside the
 * transaction and may be applied in part, yet a completed run leaves no trace
 * of them.
 */
module EngineReplay {
  import opened Rows
  import opened Keyset
  import opened Sinks
  import opened Engine
  import opened EngineProtocol
  import opened EngineProgress
  import opened EngineSafety
  import opened EngineKeys

  predicate Writes(c: Config, r: Row, cell: Cell) {
    cell in Written(c.out, [r])
  }

  /** A row above the checkpoint writes the cell, or a row without a key unless those are kept out. */
  ghost predicate Dirty(c: Config, source: seq<Row>, k: Option<Key>, safe: bool, cell: Cell) {
    exists r :: r in source && Writes(c, r, cell) && (Above(r, k) || (r.ts.None? && !safe))
  }

  ghost predicate CleanCellsAgree(c: Config, s0: Sys, sink: Sink, k: Option<Key>, safe: bool, rows: seq<Row>) {
    forall cell :: !Dirty(c, s0.source, k, safe, cell) ==> AgreeAt(sink, s0.sink + Written(c.out, rows), cell)
  }

  /** The batch that has been written but not committed. */
  function WrittenBatch(pc: Pc): seq<Row> {
    match pc
    case Body(_, _, AtMark(_, _, _, b)) => b
    case Body(_, _, AtSave(_, _, _, b)) => b
    case _ => []
  }

  ghost predicate Absorbed(c: Config, s0: Sys, s: Sys, safe: bool) {
    && CleanCellsAgree(c, s0, s.sink, s.ckpt, safe, s.applied)
    && var b := WrittenBatch(s.pc);
       b != [] && Last(b).ts.Some? ==>
         CleanCellsAgree(c, s0, s.sink, Some(KeyOf(Last(b))), safe, s.applied + b)
  }

  /** All cells of the batch in flight are dirty with respect to the checkpoint. */
  lemma BatchCellsAreDirty(c: Config, s0: Sys, s: Sys, b: seq<Row>, safe: bool)
    requires RowWise(c.out) && s.changes == 0 && SourceOk(s0, s) && BatchOk(s0, s, b) && (safe ==> AllKeyed(b))
    ensures forall cell :: cell in Written(c.out, b) ==> Dirty(c, s0.source, s.ckpt, safe, cell)
  {
    WrittenCells(c.out, b);
    forall cell | cell in Written(c.out, b) ensures Dirty(c, s0.source, s.ckpt, safe, cell) {
      var r :| r in b && cell in Written(c.out, [r]);
      WhereDropsNulls(r, s.ckpt);
      assert Writes(c, r, cell);
    }
  }

  /** What is dirty before the batch and clean after it is written by the batch. */
  lemma BatchCleans(c: Config, s0: Sys, s: Sys, b: seq<Row>, safe: bool, cell: Cell)
    requires RowWise(c.out) && s.changes == 0 && SourceOk(s0, s) && BatchOk(s0, s, b)
    requires b != [] && Last(b).ts.Some?
    requires Dirty(c, s0.source, s.ckpt, safe, cell)
    requires !Dirty(c, s0.source, Some(KeyOf(Last(b))), safe, cell)
    ensures cell in Written(c.out, b)
  {
    var r :| r in s0.source && Writes(c, r, cell) && (Above(r, s.ckpt) || (r.ts.None? && !safe));
    WhereDropsNulls(r, s.ckpt);
    WrittenCells(c.out, b);
    assert Tame(s0, s);
    assert !Above(r, Some(KeyOf(Last(b))));
    assert r in b;
  }

  /** An index write: the invariants, a static source, and a keyed batch if rows without a key are kept out. */
  ghost predicate Writing(c: Config, s0: Sys, s: Sys, safe: bool) {
    && c.es && RowWise(c.out) && Proto(c, s) && Progress(s0, s) && Absorbed(c, s0, s, safe)
    && s.changes == 0 && (safe ==> AllKeyed(InFlight(s.pc)))
  }

  lemma WriteAbsorbs(c: Config, s0: Sys, s: Sys, safe: bool)
    requires Writing(c, s0, s, safe) && Enabled(c, s, WriteBatch)
    ensures Absorbed(c, s0, Next(c, s, WriteBatch), safe)
  {
    var b := s.pc.at.batch;
    OldCellsAgree(c, s0, s, safe, Written(c.out, b));
    if Last(b).ts.Some? {
      NewCellsAgree(c, s0, s, safe, b);
    }
  }

  lemma NewCellsAgree(c: Config, s0: Sys, s: Sys, safe: bool, b: seq<Row>)
    requires Writing(c, s0, s, safe) && b == InFlight(s.pc) && b != [] && Last(b).ts.Some?
    ensures CleanCellsAgree(c, s0, s.sink + Written(c.out, b), Some(KeyOf(Last(b))), safe, s.applied + b)
  {
    var cells, k := Written(c.out, b), Some(KeyOf(Last(b)));
    WrittenAppend(c.out, s.applied, b);
    OverlayAssociates(s0.sink, Written(c.out, s.applied), cells);
    forall cell | !Dirty(c, s0.source, k, safe, cell)
      ensures AgreeAt(s.sink + cells, s0.sink + Written(c.out, s.applied + b), cell)
    {
      if cell !in cells {
        if Dirty(c, s0.source, s.ckpt, safe, cell) { BatchCleans(c, s0, s, b, safe, cell); }
        assert AgreeAt(s.sink, s0.sink + Written(c.out, s.applied), cell);
      }
    }
  }

  /** Cells of the batch in flight do not matter to the clean ones. */
  lemma OldCellsAgree(c: Config, s0: Sys, s: Sys, safe: bool, m: Sink)
    requires Writing(c, s0, s, safe) && m.Keys <= Written(c.out, InFlight(s.pc)).Keys
    ensures CleanCellsAgree(c, s0, s.sink + m, s.ckpt, safe, s.applied)
  {
    BatchCellsAreDirty(c, s0, s, InFlight(s.pc), safe);
    forall cell | !Dirty(c, s0.source, s.ckpt, safe, cell)
      ensures AgreeAt(s.sink + m, s0.sink + Written(c.out, s.applied), cell)
    {
      assert AgreeAt(s.sink, s0.sink + Written(c.out, s.applied), cell);
    }
  }

  lemma PartAbsorbs(c: Config, s0: Sys, s: Sys, m: Sink, safe: bool)
    requires Writing(c, s0, s, safe) && Enabled(c, s, BulkPart(m))
    ensures Absorbed(c, s0, Next(c, s, BulkPart(m)), safe)
  {
    OldCellsAgree(c, s0, s, safe, m);
  }

  /** The other actions never write to the index. */
  lemma IndexFrame(c: Config, s: Sys, a: Action)
    requires c.es && SessionOk(c, s) && !a.BulkPart? && !a.WriteBatch?
    ensures Step(c, s, a).sink == s.sink
  {
    if IsSave(c, s, a) {
      assert s.sink + map[] == s.sink;
    } else {
      SinkFrame(c, s, a);
    }
  }

  lemma NoNewWrittenBatch(c: Config, s: Sys, a: Action)
    requires !a.WriteBatch?
    ensures var b := WrittenBatch(Step(c, s, a).pc); b == [] || b == WrittenBatch(s.pc)
  {
  }

  lemma QuietAbsorbs(c: Config, s0: Sys, s: Sys, a: Action, safe: bool)
    requires Writing(c, s0, s, safe) && !a.WriteBatch? && !a.BulkPart? && !a.Save?
    ensures Absorbed(c, s0, Step(c, s, a), safe)
  {
    IndexFrame(c, s, a);
    NoNewWrittenBatch(c, s, a);
    CommitFrame(c, s, a);
  }

  lemma SaveAbsorbs(c: Config, s0: Sys, s: Sys, safe: bool)
    requires Writing(c, s0, s, safe) && Enabled(c, s, Save)
    ensures Absorbed(c, s0, Next(c, s, Save), safe)
  {
    IndexFrame(c, s, Save);
    NoNewWrittenBatch(c, s, Save);
  }

  lemma AbsorbStep(c: Config, s0: Sys, s: Sys, a: Action, safe: bool)
    requires Writing(c, s0, s, safe) && Step(c, s, a).changes == 0
    ensures Absorbed(c, s0, Step(c, s, a), safe)
  {
    if !Enabled(c, s, a) {
    } else if a.WriteBatch? {
      WriteAbsorbs(c, s0, s, safe);
    } else if a.BulkPart? {
      PartAbsorbs(c, s0, s, a.part, safe);
    } else if a.Save? {
      SaveAbsorbs(c, s0, s, safe);
    } else {
      QuietAbsorbs(c, s0, s, a, safe);
    }
  }

  lemma {:induction false} AbsorbAlways(c: Config, s0: Sys, acts: seq<Action>, safe: bool)
    requires Initial(s0) && c.es && RowWise(c.out)
    requires (safe ==> NullSafe(s0.source, s0.ckpt, acts)) && Exec(c, s0, acts).changes == 0
    ensures Absorbed(c, s0, Exec(c, s0, acts), safe)
  {
    if acts == [] {
      WrittenNothing(c.out);
      assert s0.sink + map[] == s0.sink;
    } else {
      var before := acts[..|acts| - 1];
      ChangesGrow(c, Exec(c, s0, before), Last(acts));
      AbsorbAlways(c, s0, before, safe);
      ProgressAlways(c, s0, before);
      if safe {
        FlightIsKeyed(c, s0, before);
      }
      AbsorbStep(c, s0, Exec(c, s0, before), Last(acts), safe);
    }
  }

  // ---------- Main results ----------

  /** Rows without a key cannot get into the sink: it is transactional, or no batch of the history can hold one. */
  ghost predicate Safe(c: Config, s0: Sys, acts: seq<Action>) {
    !c.es || NullSafe(s0.source, s0.ckpt, acts)
  }

  /** A row without a key writes the cell, and such rows are not kept out. */
  ghost predicate Muddied(c: Config, source: seq<Row>, safe: bool, cell: Cell) {
    !safe && exists r :: r in source && r.ts.None? && Writes(c, r, cell)
  }

  /** The sinks agree on every cell that is not muddied, hence are equal when no cell can be. */
  ghost predicate Agree(c: Config, source: seq<Row>, safe: bool, a: Sink, b: Sink) {
    && (forall cell :: !Muddied(c, source, safe, cell) ==> AgreeAt(a, b, cell))
    && (safe ==> a == b)
  }

  lemma EqualAgree(c: Config, source: seq<Row>, safe: bool, a: Sink, b: Sink)
    requires forall cell :: !Muddied(c, source, safe, cell) ==> AgreeAt(a, b, cell)
    ensures Agree(c, source, safe, a, b)
  {
    if safe {
      assert forall cell :: !Muddied(c, source, safe, cell);
      AgreeEverywhere(a, b);
    }
  }

  lemma AgreeWeaken(c: Config, source: seq<Row>, safe: bool, less: bool, a: Sink, b: Sink)
    requires Agree(c, source, safe, a, b) && (less ==> safe)
    ensures Agree(c, source, less, a, b)
  {
  }

  lemma AgreeJoin(c: Config, source: seq<Row>, safe: bool, a: Sink, b: Sink, d: Sink)
    requires Agree(c, source, safe, a, d) && Agree(c, source, safe, b, d)
    ensures Agree(c, source, safe, a, b)
  {
    forall cell | !Muddied(c, source, safe, cell) ensures AgreeAt(a, b, cell) {
      assert AgreeAt(a, d, cell) && AgreeAt(b, d, cell);
    }
  }

  /**
   * Replay absorption: at every moment of every history, every cell that no row
   * above the checkpoint writes holds the fold of the committed rows; of cells that a
   * row without a key writes this is so if such rows are kept out.
   */
  lemma ReplayAbsorption(c: Config, s0: Sys, acts: seq<Action>, cell: Cell)
    requires Initial(s0) && c.es && RowWise(c.out) && Exec(c, s0, acts).changes == 0
    requires forall r :: r in s0.source && Above(r, Exec(c, s0, acts).ckpt) ==> !Writes(c, r, cell)
    requires !Muddied(c, s0.source, Safe(c, s0, acts), cell)
    ensures var s := Exec(c, s0, acts);
      AgreeAt(s.sink, s0.sink + Written(c.out, Between(s0.source, s0.ckpt, s.ckpt)), cell)
  {
    var s, safe := Exec(c, s0, acts), Safe(c, s0, acts);
    ProgressAlways(c, s0, acts);
    AbsorbAlways(c, s0, acts, safe);
    AppliedIsBetween(s0, s);
    assert !Dirty(c, s0.source, s.ckpt, safe, cell);
  }

  /** With nothing above the checkpoint the sink is the fold of the committed rows. */
  lemma CleanSink(c: Config, s0: Sys, acts: seq<Action>)
    requires Initial(s0) && RowWise(c.out) && Exec(c, s0, acts).changes == 0
    requires forall r :: r in s0.source ==> !Above(r, Exec(c, s0, acts).ckpt)
    ensures var s := Exec(c, s0, acts);
      Agree(c, s0.source, Safe(c, s0, acts), s.sink, s0.sink + Written(c.out, s.applied))
  {
    var s, safe := Exec(c, s0, acts), Safe(c, s0, acts);
    if c.es {
      AbsorbAlways(c, s0, acts, safe);
      forall cell | !Muddied(c, s0.source, safe, cell)
        ensures AgreeAt(s.sink, s0.sink + Written(c.out, s.applied), cell)
      {
        assert !Dirty(c, s0.source, s.ckpt, safe, cell);
      }
    } else {
      SinkAlways(c, s0, acts);
    }
    EqualAgree(c, s0.source, safe, s.sink, s0.sink + Written(c.out, s.applied));
  }

  /** A run that has found no more rows has the whole scan in the sink, for either sink. */
  lemma DrainedSink(c: Config, s0: Sys, acts: seq<Action>)
    requires Initial(s0) && RowWise(c.out)
    requires Exec(c, s0, acts).changes == 0 && Drained(Exec(c, s0, acts).pc)
    ensures Agree(c, s0.source, Safe(c, s0, acts), Exec(c, s0, acts).sink,
                  s0.sink + Written(c.out, Scan(s0.source, s0.ckpt)))
  {
    ProgressAlways(c, s0, acts);
    DrainedIsScan(s0, Exec(c, s0, acts));
    CleanSink(c, s0, acts);
  }

  /** A completed run erases all trace of partial bulks, except of rows without a key that were let in. */
  lemma EndToEndIndex(c: Config, s0: Sys, acts: seq<Action>, a: Action)
    requires Initial(s0) && c.es && RowWise(c.out) && Finishes(c, s0, acts, a)
    ensures Agree(c, s0.source, NullSafe(s0.source, s0.ckpt, acts), Step(c, Exec(c, s0, acts), a).sink,
                  s0.sink + Written(c.out, Scan(s0.source, s0.ckpt)))
  {
    var s := Exec(c, s0, acts);
    ProgressAlways(c, s0, acts);
    OnlyDrainedRunsFinish(c, s, a);
    DrainedSink(c, s0, acts);
    IndexFrame(c, s, a);
  }

  lemma FinishedSink(c: Config, s0: Sys, acts: seq<Action>, a: Action)
    requires Initial(s0) && RowWise(c.out) && Finishes(c, s0, acts, a)
    ensures Agree(c, s0.source, Safe(c, s0, acts), Step(c, Exec(c, s0, acts), a).sink,
                  s0.sink + Written(c.out, Scan(s0.source, s0.ckpt)))
  {
    if c.es {
      EndToEndIndex(c, s0, acts, a);
    } else {
      EndToEnd(c, s0, acts, a);
    }
  }

  ghost predicate SameOutcome(c: Config, safe: bool, s1: Sys, s2: Sys) {
    s1.ckpt == s2.ckpt && s1.applied == s2.applied && Agree(c, s1.source, safe, s1.sink, s2.sink)
  }

  /**
   * Pausing, failing or crashing on the way makes no difference, for either sink: any
   * two histories that finish end alike, whatever their batch sizes, except for what
   * rows without a key leave in an index.
   */
  lemma CompleteHistoriesAgree(c: Config, s0: Sys)
    requires Initial(s0) && RowWise(c.out)
    ensures forall acts1, a1, acts2, a2 :: Finishes(c, s0, acts1, a1) && Finishes(c, s0, acts2, a2) ==>
      SameOutcome(c, Safe(c, s0, acts1) && Safe(c, s0, acts2),
                  Step(c, Exec(c, s0, acts1), a1), Step(c, Exec(c, s0, acts2), a2))
  {
    forall acts1, a1, acts2, a2 | Finishes(c, s0, acts1, a1) && Finishes(c, s0, acts2, a2)
      ensures SameOutcome(c, Safe(c, s0, acts1) && Safe(c, s0, acts2),
                          Step(c, Exec(c, s0, acts1), a1), Step(c, Exec(c, s0, acts2), a2))
    {
      TwoFinished(c, s0, acts1, a1, acts2, a2);
    }
  }

  lemma TwoFinished(c: Config, s0: Sys, acts1: seq<Action>, a1: Action, acts2: seq<Action>, a2: Action)
    requires Initial(s0) && RowWise(c.out) && Finishes(c, s0, acts1, a1) && Finishes(c, s0, acts2, a2)
    ensures SameOutcome(c, Safe(c, s0, acts1) && Safe(c, s0, acts2),
                        Step(c, Exec(c, s0, acts1), a1), Step(c, Exec(c, s0, acts2), a2))
  {
    var s1, s2 := Step(c, Exec(c, s0, acts1), a1), Step(c, Exec(c, s0, acts2), a2);
    var safe, full := Safe(c, s0, acts1) && Safe(c, s0, acts2), s0.sink + Written(c.out, Scan(s0.source, s0.ckpt));
    FinishedSink(c, s0, acts1, a1);
    FinishedSink(c, s0, acts2, a2);
    AgreeWeaken(c, s0.source, Safe(c, s0, acts1), safe, s1.sink, full);
    AgreeWeaken(c, s0.source, Safe(c, s0, acts2), safe, s2.sink, full);
    AgreeJoin(c, s0.source, safe, s1.sink, s2.sink, full);
    FinishState(c, s0, acts1, a1);
    FinishState(c, s0, acts2, a2);
    FinishSource(c, s0, acts1, a1);
  }

  lemma FinishSource(c: Config, s0: Sys, acts: seq<Action>, a: Action)
    requires Initial(s0) && Finishes(c, s0, acts, a)
    ensures Step(c, Exec(c, s0, acts), a).source == s0.source
  {
    var s := Exec(c, s0, acts);
    ProgressAlways(c, s0, acts);
    OnlyDrainedRunsFinish(c, s, a);
    CommitFrame(c, s, a);
  }

  /** A drained source has no batch to write: what is in flight would lie above the checkpoint. */
  lemma NothingToWrite(c: Config, s0: Sys, s: Sys, a: Action)
    requires Proto(c, s) && Progress(s0, s) && s.changes == 0 && AllKeyed(InFlight(s.pc))
    requires forall r :: r in s0.source ==> !Above(r, s.ckpt)
    ensures a.WriteBatch? || a.BulkPart? ==> !Enabled(c, s, a)
  {
    var b := InFlight(s.pc);
    if b != [] {
      assert b[0] in b;
      WhereDropsNulls(b[0], s.ckpt);
    }
  }

  lemma SilentStep(c: Config, s: Sys, a: Action)
    requires SessionOk(c, s) && !IsSave(c, s, a)
    requires c.es && (a.WriteBatch? || a.BulkPart?) ==> !Enabled(c, s, a)
    ensures Step(c, s, a).sink == s.sink
  {
    if Enabled(c, s, a) {
      SinkFrame(c, s, a);
    }
  }

  lemma {:induction false} SilentAlways(c: Config, s0: Sys, acts: seq<Action>)
    requires Initial(s0) && Safe(c, s0, acts)
    requires forall r :: r in s0.source ==> !Above(r, s0.ckpt)
    requires Exec(c, s0, acts).changes == 0
    ensures Exec(c, s0, acts).sink == s0.sink
  {
    if acts != [] {
      var before, a := acts[..|acts| - 1], Last(acts);
      var s := Exec(c, s0, before);
      ChangesGrow(c, s, a);
      SilentAlways(c, s0, before);
      ProgressAlways(c, s0, before);
      DrainedCommitsNothing(c, s0, before);
      DrainedCommitsNothing(c, s0, acts);
      if IsSave(c, s, a) {
        SaveCommits(c, s);
      }
      if c.es {
        FlightIsKeyed(c, s0, before);
        NothingToWrite(c, s0, s, a);
      }
      SilentStep(c, s, a);
    }
  }

  /**
   * A history over an unchanged drained source commits nothing and leaves checkpoint and
   * sink alone, for any transform; with an index that rows without a key can get into, a
   * row-wise output leaves the cells alone that they do not write.
   */
  lemma DrainedRerunIsSilent(c: Config, s0: Sys, acts: seq<Action>)
    requires Initial(s0)
    requires forall r :: r in s0.source ==> !Above(r, s0.ckpt)
    requires Exec(c, s0, acts).changes == 0
    ensures var s := Exec(c, s0, acts);
      && s.applied == [] && s.ckpt == s0.ckpt
      && (Safe(c, s0, acts) ==> s.sink == s0.sink)
      && (RowWise(c.out) ==> Agree(c, s0.source, Safe(c, s0, acts), s.sink, s0.sink))
  {
    DrainedCommitsNothing(c, s0, acts);
    if Safe(c, s0, acts) {
      SilentAlways(c, s0, acts);
    }
    if RowWise(c.out) {
      CleanSink(c, s0, acts);
      WrittenNothing(c.out);
      assert s0.sink + map[] == s0.sink;
    }
  }
}
