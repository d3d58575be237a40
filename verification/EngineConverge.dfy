/**
 * Convergence on a changing source: rows may be inserted, or touched, at any
 * moment as long as the new key lies above every existing key.
 */
module EngineConverge {
  import opened Rows
  import opened Keyset
  import opened Sinks
  import opened Engine
  import opened EngineProtocol
  import opened EngineProgress

  /** Rows with different ids write different documents. */
  ghost predicate Owns(out: Output) {
    forall r1: Row, r2: Row :: r1.id != r2.id ==> Written(out, [r1]).Keys !! Written(out, [r2]).Keys
  }

  ghost predicate DistinctIds(s: seq<Row>) {
    forall i, j :: 0 <= i < j < |s| ==> s[i].id != s[j].id
  }

  ghost predicate Holds(sink: Sink, m: Sink) {
    forall cell :: cell in m ==> cell in sink && sink[cell] == m[cell]
  }

  /** The row's current transformed value is in the sink. */
  ghost predicate Present(c: Config, sink: Sink, r: Row) {
    Holds(sink, Written(c.out, [r]))
  }

  /** Every current row at or below the checkpoint is in the sink. */
  ghost predicate Converged(c: Config, s: Sys) {
    forall r :: r in s.source && r.ts.Some? && !Above(r, s.ckpt) ==> Present(c, s.sink, r)
  }

  /** A newer version of a row in the batch lies above the batch. */
  ghost predicate BatchIds(s: Sys, b: seq<Row>) {
    && DistinctIds(b)
    && (b != [] && Last(b).ts.Some? ==>
          forall r, v :: r in b && v in s.source && r.id == v.id && r != v ==>
            v.ts.Some? && KeyLess(KeyOf(Last(b)), KeyOf(v)))
  }

  /** Between its write and its commit an Elasticsearch batch is already in the index. */
  ghost predicate BatchWritten(c: Config, s: Sys) {
    match s.pc
    case Body(_, _, AtMark(_, _, _, b)) => c.es ==> Holds(s.sink, Written(c.out, b))
    case Body(_, _, AtSave(_, _, _, b)) => c.es ==> Holds(s.sink, Written(c.out, b))
    case _ => true
  }

  ghost predicate Fresh(c: Config, s: Sys) {
    DistinctIds(s.source) && Converged(c, s) && BatchIds(s, InFlight(s.pc)) && BatchWritten(c, s)
  }

  lemma DistinctMembers(s: seq<Row>, r: Row, v: Row)
    requires DistinctIds(s) && r in s && v in s && r.id == v.id
    ensures r == v
  {
  }

  /** Within one batch no row overwrites another. */
  lemma {:induction false} BatchHoldsRow(c: Config, b: seq<Row>, r: Row)
    requires RowWise(c.out) && Owns(c.out) && DistinctIds(b) && r in b
    ensures Present(c, Written(c.out, b), r)
  {
    var rest := b[..|b| - 1];
    assert b == rest + [Last(b)];
    WrittenAppend(c.out, rest, [Last(b)]);
    if r != Last(b) {
      BatchHoldsRow(c, rest, r);
      var i :| 0 <= i < |rest| && rest[i] == r;
      assert b[i].id != b[|b| - 1].id;
    }
  }

  /** Overlaying a batch keeps the value of a row none of whose versions is in the batch. */
  lemma OverlayKeepsRow(c: Config, sink: Sink, b: seq<Row>, m: Sink, v: Row)
    requires RowWise(c.out) && Owns(c.out) && m.Keys <= Written(c.out, b).Keys
    requires forall r :: r in b ==> r.id != v.id
    requires Present(c, sink, v)
    ensures Present(c, sink + m, v)
  {
    WrittenCells(c.out, b);
    forall cell | cell in Written(c.out, [v]) ensures cell !in m {
      assert forall r :: r in b ==> cell !in Written(c.out, [r]);
    }
  }

  /** A row at or below the checkpoint has no version in the batch above it. */
  lemma NotInBatch(s0: Sys, s: Sys, b: seq<Row>, v: Row)
    requires BatchOk(s0, s, b) && BatchIds(s, b) && b != []
    requires v in s.source && v.ts.Some? && !Above(v, s.ckpt)
    ensures forall r :: r in b ==> r.id != v.id
  {
    forall r | r in b ensures r.id != v.id {
      WhereDropsNulls(r, s.ckpt);
      WhereDropsNulls(Last(b), s.ckpt);
      assert Last(b) in b;
      if Last(b).ts.Some? { KeyedBatch(b, s.ckpt); }
    }
  }

  /** A write to the index, whole or partial, keeps what has converged. */
  lemma IndexWriteKeeps(c: Config, s0: Sys, s: Sys, m: Sink)
    requires RowWise(c.out) && Owns(c.out) && Progress(s0, s) && Fresh(c, s)
    requires s.pc.Body? && s.pc.at.AtWrite? && s.pc.at.batch != []
    requires m.Keys <= Written(c.out, s.pc.at.batch).Keys
    ensures Converged(c, s.(sink := s.sink + m))
  {
    var b := s.pc.at.batch;
    forall v | v in s.source && v.ts.Some? && !Above(v, s.ckpt) ensures Present(c, s.sink + m, v) {
      NotInBatch(s0, s, b, v);
      OverlayKeepsRow(c, s.sink, b, m, v);
    }
  }

  lemma SaveKeeps(c: Config, s0: Sys, s: Sys)
    requires RowWise(c.out) && Owns(c.out) && Grounded(s0.source, s0.ckpt)
    requires Proto(c, s) && Progress(s0, s) && Fresh(c, s) && Enabled(c, s, Save)
    ensures Converged(c, Next(c, s, Save))
  {
    var b, s' := s.pc.at.batch, Next(c, s, Save);
    KeyedBatch(b, s.ckpt);
    forall v | v in s'.source && v.ts.Some? && !Above(v, s'.ckpt) ensures Present(c, s'.sink, v) {
      if Above(v, s.ckpt) {
        WhereDropsNulls(v, s.ckpt);
        BatchHoldsRow(c, b, v);
      } else {
        NotInBatch(s0, s, b, v);
        OverlayKeepsRow(c, s.sink, b, s.pend.writes, v);
      }
    }
  }

  lemma PageIds(source: seq<Row>, b: seq<Row>)
    requires DistinctIds(source) && Sorted(b) && forall r :: r in b ==> r in source
    ensures DistinctIds(b)
    ensures forall r, v :: r in b && v in source && r.id == v.id ==> r == v
  {
    forall r, v | r in b && v in source && r.id == v.id ensures r == v {
      DistinctMembers(source, r, v);
    }
    forall i, j | 0 <= i < j < |b| ensures b[i].id != b[j].id {
      assert Before(b[i], b[j]) && b[i] in b && b[j] in b;
    }
  }

  lemma FetchShape(c: Config, s: Sys)
    requires Enabled(c, s, Fetch)
    ensures var s' := Next(c, s, Fetch);
      && s'.source == s.source && s'.ckpt == s.ckpt && s'.sink == s.sink
      && InFlight(s'.pc) == PageOf(s) && BatchWritten(c, s')
  {
  }

  lemma FetchKeeps(c: Config, s0: Sys, s: Sys)
    requires Proto(c, s) && Progress(s0, s) && Fresh(c, s) && Enabled(c, s, Fetch)
    ensures Fresh(c, Next(c, s, Fetch))
  {
    FetchShape(c, s);
    PageFacts(s.source, s.ckpt, s.pc.n);
    PageIds(s.source, PageOf(s));
    FreshBatch(c, s, Next(c, s, Fetch));
  }

  lemma FreshBatch(c: Config, s: Sys, s': Sys)
    requires Fresh(c, s) && s'.source == s.source && s'.ckpt == s.ckpt && s'.sink == s.sink && BatchWritten(c, s')
    requires DistinctIds(InFlight(s'.pc))
    requires forall r, v :: r in InFlight(s'.pc) && v in s.source && r.id == v.id ==> r == v
    ensures Fresh(c, s')
  {
  }

  lemma ChangeKeeps(c: Config, s0: Sys, s: Sys, a: Action)
    requires Grounded(s0.source, s0.ckpt) && Proto(c, s) && Progress(s0, s) && Fresh(c, s)
    requires Enabled(c, s, a) && (a.InsertRow? || a.TouchRow?)
    ensures Fresh(c, Next(c, s, a))
  {
    var s', b := Next(c, s, a), InFlight(s.pc);
    ChangeShape(c, s, a);
    NewestIsAbove(s.source, s.ckpt, a.row);
    if b != [] && Last(b).ts.Some? {
      NewestIsAbove(s.source, Some(KeyOf(Last(b))), a.row);
    }
    assert DistinctIds(s'.source);
  }

  lemma BatchWrittenInLoop(c: Config, s: Sys, a: Action)
    requires InLoop(a)
    requires SessionOk(c, s) && BatchWritten(c, s) && !a.BulkPart?
    ensures BatchWritten(c, Step(c, s, a))
  {
  }

  lemma BatchWrittenElsewhere(c: Config, s: Sys, a: Action)
    requires !InLoop(a)
    requires SessionOk(c, s) && BatchWritten(c, s)
    ensures BatchWritten(c, Step(c, s, a))
  {
    SinkFrameElsewhere(c, s, a);
    PointStays(c, s, a);
  }

  lemma PointStays(c: Config, s: Sys, a: Action)
    requires !InLoop(a)
    ensures var pc := Step(c, s, a).pc; pc.Body? && (pc.at.AtMark? || pc.at.AtSave?) ==> pc == s.pc
  {
  }

  /** A write changes the sink alone, and keeps the batch in flight. */
  lemma WriteShape(c: Config, s: Sys, a: Action)
    requires c.es && CursorOk(s) && Enabled(c, s, a) && (a.WriteBatch? || a.BulkPart?)
    ensures var s', m := Next(c, s, a), if a.WriteBatch? then Written(c.out, s.pc.at.batch) else a.part;
      && s.pc.Body? && s.pc.at.AtWrite? && s.pc.at.batch != [] && m.Keys <= Written(c.out, s.pc.at.batch).Keys
      && s'.source == s.source && s'.ckpt == s.ckpt && s'.sink == s.sink + m
      && InFlight(s'.pc) == InFlight(s.pc) && BatchWritten(c, s')
  {
  }

  lemma WriteStep(c: Config, s0: Sys, s: Sys, a: Action)
    requires RowWise(c.out) && Owns(c.out) && c.es
    requires Proto(c, s) && Progress(s0, s) && Fresh(c, s)
    requires Enabled(c, s, a) && (a.WriteBatch? || a.BulkPart?)
    ensures Fresh(c, Next(c, s, a))
  {
    WriteShape(c, s, a);
    WriteFresh(c, s0, s, Next(c, s, a), if a.WriteBatch? then Written(c.out, s.pc.at.batch) else a.part);
  }

  lemma WriteFresh(c: Config, s0: Sys, s: Sys, s': Sys, m: Sink)
    requires RowWise(c.out) && Owns(c.out) && Progress(s0, s) && Fresh(c, s)
    requires s.pc.Body? && s.pc.at.AtWrite? && s.pc.at.batch != []
    requires m.Keys <= Written(c.out, s.pc.at.batch).Keys
    requires s'.source == s.source && s'.ckpt == s.ckpt && s'.sink == s.sink + m
    requires InFlight(s'.pc) == InFlight(s.pc) && BatchWritten(c, s')
    ensures Fresh(c, s')
  {
    IndexWriteKeeps(c, s0, s, m);
  }

  lemma BatchWrittenStep(c: Config, s: Sys, a: Action)
    requires SessionOk(c, s) && BatchWritten(c, s) && !a.BulkPart?
    ensures BatchWritten(c, Step(c, s, a))
  {
    if InLoop(a) {
      BatchWrittenInLoop(c, s, a);
    } else {
      BatchWrittenElsewhere(c, s, a);
    }
  }

  lemma SaveStepFresh(c: Config, s0: Sys, s: Sys)
    requires RowWise(c.out) && Owns(c.out) && Grounded(s0.source, s0.ckpt)
    requires Proto(c, s) && Progress(s0, s) && Fresh(c, s) && Enabled(c, s, Save)
    ensures Fresh(c, Next(c, s, Save))
  {
    SaveKeeps(c, s0, s);
  }

  lemma QuietFresh(c: Config, s: Sys, s': Sys)
    requires Fresh(c, s) && SameData(s, s') && s'.sink == s.sink && NoNewBatch(s, s') && BatchWritten(c, s')
    ensures Fresh(c, s')
  {
  }

  lemma FreshStep(c: Config, s0: Sys, s: Sys, a: Action)
    requires RowWise(c.out) && Owns(c.out) && Grounded(s0.source, s0.ckpt)
    requires Proto(c, s) && Progress(s0, s) && Fresh(c, s)
    ensures Fresh(c, Step(c, s, a))
  {
    if !Enabled(c, s, a) {
    } else if a.Fetch? {
      FetchKeeps(c, s0, s);
    } else if a.InsertRow? || a.TouchRow? {
      ChangeKeeps(c, s0, s, a);
    } else if a.Save? {
      SaveStepFresh(c, s0, s);
    } else if c.es && (a.WriteBatch? || a.BulkPart?) {
      WriteStep(c, s0, s, a);
    } else {
      BatchWrittenStep(c, s, a);
      CommitFrame(c, s, a);
      SinkFrame(c, s, a);
      QuietPc(c, s, a);
      QuietFresh(c, s, Step(c, s, a));
    }
  }

  lemma {:induction false} FreshAlways(c: Config, s0: Sys, acts: seq<Action>)
    requires RowWise(c.out) && Owns(c.out)
    requires Initial(s0) && DistinctIds(s0.source) && Grounded(s0.source, s0.ckpt) && Converged(c, s0)
    ensures Fresh(c, Exec(c, s0, acts))
  {
    if acts != [] {
      var before := acts[..|acts| - 1];
      FreshAlways(c, s0, before);
      ProgressAlways(c, s0, before);
      FreshStep(c, s0, Exec(c, s0, before), Last(acts));
    }
  }

  /**
   * Convergence, for either sink: with ids naming documents and changes only on
   * top, every current row at or below the committed checkpoint has its current
   * transformed value in the sink, at every moment of every history.
   */
  lemma Convergence(c: Config, s0: Sys, acts: seq<Action>, r: Row)
    requires RowWise(c.out) && Owns(c.out)
    requires Initial(s0) && DistinctIds(s0.source) && Grounded(s0.source, s0.ckpt) && Converged(c, s0)
    requires r in Exec(c, s0, acts).source && r.ts.Some? && !Above(r, Exec(c, s0, acts).ckpt)
    ensures Present(c, Exec(c, s0, acts).sink, r)
  {
    FreshAlways(c, s0, acts);
  }

  /** When a run finds no more rows, the whole current source is in the sink. */
  lemma DrainedRunConverges(c: Config, s0: Sys, acts: seq<Action>)
    requires RowWise(c.out) && Owns(c.out)
    requires Initial(s0) && DistinctIds(s0.source) && Grounded(s0.source, s0.ckpt) && Converged(c, s0)
    requires Enabled(c, Exec(c, s0, acts), Fetch) && PageOf(Exec(c, s0, acts)) == []
    ensures var s := Exec(c, s0, acts);
      forall r :: r in s.source && r.ts.Some? ==> Present(c, s.sink, r)
  {
    var s := Exec(c, s0, acts);
    FreshAlways(c, s0, acts);
    ProgressAlways(c, s0, acts);
    PageFacts(s.source, s.ckpt, s.pc.n);
    forall r | r in s.source && r.ts.Some? ensures Present(c, s.sink, r) {
      WhereDropsNulls(r, s.ckpt);
    }
  }
}
