/** Progress of the checkpoint: which rows have been committed, and in what order. */
module EngineProgress {
  import opened Rows
  import opened Keyset
  import opened Engine
  import opened EngineProtocol

  /** The checkpoint does not lie beyond every key of the source. */
  ghost predicate Grounded(source: seq<Row>, k: Option<Key>) {
    k.Some? ==> exists r :: r in source && r.ts.Some? && !KeyLess(KeyOf(r), k.value)
  }

  /** The statements below need a static source, or a grounded start and changes only on top. */
  ghost predicate Tame(s0: Sys, s: Sys) {
    s.changes == 0 || Grounded(s0.source, s0.ckpt)
  }

  /** The committed rows: sorted, keyed, above the initial checkpoint, ending at the checkpoint. */
  ghost predicate AppliedOk(s0: Sys, s: Sys) {
    && Sorted(s.applied)
    && (forall r :: r in s.applied ==> Above(r, s0.ckpt))
    && s.ckpt == if s.applied == [] then s0.ckpt
                 else var r := Last(s.applied); if r.ts.Some? then Some(KeyOf(r)) else None
  }

  /** Nothing at or below the checkpoint has been skipped. */
  ghost predicate NoGap(s0: Sys, s: Sys) {
    Tame(s0, s) ==> forall r :: r in s.source && Above(r, s0.ckpt) && !Above(r, s.ckpt) ==> r in s.applied
  }

  ghost predicate SourceOk(s0: Sys, s: Sys) {
    && Distinct(s.source)
    && (Grounded(s0.source, s0.ckpt) ==> Grounded(s.source, s.ckpt))
    && (s.changes == 0 ==> s.source == s0.source && forall r :: r in s.applied ==> r in s.source)
  }

  /** The batch in flight: the rows right above the checkpoint, without a gap. */
  ghost predicate BatchOk(s0: Sys, s: Sys, b: seq<Row>) {
    && Sorted(b)
    && (forall r :: r in b ==> Passes(r, s.ckpt))
    && (s.changes == 0 ==> forall r :: r in b ==> r in s.source)
    && (b != [] && Last(b).ts.Some? && Tame(s0, s) ==>
          forall r :: r in s.source && Passes(r, s.ckpt) && !Before(Last(b), r) ==> r in b)
    && (b != [] && Grounded(s0.source, s0.ckpt) && Last(b).ts.Some? ==> Grounded(s.source, Some(KeyOf(Last(b)))))
  }

  /** The batch that has been fetched but not committed. */
  function InFlight(pc: Pc): seq<Row> {
    match pc
    case Body(_, _, AtWrite(_, _, _, b)) => b
    case Body(_, _, AtMark(_, _, _, b)) => b
    case Body(_, _, AtSave(_, _, _, b)) => b
    case _ => []
  }

  ghost predicate Drained(pc: Pc) {
    match pc
    case Body(_, _, AtDone(_, _, drained)) => drained
    case Settling(_, _, drained) => drained
    case Closing(_, _, drained) => drained
    case _ => false
  }

  /** A run that saw an empty batch has nothing left, unless the source changed since. */
  ghost predicate DrainOk(s: Sys) {
    Drained(s.pc) && s.changes == 0 ==> forall r :: r in s.source ==> !Above(r, s.ckpt)
  }

  ghost predicate Progress(s0: Sys, s: Sys) {
    AppliedOk(s0, s) && NoGap(s0, s) && SourceOk(s0, s) && BatchOk(s0, s, InFlight(s.pc)) && DrainOk(s)
  }

  /** Most actions leave the data alone and start no batch. */
  ghost predicate SameData(s: Sys, s': Sys) {
    s'.source == s.source && s'.ckpt == s.ckpt && s'.applied == s.applied && s'.changes == s.changes
  }

  ghost predicate NoNewBatch(s: Sys, s': Sys) {
    && (InFlight(s'.pc) == InFlight(s.pc) || InFlight(s'.pc) == [])
    && (Drained(s'.pc) ==> Drained(s.pc))
  }

  lemma QuietInLoop(c: Config, s: Sys, a: Action)
    requires InLoop(a)
    requires !a.Fetch?
    ensures NoNewBatch(s, Step(c, s, a))
  {
  }

  lemma QuietElsewhere(c: Config, s: Sys, a: Action)
    requires !InLoop(a)
    requires !a.Fetch?
    ensures NoNewBatch(s, Step(c, s, a))
  {
  }

  lemma QuietKeeps(s0: Sys, s: Sys, s': Sys)
    requires Progress(s0, s) && SameData(s, s') && NoNewBatch(s, s')
    ensures Progress(s0, s')
  {
  }

  lemma QuietPc(c: Config, s: Sys, a: Action)
    requires !a.Fetch?
    ensures NoNewBatch(s, Step(c, s, a))
  {
    if InLoop(a) {
      QuietInLoop(c, s, a);
    } else {
      QuietElsewhere(c, s, a);
    }
  }

  lemma FetchStep(c: Config, s0: Sys, s: Sys)
    requires Proto(c, s) && Progress(s0, s) && Enabled(c, s, Fetch)
    ensures Progress(s0, Next(c, s, Fetch))
  {
    PageIsBatch(s0, s, s.pc.n);
  }

  lemma PageIsBatch(s0: Sys, s: Sys, n: nat)
    requires SourceOk(s0, s) && n >= 1
    ensures var b := Page(s.source, s.ckpt, n);
      BatchOk(s0, s, b) && (b == [] ==> forall r :: r in s.source ==> !Above(r, s.ckpt))
  {
    var b := Page(s.source, s.ckpt, n);
    PageFacts(s.source, s.ckpt, n);
    if b != [] && Last(b).ts.Some? {
      assert Last(b) in s.source;
    }
  }

  lemma SaveExtends(s0: Sys, s: Sys, b: seq<Row>)
    requires AppliedOk(s0, s) && b != [] && Last(b).ts.Some? && Sorted(b)
    requires forall r :: r in b ==> Above(r, s.ckpt)
    ensures Sorted(s.applied + b) && forall r :: r in s.applied + b ==> Above(r, s0.ckpt)
  {
    if s.applied != [] {
      assert Last(s.applied) in s.applied;
      assert Above(Last(s.applied), s0.ckpt);
      SortedJoin(s.applied, b);
    }
  }

  lemma SaveStep(c: Config, s0: Sys, s: Sys)
    requires Proto(c, s) && Progress(s0, s) && Enabled(c, s, Save)
    ensures Progress(s0, Next(c, s, Save))
  {
    var b := s.pc.at.batch;
    KeyedBatch(b, s.ckpt);
    SaveExtends(s0, s, b);
    var s' := Next(c, s, Save);
    assert s'.applied == s.applied + b;
    assert Last(s'.applied) == Last(b);
    forall r | Tame(s0, s') && r in s'.source && Above(r, s0.ckpt) && !Above(r, s'.ckpt) ensures r in s'.applied {
      if Above(r, s.ckpt) {
        WhereDropsNulls(r, s.ckpt);
      }
    }
  }

  lemma NewestIsAbove(source: seq<Row>, k: Option<Key>, r: Row)
    requires Newest(source, r) && Grounded(source, k)
    ensures Above(r, k)
    ensures k.Some? ==> !KeyLess(KeyOf(r), k.value)
  {
  }

  /** The source after an insert or a touch: the new row on top, nothing else new. */
  ghost predicate OnTop(source: seq<Row>, source': seq<Row>, r: Row) {
    && Newest(source, r)
    && Distinct(source')
    && r in source'
    && (forall x :: x in source' ==> x == r || x in source)
  }

  lemma ChangeShape(c: Config, s: Sys, a: Action)
    requires Distinct(s.source) && Enabled(c, s, a) && (a.InsertRow? || a.TouchRow?)
    ensures OnTop(s.source, Next(c, s, a).source, a.row)
  {
    var source' := Next(c, s, a).source;
    assert forall x :: x in s.source ==> !SameKey(x, a.row);
    if a.TouchRow? {
      assert source'[a.at] == a.row;
      forall x | x in source' ensures x == a.row || x in s.source {
        var i :| 0 <= i < |source'| && source'[i] == x;
        assert i != a.at ==> x == s.source[i];
      }
    }
  }

  lemma ChangeStep(c: Config, s0: Sys, s: Sys, a: Action)
    requires Proto(c, s) && Progress(s0, s) && Enabled(c, s, a) && (a.InsertRow? || a.TouchRow?)
    ensures Progress(s0, Next(c, s, a))
  {
    var s', b := Next(c, s, a), InFlight(s.pc);
    ChangeShape(c, s, a);
    if Grounded(s0.source, s0.ckpt) {
      NewestIsAbove(s.source, s.ckpt, a.row);
      if b != [] && Last(b).ts.Some? {
        NewestIsAbove(s.source, Some(KeyOf(Last(b))), a.row);
      }
    }
  }

  lemma ProgressStep(c: Config, s0: Sys, s: Sys, a: Action)
    requires Proto(c, s) && Progress(s0, s)
    ensures Progress(s0, Step(c, s, a))
  {
    if !Enabled(c, s, a) {
    } else if a.Fetch? {
      FetchStep(c, s0, s);
    } else if a.Save? {
      SaveStep(c, s0, s);
    } else if a.InsertRow? || a.TouchRow? {
      ChangeStep(c, s0, s, a);
    } else {
      CommitFrame(c, s, a);
      QuietPc(c, s, a);
      QuietKeeps(s0, s, Step(c, s, a));
    }
  }

  lemma {:induction false} ProgressAlways(c: Config, s0: Sys, acts: seq<Action>)
    requires Initial(s0)
    ensures Proto(c, Exec(c, s0, acts)) && Progress(s0, Exec(c, s0, acts))
  {
    ProtoAlways(c, s0, acts);
    if acts != [] {
      ProgressAlways(c, s0, acts[..|acts| - 1]);
      ProgressStep(c, s0, Exec(c, s0, acts[..|acts| - 1]), Last(acts));
    }
  }
}
