/**
 * Transforms that are not row-wise.  What a batch becomes then depends on how the source
 * is cut; the committed batches decide what the sink holds, and with one batch size they
 * are the batches of an undisturbed run.
 */
module EnginePages {
  import opened Rows
  import opened Keyset
  import opened Sinks
  import opened Status
  import opened Engine
  import opened EngineProtocol
  import opened EngineProgress
  import opened EngineSafety
  import opened EngineKeys
  import opened EngineReplay
  import opened Chunks

  // ---------- The committed batches ----------

  /** The batches that a history committed, in order. */
  function Batches(c: Config, s: Sys, acts: seq<Action>): seq<seq<Row>> {
    if acts == [] then []
    else
      var s', a := Exec(c, s, acts[..|acts| - 1]), Last(acts);
      Batches(c, s, acts[..|acts| - 1]) + if IsSave(c, s', a) then [s'.pc.at.batch] else []
  }

  lemma SaveAppends(c: Config, s: Sys)
    requires SessionOk(c, s) && Enabled(c, s, Save)
    ensures var s', b := Step(c, s, Save), s.pc.at.batch;
      && b != [] && Last(b).ts.Some? && s'.ckpt == Some(KeyOf(Last(b))) && s'.applied == s.applied + b
      && s'.sink == (if c.es then s.sink else s.sink + Written(c.out, b))
      && s'.source == s.source && s'.changes == s.changes
  {
    assert s.sink + map[] == s.sink;
  }

  /** The committed rows are those of the committed batches, for any transform, sink and source. */
  lemma {:induction false} BatchesAreApplied(c: Config, s0: Sys, acts: seq<Action>)
    requires Initial(s0)
    ensures Concat(Batches(c, s0, acts)) == Exec(c, s0, acts).applied
  {
    if acts != [] {
      var before, a := acts[..|acts| - 1], Last(acts);
      var s := Exec(c, s0, before);
      BatchesAreApplied(c, s0, before);
      ProtoAlways(c, s0, before);
      if IsSave(c, s, a) {
        SaveAppends(c, s);
        ConcatAppend(Batches(c, s0, before), s.pc.at.batch);
      } else {
        CommitFrame(c, s, a);
        assert Batches(c, s0, before) + [] == Batches(c, s0, before);
      }
    }
  }

  /**
   * Atomic checkpoint for any transform: in every state of every history, crash points
   * included and also while the source changes, the Postgres sink is the initial one with
   * the committed batches written one after another.
   */
  lemma {:induction false} SinkIsBatches(c: Config, s0: Sys, acts: seq<Action>)
    requires Initial(s0) && !c.es
    ensures Exec(c, s0, acts).sink == s0.sink + WrittenPieces(c.out, Batches(c, s0, acts))
  {
    if acts == [] {
      assert s0.sink + map[] == s0.sink;
    } else {
      var before, a := acts[..|acts| - 1], Last(acts);
      var s := Exec(c, s0, before);
      SinkIsBatches(c, s0, before);
      ProtoAlways(c, s0, before);
      if IsSave(c, s, a) {
        SaveAppends(c, s);
        SinkNext(c.out, s0.sink, Batches(c, s0, before), s.pc.at.batch);
      } else {
        SinkFrame(c, s, a);
        assert Batches(c, s0, before) + [] == Batches(c, s0, before);
      }
    }
  }

  // ---------- One batch size ----------

  /** The runner works on the batch that follows the checkpoint, and has drained the source only if there is none. */
  ghost predicate OnPage(s: Sys, n: nat)
    requires n >= 1
  {
    && (SizeOf(s.pc) == 0 || SizeOf(s.pc) == n)
    && (InFlight(s.pc) == [] || InFlight(s.pc) == Page(s.source, s.ckpt, n))
    && (Drained(s.pc) ==> Page(s.source, s.ckpt, n) == [])
  }

  lemma FetchesThePage(c: Config, s: Sys, n: nat)
    requires n >= 1 && Proto(c, s) && OnPage(s, n) && Enabled(c, s, Fetch)
    ensures OnPage(Step(c, s, Fetch), n)
  {
  }

  lemma SaveEndsFlight(c: Config, s: Sys)
    requires Enabled(c, s, Save)
    ensures InFlight(Step(c, s, Save).pc) == [] && !Drained(Step(c, s, Save).pc)
  {
  }

  lemma OnPageStep(c: Config, s: Sys, a: Action, n: nat)
    requires n >= 1 && Proto(c, s) && OnPage(s, n) && (a.Snapshot? ==> a.n == n)
    requires Step(c, s, a).changes == s.changes
    ensures OnPage(Step(c, s, a), n)
  {
    SizeComesFromSnapshot(c, s, a);
    if !Enabled(c, s, a) {
    } else if a == Fetch {
      FetchesThePage(c, s, n);
    } else if a == Save {
      SaveEndsFlight(c, s);
    } else {
      QuietPc(c, s, a);
      StaticFrame(c, s, a);
    }
  }

  lemma StaticFrame(c: Config, s: Sys, a: Action)
    requires SessionOk(c, s) && !IsSave(c, s, a) && Step(c, s, a).changes == s.changes
    ensures Step(c, s, a).source == s.source && Step(c, s, a).ckpt == s.ckpt
  {
    CommitFrame(c, s, a);
  }

  lemma {:induction false} OnPageAlways(c: Config, s0: Sys, acts: seq<Action>, n: nat)
    requires Initial(s0) && n >= 1 && SizesAre(acts, n) && Exec(c, s0, acts).changes == 0
    ensures OnPage(Exec(c, s0, acts), n)
  {
    if acts != [] {
      var before := acts[..|acts| - 1];
      var s := Exec(c, s0, before);
      ChangesGrow(c, s, Last(acts));
      OnPageAlways(c, s0, before, n);
      ProtoAlways(c, s0, before);
      OnPageStep(c, s, Last(acts), n);
    }
  }

  /** These batches, and then those of this run, if it gets to the end. */
  function Followed(done: seq<seq<Row>>, rest: Option<seq<seq<Row>>>): Option<seq<seq<Row>>> {
    if rest.None? then None else Some(done + rest.value)
  }

  lemma FollowedOn(done: seq<seq<Row>>, b: seq<Row>, rest: Option<seq<seq<Row>>>)
    ensures Followed(done, Followed([b], rest)) == Followed(done + [b], rest)
  {
    if rest.Some? {
      assert done + ([b] + rest.value) == (done + [b]) + rest.value;
    }
  }

  lemma DrainsOn(source: seq<Row>, k: Option<Key>, n: nat)
    requires Distinct(source) && n >= 1
    requires var b := Page(source, k, n); b != [] && Last(b).ts.Some?
    ensures var b := Page(source, k, n);
      Drain(source, k, n) == Followed([b], Drain(source, Some(KeyOf(Last(b))), n))
  {
  }

  /**
   * With one batch size an undisturbed run from the start is what has been committed,
   * followed by an undisturbed run from the checkpoint, whatever happened on the way.
   */
  lemma {:induction false} BatchesAreDrained(c: Config, s0: Sys, acts: seq<Action>, n: nat)
    requires Initial(s0) && n >= 1 && SizesAre(acts, n) && Exec(c, s0, acts).changes == 0
    ensures Distinct(s0.source) && Exec(c, s0, acts).source == s0.source
    ensures Drain(s0.source, s0.ckpt, n)
         == Followed(Batches(c, s0, acts), Drain(s0.source, Exec(c, s0, acts).ckpt, n))
  {
    if acts == [] {
      FollowedNothing(Drain(s0.source, s0.ckpt, n));
    } else {
      var before, a := acts[..|acts| - 1], Last(acts);
      var s := Exec(c, s0, before);
      ChangesGrow(c, s, a);
      BatchesAreDrained(c, s0, before, n);
      OnPageAlways(c, s0, before, n);
      ProtoAlways(c, s0, before);
      if IsSave(c, s, a) {
        var b := s.pc.at.batch;
        SaveAppends(c, s);
        DrainsOn(s0.source, s.ckpt, n);
        FollowedOn(Batches(c, s0, before), b, Drain(s0.source, Some(KeyOf(Last(b))), n));
      } else {
        StaticFrame(c, s, a);
        assert Batches(c, s0, before) + [] == Batches(c, s0, before);
      }
    }
  }

  lemma FollowedNothing(rest: Option<seq<seq<Row>>>)
    ensures Followed([], rest) == rest
  {
    if rest.Some? {
      assert [] + rest.value == rest.value;
    }
  }

  // ---------- What the sink holds ----------

  /** Between the commit of a batch and the next query. */
  predicate JustSaved(pc: Pc) {
    pc.Body? && (pc.at.AtCheck? || pc.at.AtPause?)
  }

  /** The cells of the batch that comes next, if there is one. */
  function Upcoming(c: Config, s: Sys, n: nat): Sink
    requires n >= 1
  {
    var b := Page(s.source, s.ckpt, n);
    if b == [] then map[] else Written(c.out, b)
  }

  /**
   * Against the sink after the committed batches: Postgres holds just them; so does an
   * index right after a commit, it holds the next batch as well once that is written, and
   * else may hold part of it.
   */
  ghost predicate Paged(c: Config, committed: Sink, s: Sys, n: nat)
    requires n >= 1
  {
    var next := Upcoming(c, s, n);
    if !c.es || JustSaved(s.pc) then s.sink == committed
    else if WrittenBatch(s.pc) != [] then s.sink == committed + next
    else s.sink + next == committed + next
  }

  function AfterStep(c: Config, committed: Sink, s: Sys, a: Action): Sink {
    if IsSave(c, s, a) then committed + Written(c.out, s.pc.at.batch) else committed
  }

  lemma TablePages(c: Config, committed: Sink, s: Sys, a: Action, n: nat)
    requires n >= 1 && !c.es && SessionOk(c, s) && Paged(c, committed, s, n)
    ensures Paged(c, AfterStep(c, committed, s, a), Step(c, s, a), n)
  {
    if IsSave(c, s, a) {
      SaveAppends(c, s);
    } else {
      SinkFrame(c, s, a);
    }
  }

  /** Writing a batch again, or part of it, is absorbed by writing it. */
  lemma Rewritten(sink: Sink, committed: Sink, part: Sink, next: Sink)
    requires part.Keys <= next.Keys && sink + next == committed + next
    ensures (sink + part) + next == committed + next
    ensures (committed + next) + next == committed + next
  {
    PartIsOverwritten(sink, part, next);
  }

  lemma IndexSave(c: Config, committed: Sink, s: Sys, n: nat)
    requires n >= 1 && c.es && Proto(c, s) && OnPage(s, n) && Paged(c, committed, s, n) && Enabled(c, s, Save)
    ensures Paged(c, committed + Written(c.out, s.pc.at.batch), Step(c, s, Save), n)
  {
    SaveAppends(c, s);
  }

  lemma IndexWrite(c: Config, committed: Sink, s: Sys, a: Action, n: nat)
    requires n >= 1 && c.es && Proto(c, s) && OnPage(s, n) && Paged(c, committed, s, n)
    requires Enabled(c, s, a) && (a.WriteBatch? || a.BulkPart?)
    ensures Paged(c, committed, Step(c, s, a), n)
  {
    var next := Upcoming(c, s, n);
    Rewritten(s.sink, committed, if a.BulkPart? then a.part else map[], next);
  }

  lemma SavedBySave(c: Config, s: Sys, a: Action)
    requires !a.Save?
    ensures JustSaved(Step(c, s, a).pc) ==> JustSaved(s.pc)
  {
    if InLoop(a) {
      NotSavedInLoop(c, s, a);
    } else {
      NotSavedElsewhere(c, s, a);
    }
  }

  lemma NotSavedInLoop(c: Config, s: Sys, a: Action)
    requires InLoop(a) && !a.Save?
    ensures JustSaved(Step(c, s, a).pc) ==> JustSaved(s.pc)
  {
  }

  lemma NotSavedElsewhere(c: Config, s: Sys, a: Action)
    requires !InLoop(a)
    ensures JustSaved(Step(c, s, a).pc) ==> JustSaved(s.pc)
  {
  }

  lemma IndexQuiet(c: Config, committed: Sink, s: Sys, a: Action, n: nat)
    requires n >= 1 && c.es && Proto(c, s) && Paged(c, committed, s, n) && Step(c, s, a).changes == s.changes
    requires !a.Save? && !a.WriteBatch? && !a.BulkPart?
    ensures Paged(c, committed, Step(c, s, a), n)
  {
    var next := Upcoming(c, s, n);
    IndexFrame(c, s, a);
    StaticFrame(c, s, a);
    NoNewWrittenBatch(c, s, a);
    SavedBySave(c, s, a);
    Rewritten(committed, committed, map[], next);
  }

  lemma PagedStep(c: Config, committed: Sink, s: Sys, a: Action, n: nat)
    requires n >= 1 && Proto(c, s) && OnPage(s, n) && Paged(c, committed, s, n)
    requires Step(c, s, a).changes == s.changes
    ensures Paged(c, AfterStep(c, committed, s, a), Step(c, s, a), n)
  {
    if !c.es {
      TablePages(c, committed, s, a, n);
    } else if !Enabled(c, s, a) {
    } else if a.Save? {
      IndexSave(c, committed, s, n);
    } else if a.WriteBatch? || a.BulkPart? {
      IndexWrite(c, committed, s, a, n);
    } else {
      IndexQuiet(c, committed, s, a, n);
    }
  }

  /** The initial sink with the committed batches written one after another. */
  function CommittedSink(c: Config, s0: Sys, acts: seq<Action>): Sink {
    s0.sink + WrittenPieces(c.out, Batches(c, s0, acts))
  }

  lemma BatchesSnoc(c: Config, s0: Sys, before: seq<Action>, a: Action)
    ensures var s := Exec(c, s0, before);
      Batches(c, s0, before + [a]) == Batches(c, s0, before) + if IsSave(c, s, a) then [s.pc.at.batch] else []
  {
    assert (before + [a])[..|before + [a]| - 1] == before;
  }

  lemma CommittedSnoc(c: Config, s0: Sys, before: seq<Action>, a: Action)
    ensures CommittedSink(c, s0, before + [a]) == AfterStep(c, CommittedSink(c, s0, before), Exec(c, s0, before), a)
  {
    BatchesSnoc(c, s0, before, a);
    BatchesExtended(c, s0.sink, Batches(c, s0, before), Exec(c, s0, before), a);
  }

  lemma BatchesExtended(c: Config, sink: Sink, done: seq<seq<Row>>, s: Sys, a: Action)
    ensures sink + WrittenPieces(c.out, done + if IsSave(c, s, a) then [s.pc.at.batch] else [])
         == AfterStep(c, sink + WrittenPieces(c.out, done), s, a)
  {
    if IsSave(c, s, a) {
      SinkNext(c.out, sink, done, s.pc.at.batch);
    } else {
      assert done + [] == done;
    }
  }

  /**
   * With one batch size and any transform, at every moment of every history over a static
   * source: the sink is the committed batches, in an index up to cells of the one batch
   * that comes next.
   */
  lemma {:induction false} OneSizeSink(c: Config, s0: Sys, acts: seq<Action>, n: nat)
    requires Initial(s0) && n >= 1 && SizesAre(acts, n) && Exec(c, s0, acts).changes == 0
    ensures Paged(c, CommittedSink(c, s0, acts), Exec(c, s0, acts), n)
  {
    if acts == [] {
      assert s0.sink + map[] == s0.sink;
    } else {
      var before, a := acts[..|acts| - 1], Last(acts);
      var s := Exec(c, s0, before);
      ChangesGrow(c, s, a);
      OneSizeSink(c, s0, before, n);
      OnPageAlways(c, s0, before, n);
      ProtoAlways(c, s0, before);
      PagedStep(c, CommittedSink(c, s0, before), s, a, n);
      assert acts == before + [a];
      CommittedSnoc(c, s0, before, a);
    }
  }

  // ---------- Main results ----------

  /** A run that has found no more rows: its batches are those of one undisturbed run, and the sink holds them. */
  lemma DrainedBatches(c: Config, s0: Sys, acts: seq<Action>, n: nat)
    requires Initial(s0) && n >= 1 && SizesAre(acts, n)
    requires Exec(c, s0, acts).changes == 0 && Drained(Exec(c, s0, acts).pc)
    ensures Drain(s0.source, s0.ckpt, n) == Some(Batches(c, s0, acts))
    ensures Exec(c, s0, acts).sink == CommittedSink(c, s0, acts)
  {
    var s := Exec(c, s0, acts);
    OnPageAlways(c, s0, acts, n);
    BatchesAreDrained(c, s0, acts, n);
    OneSizeSink(c, s0, acts, n);
    assert Batches(c, s0, acts) + [] == Batches(c, s0, acts);
    NothingUpcoming(c, CommittedSink(c, s0, acts), s, n);
  }

  lemma NothingUpcoming(c: Config, committed: Sink, s: Sys, n: nat)
    requires n >= 1 && Paged(c, committed, s, n) && Page(s.source, s.ckpt, n) == []
    ensures s.sink == committed
  {
    assert s.sink + map[] == s.sink && committed + map[] == committed;
  }

  /**
   * End-to-end safety for any transform and either sink, with one batch size: in every
   * history of pauses, exceptions, retries, crashes and restarts that takes RUNNING to
   * IDLE, the sink is the initial one with the batches of one undisturbed run written
   * over it.  Rows without a key need no guard: their batch would not let the run finish.
   */
  lemma OneSizeEndToEnd(c: Config, s0: Sys, acts: seq<Action>, a: Action, n: nat)
    requires Initial(s0) && n >= 1 && SizesAre(acts, n) && Finishes(c, s0, acts, a)
    ensures Drain(s0.source, s0.ckpt, n).Some?
    ensures Step(c, Exec(c, s0, acts), a).sink
         == s0.sink + WrittenPieces(c.out, Drain(s0.source, s0.ckpt, n).value)
  {
    var s := Exec(c, s0, acts);
    ProtoAlways(c, s0, acts);
    OnlyDrainedRunsFinish(c, s, a);
    DrainedBatches(c, s0, acts, n);
    SinkFrame(c, s, a);
  }

  /**
   * Pausing, failing or crashing on the way makes no difference, whatever the transform
   * and the sink: any two histories with this batch size that finish end alike.
   */
  lemma OneSizeHistoriesAgree(c: Config, s0: Sys, n: nat)
    requires Initial(s0) && n >= 1
    ensures forall acts1, a1, acts2, a2 ::
      SizesAre(acts1, n) && SizesAre(acts2, n) && Finishes(c, s0, acts1, a1) && Finishes(c, s0, acts2, a2) ==>
        var s1, s2 := Step(c, Exec(c, s0, acts1), a1), Step(c, Exec(c, s0, acts2), a2);
        s1.ckpt == s2.ckpt && s1.applied == s2.applied && s1.sink == s2.sink
  {
    forall acts1, a1, acts2, a2 |
      SizesAre(acts1, n) && SizesAre(acts2, n) && Finishes(c, s0, acts1, a1) && Finishes(c, s0, acts2, a2)
      ensures var s1, s2 := Step(c, Exec(c, s0, acts1), a1), Step(c, Exec(c, s0, acts2), a2);
        s1.ckpt == s2.ckpt && s1.applied == s2.applied && s1.sink == s2.sink
    {
      OneSizeEndToEnd(c, s0, acts1, a1, n);
      OneSizeEndToEnd(c, s0, acts2, a2, n);
      FinishState(c, s0, acts1, a1);
      FinishState(c, s0, acts2, a2);
    }
  }

  lemma PauseFollowsSave(c: Config, s: Sys)
    requires s.status != PAUSED && Step(c, s, Pause).status == PAUSED
    ensures JustSaved(s.pc)
  {
  }

  /** A loop that leaves at a pause leaves no partial batch, also not in an index: the sink is the committed batches. */
  lemma PauseExitIsExact(c: Config, s0: Sys, acts: seq<Action>, n: nat)
    requires Initial(s0) && n >= 1 && SizesAre(acts, n) && Exec(c, s0, acts).changes == 0
    requires Exec(c, s0, acts).status != PAUSED && Step(c, Exec(c, s0, acts), Pause).status == PAUSED
    ensures Step(c, Exec(c, s0, acts), Pause).sink == CommittedSink(c, s0, acts)
  {
    var s := Exec(c, s0, acts);
    PauseFollowsSave(c, s);
    ProtoAlways(c, s0, acts);
    PausedFromCleanSession(c, s, Pause);
    OneSizeSink(c, s0, acts, n);
    SinkFrame(c, s, Pause);
  }
}
