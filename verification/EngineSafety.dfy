/** End-to-end safety of the engine with the transactional (Postgres) sink. */
module EngineSafety {
  import opened Rows
  import opened Keyset
  import opened Sinks
  import opened Status
  import opened Engine
  import opened EngineProtocol
  import opened EngineProgress

  // ---------- Committed rows ----------

  /** On a static source the committed rows are exactly those between the two checkpoints. */
  lemma AppliedIsBetween(s0: Sys, s: Sys)
    requires Initial(s0) && Progress(s0, s) && s.changes == 0
    ensures s.applied == Between(s0.source, s0.ckpt, s.ckpt)
  {
    BetweenFacts(s0.source, s0.ckpt, s.ckpt);
    forall r ensures r in s.applied <==> r in Between(s0.source, s0.ckpt, s.ckpt) {
      if r in s.applied {
        var i :| 0 <= i < |s.applied| && s.applied[i] == r;
        assert i < |s.applied| - 1 ==> Before(s.applied[i], s.applied[|s.applied| - 1]);
        assert Last(s.applied) in s.applied;
      }
    }
    SortedUnique(s.applied, Between(s0.source, s0.ckpt, s.ckpt));
  }

  lemma DrainedIsScan(s0: Sys, s: Sys)
    requires Initial(s0) && Progress(s0, s) && s.changes == 0 && Drained(s.pc)
    ensures s.applied == Scan(s0.source, s0.ckpt)
  {
    AppliedIsBetween(s0, s);
    BetweenFacts(s0.source, s0.ckpt, s.ckpt);
    ScanFacts(s0.source, s0.ckpt);
    SortedUnique(s.applied, Scan(s0.source, s0.ckpt));
  }

  // ---------- The sink ----------

  /** The sink is the initial sink with the committed rows upserted in order. */
  ghost predicate SinkExact(c: Config, s0: Sys, s: Sys) {
    s.sink == s0.sink + Written(c.out, s.applied)
  }

  lemma SaveSink(c: Config, s0: Sys, s: Sys)
    requires !c.es && RowWise(c.out) && SessionOk(c, s) && SinkExact(c, s0, s) && Enabled(c, s, Save)
    ensures SinkExact(c, s0, Next(c, s, Save))
  {
    var b := s.pc.at.batch;
    WrittenAppend(c.out, s.applied, b);
    OverlayAssociates(s0.sink, Written(c.out, s.applied), Written(c.out, b));
  }

  lemma SinkStep(c: Config, s0: Sys, s: Sys, a: Action)
    requires !c.es && RowWise(c.out) && Proto(c, s) && SinkExact(c, s0, s)
    ensures SinkExact(c, s0, Step(c, s, a))
  {
    if IsSave(c, s, a) {
      SaveSink(c, s0, s);
    } else {
      CommitFrame(c, s, a);
      SinkFrame(c, s, a);
    }
  }

  lemma {:induction false} SinkAlways(c: Config, s0: Sys, acts: seq<Action>)
    requires Initial(s0) && !c.es && RowWise(c.out)
    ensures SinkExact(c, s0, Exec(c, s0, acts))
  {
    if acts == [] {
      WrittenNothing(c.out);
      assert s0.sink + map[] == s0.sink;
    } else {
      var before := acts[..|acts| - 1];
      SinkAlways(c, s0, before);
      ProtoAlways(c, s0, before);
      SinkStep(c, s0, Exec(c, s0, before), Last(acts));
    }
  }

  // ---------- Main results ----------

  /**
   * Atomic checkpoint: in every state of every history, crash points included,
   * the committed sink is the fold of the rows between the initial checkpoint
   * and the committed one.
   */
  lemma AtomicCheckpoint(c: Config, s0: Sys, acts: seq<Action>)
    requires Initial(s0) && !c.es && RowWise(c.out)
    requires Exec(c, s0, acts).changes == 0
    ensures var s := Exec(c, s0, acts);
      s.sink == s0.sink + Written(c.out, Between(s0.source, s0.ckpt, s.ckpt))
  {
    ProgressAlways(c, s0, acts);
    SinkAlways(c, s0, acts);
    AppliedIsBetween(s0, Exec(c, s0, acts));
  }

  lemma LoopNeverFinishes(c: Config, s: Sys, a: Action)
    requires InLoop(a) && s.status != IDLE
    ensures Step(c, s, a).status != IDLE
  {
  }

  lemma FinishElsewhere(c: Config, s: Sys, a: Action)
    requires !InLoop(a)
    requires Proto(c, s) && s.status == RUNNING && Step(c, s, a).status == IDLE
    ensures a == Close && Drained(s.pc) && s.pend == CLEAN
  {
  }

  /** The history, over a static source, ends with the pipeline going from RUNNING to IDLE. */
  predicate Finishes(c: Config, s0: Sys, acts: seq<Action>, a: Action) {
    && Exec(c, s0, acts).changes == 0
    && Exec(c, s0, acts).status == RUNNING && Step(c, Exec(c, s0, acts), a).status == IDLE
  }

  /** Only the conditional finalisation of a drained run takes RUNNING to IDLE. */
  lemma OnlyDrainedRunsFinish(c: Config, s: Sys, a: Action)
    requires Proto(c, s) && s.status == RUNNING && Step(c, s, a).status == IDLE
    ensures a == Close && Drained(s.pc) && s.pend == CLEAN
  {
    if InLoop(a) {
      LoopNeverFinishes(c, s, a);
    } else {
      FinishElsewhere(c, s, a);
    }
  }

  /**
   * End-to-end safety: in every history of API calls, exceptions, retries,
   * disconnects, crashes and restarts over a static source, whenever the
   * pipeline goes from RUNNING to IDLE the sink is the initial sink with every
   * keyed row above the initial checkpoint upserted in key order.
   */
  lemma EndToEnd(c: Config, s0: Sys, acts: seq<Action>, a: Action)
    requires Initial(s0) && !c.es && RowWise(c.out)
    requires Finishes(c, s0, acts, a)
    ensures Step(c, Exec(c, s0, acts), a).sink == s0.sink + Written(c.out, Scan(s0.source, s0.ckpt))
  {
    var s := Exec(c, s0, acts);
    ProgressAlways(c, s0, acts);
    SinkAlways(c, s0, acts);
    OnlyDrainedRunsFinish(c, s, a);
    DrainedIsScan(s0, s);
    SinkFrame(c, s, a);
  }

  lemma FinishState(c: Config, s0: Sys, acts: seq<Action>, a: Action)
    requires Initial(s0)
    requires Finishes(c, s0, acts, a)
    ensures var s := Step(c, Exec(c, s0, acts), a);
      s.applied == Scan(s0.source, s0.ckpt) && (s.applied == [] ==> s.ckpt == s0.ckpt)
      && (s.applied != [] ==> Last(s.applied).ts.Some? && s.ckpt == Some(KeyOf(Last(s.applied))))
  {
    var s := Exec(c, s0, acts);
    ProgressAlways(c, s0, acts);
    OnlyDrainedRunsFinish(c, s, a);
    DrainedIsScan(s0, s);
    CommitFrame(c, s, a);
    if s.applied != [] {
      assert Last(s.applied) in s.applied;
    }
  }

  /** A step to PAUSED from a session with nothing uncommitted; it writes nothing itself. */
  ghost predicate PausesCleanly(c: Config, s: Sys, a: Action) {
    s.status != PAUSED && Step(c, s, a).status == PAUSED ==>
      s.pend == CLEAN && !IsSave(c, s, a) && !a.BulkPart? && !a.WriteBatch?
  }

  lemma PausedFromInLoop(c: Config, s: Sys, a: Action)
    requires InLoop(a)
    requires SessionOk(c, s)
    ensures PausesCleanly(c, s, a)
  {
  }

  lemma PausedFromElsewhere(c: Config, s: Sys, a: Action)
    requires !InLoop(a)
    requires SessionOk(c, s)
    ensures PausesCleanly(c, s, a)
  {
  }

  lemma PausedFromCleanSession(c: Config, s: Sys, a: Action)
    requires SessionOk(c, s)
    ensures PausesCleanly(c, s, a)
  {
    if InLoop(a) {
      PausedFromInLoop(c, s, a);
    } else {
      PausedFromElsewhere(c, s, a);
    }
  }

  /**
   * A pipeline becomes PAUSED only between batches, for either sink and any transform:
   * nothing is uncommitted, the step changes neither sink nor checkpoint, and the rows
   * committed are those up to the checkpoint.
   */
  lemma PauseAtBatchBoundary(c: Config, s0: Sys, acts: seq<Action>, a: Action)
    requires Initial(s0)
    requires Exec(c, s0, acts).status != PAUSED && Step(c, Exec(c, s0, acts), a).status == PAUSED
    ensures var s, s' := Exec(c, s0, acts), Step(c, Exec(c, s0, acts), a);
      && s.pend == CLEAN && s'.sink == s.sink && s'.ckpt == s.ckpt && s'.applied == s.applied
      && (s'.changes == 0 ==> s'.applied == Between(s0.source, s0.ckpt, s'.ckpt))
      && (!c.es && RowWise(c.out) ==> s'.sink == s0.sink + Written(c.out, s'.applied))
  {
    var s := Exec(c, s0, acts);
    ProgressAlways(c, s0, acts);
    PausedFromCleanSession(c, s, a);
    CommitFrame(c, s, a);
    SinkFrame(c, s, a);
    ChangesGrow(c, s, a);
    if s.changes == 0 {
      AppliedIsBetween(s0, s);
    }
    if !c.es && RowWise(c.out) {
      SinkAlways(c, s0, acts);
    }
  }

  /**
   * No row with a NULL incremental key is ever committed, and the committed key is never
   * NULL, for either sink; the Postgres table holds nothing but what was committed.
   */
  lemma NullsNeverCommitted(c: Config, s0: Sys, acts: seq<Action>)
    requires Initial(s0)
    ensures var s := Exec(c, s0, acts);
      && (forall r :: r in s.applied ==> r.ts.Some?)
      && (s.ckpt != s0.ckpt ==> s.applied != [] && s.ckpt == Some(KeyOf(Last(s.applied))))
      && (!c.es && RowWise(c.out) ==> s.sink == s0.sink + Written(c.out, s.applied))
  {
    ProgressAlways(c, s0, acts);
    var s := Exec(c, s0, acts);
    if s.applied != [] {
      assert Last(s.applied) in s.applied;
    }
    if !c.es && RowWise(c.out) {
      SinkAlways(c, s0, acts);
    }
  }

  // ---------- Checkpoint progress ----------

  lemma GrowStep(c: Config, s: Sys, a: Action)
    requires Proto(c, s)
    ensures s.applied <= Step(c, s, a).applied
  {
    if !IsSave(c, s, a) {
      CommitFrame(c, s, a);
    }
  }

  lemma {:induction false} AppliedGrows(c: Config, s0: Sys, acts: seq<Action>, more: seq<Action>)
    requires Initial(s0)
    ensures Exec(c, s0, acts).applied <= Exec(c, s0, acts + more).applied
  {
    if more == [] {
      assert acts + more == acts;
    } else {
      var less := more[..|more| - 1];
      AppliedGrows(c, s0, acts, less);
      ProtoAlways(c, s0, acts + less);
      GrowStep(c, Exec(c, s0, acts + less), Last(more));
      assert (acts + more)[..|acts + more| - 1] == acts + less;
    }
  }

  /** Over a whole history the checkpoint never moves back, and moves forward with every commit. */
  lemma CheckpointMonotone(c: Config, s0: Sys, acts: seq<Action>, more: seq<Action>)
    requires Initial(s0)
    ensures var s, s' := Exec(c, s0, acts), Exec(c, s0, acts + more);
      && (s.ckpt.Some? ==> s'.ckpt.Some? && !KeyLess(s'.ckpt.value, s.ckpt.value))
      && (|s.applied| < |s'.applied| ==> s'.ckpt.Some? && (s.ckpt.Some? ==> KeyLess(s.ckpt.value, s'.ckpt.value)))
      && (s.applied == s'.applied ==> s.ckpt == s'.ckpt)
  {
    var s, s' := Exec(c, s0, acts), Exec(c, s0, acts + more);
    AppliedGrows(c, s0, acts, more);
    ProgressAlways(c, s0, acts);
    ProgressAlways(c, s0, acts + more);
    if |s.applied| < |s'.applied| {
      assert Last(s'.applied) in s'.applied;
      if s.applied != [] {
        assert s'.applied[|s.applied| - 1] == Last(s.applied);
        assert Last(s.applied) in s.applied;
        assert Before(s'.applied[|s.applied| - 1], s'.applied[|s'.applied| - 1]);
      }
    } else {
      assert s.applied == s'.applied;
    }
  }

  /** A history over an unchanged drained source commits no row and keeps the checkpoint. */
  lemma DrainedCommitsNothing(c: Config, s0: Sys, acts: seq<Action>)
    requires Initial(s0)
    requires forall r :: r in s0.source ==> !Above(r, s0.ckpt)
    requires Exec(c, s0, acts).changes == 0
    ensures Exec(c, s0, acts).applied == [] && Exec(c, s0, acts).ckpt == s0.ckpt
  {
    var s := Exec(c, s0, acts);
    ProgressAlways(c, s0, acts);
    AppliedIsBetween(s0, s);
    BetweenFacts(s0.source, s0.ckpt, s.ckpt);
    HasMember(s.applied);
  }

  lemma SaveCommits(c: Config, s: Sys)
    requires SessionOk(c, s) && Enabled(c, s, Save)
    ensures Step(c, s, Save).applied != []
  {
  }

  /** After one row was touched, a completed history commits that row and nothing else. */
  lemma TouchedRowAlone(c: Config, s0: Sys, acts: seq<Action>, a: Action, r: Row)
    requires Initial(s0)
    requires r in s0.source && Above(r, s0.ckpt) && forall x :: x in s0.source && Above(x, s0.ckpt) ==> x == r
    requires Finishes(c, s0, acts, a)
    ensures Step(c, Exec(c, s0, acts), a).applied == [r]
    ensures Step(c, Exec(c, s0, acts), a).ckpt == Some(KeyOf(r))
  {
    FinishState(c, s0, acts, a);
    ScanFacts(s0.source, s0.ckpt);
    SortedUnique(Scan(s0.source, s0.ckpt), [r]);
  }
}
