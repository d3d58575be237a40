/** Undisturbed runs: the history of one execution that nothing interrupts, and when it reaches the end. */
module EngineRuns {
  import opened Rows
  import opened Keyset
  import opened Sinks
  import opened Status
  import opened Engine
  import opened EngineProtocol

  /** The source is as it was, and no transaction is open. */
  predicate Keeps(s: Sys, s': Sys) {
    s'.source == s.source && s'.changes == s.changes && s'.pend == CLEAN
  }

  // ---------- Opening ----------

  lemma Claims(c: Config, s: Sys)
    requires s.pc.Idle? && s.status == RUN_REQUESTED && s.pend == CLEAN && c.enabled
    ensures Exec(c, s, [Tick] + [DispatchClaim]).status == RUNNING
    ensures var s' := Exec(c, s, [Tick] + [DispatchClaim]);
      && s'.pc.Claimed? && s'.runs == s.runs
      && Keeps(s, s') && s'.ckpt == s.ckpt && s'.sink == s.sink
  {
    ExecTwo(c, s, Tick, DispatchClaim);
  }

  lemma Starts(c: Config, s: Sys, n: nat)
    requires s.pc.Claimed? && s.pend == CLEAN && n >= 1
    ensures var s' := Exec(c, s, [Snapshot(n)] + [StartRun]);
      && s'.pc == Body(n, 1, AtLoad) && s'.status == s.status
      && s'.runs == s.runs + [Run(RunRunning, 0, 0)]
      && Keeps(s, s') && s'.ckpt == s.ckpt && s'.sink == s.sink
  {
    ExecTwo(c, s, Snapshot(n), StartRun);
  }

  /** From a queued pipeline to the first batch of its run. */
  function Opening(n: nat): seq<Action> {
    ([Tick] + [DispatchClaim]) + ([Snapshot(n)] + [StartRun])
  }

  lemma OpensRun(c: Config, s: Sys, n: nat)
    requires s.pc.Idle? && s.status == RUN_REQUESTED && s.pend == CLEAN && c.enabled && n >= 1
    ensures var s' := Exec(c, s, Opening(n));
      && s'.status == RUNNING && s'.pc == Body(n, 1, AtLoad)
      && s'.runs == s.runs + [Run(RunRunning, 0, 0)]
      && Keeps(s, s') && s'.ckpt == s.ckpt && s'.sink == s.sink
  {
    Claims(c, s);
    Starts(c, Exec(c, s, [Tick] + [DispatchClaim]), n);
    ExecAppend(c, s, [Tick] + [DispatchClaim], [Snapshot(n)] + [StartRun]);
  }

  // ---------- The batch loop ----------

  /** One iteration. */
  const BATCH := ([Fetch] + [WriteBatch]) + ([Mark] + [Save]) + [Check]

  lemma FetchesPage(c: Config, s: Sys)
    requires s.pc.Body? && s.pc.at.AtFetch? && PageOf(s) != []
    ensures var p, b := s.pc.at, PageOf(s);
      Step(c, s, Fetch) == s.(pc := s.pc.(at := AtWrite(p.cursor, p.read + |b|, p.written, b)))
  {
  }

  lemma WritesPage(c: Config, s: Sys)
    requires s.pc.Body? && s.pc.at.AtWrite?
    ensures Step(c, s, WriteBatch) == WriteDone(c, s)
  {
  }

  lemma MarksPage(c: Config, s: Sys)
    requires MayMark(s)
    ensures Step(c, s, Mark) == Marked(s)
  {
  }

  lemma SavesPage(c: Config, s: Sys)
    requires s.pc.Body? && s.pc.at.AtSave?
    ensures Step(c, s, Save) == At(Commit(s), AtCheck(s.pc.at.cursor, s.pc.at.read, s.pc.at.written))
  {
  }

  lemma ChecksPage(c: Config, s: Sys)
    requires s.pc.Body? && s.pc.at.AtCheck? && s.status != PAUSE_REQUESTED
    ensures Step(c, s, Check) == At(s, AtFetch(s.pc.at.cursor, s.pc.at.read, s.pc.at.written))
  {
  }

  /** An undisturbed run between two batches. */
  predicate AtLoop(s: Sys) {
    && s.status == RUNNING && s.pend == CLEAN && s.runs != []
    && s.pc.Body? && s.pc.at.AtFetch? && s.pc.at.cursor == s.ckpt
  }

  lemma FetchesAndWrites(c: Config, s: Sys)
    requires AtLoop(s) && PageOf(s) != []
    ensures var p, b, cells := s.pc.at, PageOf(s), Written(c.out, PageOf(s));
      Exec(c, s, [Fetch] + [WriteBatch])
      == s.(sink := if c.es then s.sink + cells else s.sink,
            pend := Overlay(if c.es then map[] else cells, None, []),
            pc := s.pc.(at := AtMark(p.cursor, p.read + |b|, p.written + |c.out(b)|, b)))
  {
    FetchesPage(c, s);
    WritesPage(c, Step(c, s, Fetch));
    ExecTwo(c, s, Fetch, WriteBatch);
    NoCells(Written(c.out, PageOf(s)));
  }

  lemma NoCells(cells: Sink)
    ensures map[] + cells == cells && cells + map[] == cells
  {
  }

  lemma MarksAndSaves(c: Config, s: Sys)
    requires MayMark(s) && s.runs != [] && s.pend.mark == None && s.pend.rows == []
    ensures var p, k, s' := s.pc.at, KeyOf(Last(s.pc.at.batch)), Exec(c, s, [Mark] + [Save]);
      && s'.pc == s.pc.(at := AtCheck(Some(k), p.read, p.written)) && s'.ckpt == Some(k)
      && s'.sink == s.sink + s.pend.writes && Keeps(s, s') && s'.status == s.status && s'.runs == s.runs
  {
    MarksPage(c, s);
    SavesPage(c, Step(c, s, Mark));
    ExecTwo(c, s, Mark, Save);
  }

  /** One iteration publishes its page and moves the checkpoint to its last key. */
  lemma RunsBatch(c: Config, s: Sys)
    requires AtLoop(s) && PageOf(s) != [] && Last(PageOf(s)).ts.Some?
    ensures var p, b, s' := s.pc.at, PageOf(s), Exec(c, s, BATCH);
      && AtLoop(s') && Keeps(s, s') && s'.runs == s.runs && s'.sink == s.sink + Written(c.out, b)
      && s'.pc == s.pc.(at := AtFetch(Some(KeyOf(Last(b))), p.read + |b|, p.written + |c.out(b)|))
  {
    var s2 := Exec(c, s, [Fetch] + [WriteBatch]);
    var s4 := Exec(c, s2, [Mark] + [Save]);
    FetchesAndWrites(c, s);
    MarksAndSaves(c, s2);
    ChecksPage(c, s4);
    ExecAppend(c, s, [Fetch] + [WriteBatch], [Mark] + [Save]);
    ExecSnoc(c, s, ([Fetch] + [WriteBatch]) + ([Mark] + [Save]), Check);
    NoCells(s.sink + Written(c.out, PageOf(s)));
  }

  /** The iterations of a run, and the query that finds nothing more. */
  function Loop(source: seq<Row>, cursor: Option<Key>, n: nat): seq<Action>
    requires Distinct(source) && n >= 1 && Drain(source, cursor, n).Some?
    decreases |Scan(source, cursor)|
  {
    var b := Page(source, cursor, n);
    if b == [] then [Fetch]
    else
      CursorAdvances(source, cursor, n);
      BATCH + Loop(source, Some(KeyOf(Last(b))), n)
  }

  /** What a loop that began in s and ended in s' has done. */
  ghost predicate Looped(c: Config, s: Sys, s': Sys)
    requires s.pc.Body? && s.pc.at.AtFetch?
  {
    && s'.status == RUNNING && Keeps(s, s') && s'.runs == s.runs
    && s'.pc.Body? && s'.pc.n == s.pc.n && s'.pc.attempt == s.pc.attempt && s'.pc.at.AtDone? && s'.pc.at.drained
    && s'.pc.at.read == s.pc.at.read + |Scan(s.source, s.ckpt)|
    && (RowWise(c.out) ==>
          && s'.sink == s.sink + Written(c.out, Scan(s.source, s.ckpt))
          && s'.pc.at.written == s.pc.at.written + |c.out(Scan(s.source, s.ckpt))|)
  }

  lemma LoopEnds(c: Config, s: Sys)
    requires AtLoop(s) && s.pc.n >= 1 && Distinct(s.source) && PageOf(s) == []
    ensures Looped(c, s, Exec(c, s, [Fetch]))
  {
    ExecOne(c, s, Fetch);
    PageFacts(s.source, s.ckpt, s.pc.n);
    ScanFacts(s.source, s.ckpt);
    HasMember(Scan(s.source, s.ckpt));
    forall r | r in s.source ensures !Above(r, s.ckpt) { WhereDropsNulls(r, s.ckpt); }
    if RowWise(c.out) {
      WrittenNothing(c.out);
      NoCells(s.sink);
    }
  }

  lemma LoopGoesOn(c: Config, s: Sys, s1: Sys, s2: Sys, b: seq<Row>)
    requires s.pc.Body? && s.pc.at.AtFetch? && s1.pc.Body? && s1.pc.at.AtFetch? && Looped(c, s1, s2)
    requires Keeps(s, s1) && s1.runs == s.runs && s1.pc.n == s.pc.n && s1.pc.attempt == s.pc.attempt
    requires s1.sink == s.sink + Written(c.out, b)
    requires s1.pc.at.read == s.pc.at.read + |b| && s1.pc.at.written == s.pc.at.written + |c.out(b)|
    requires Scan(s.source, s.ckpt) == b + Scan(s.source, s1.ckpt)
    ensures Looped(c, s, s2)
  {
    var rest := Scan(s.source, s1.ckpt);
    if RowWise(c.out) {
      WrittenAppend(c.out, b, rest);
      OverlayAssociates(s.sink, Written(c.out, b), Written(c.out, rest));
      assert c.out(b + rest) == c.out(b) + c.out(rest);
    }
  }

  lemma {:induction false} RunsLoop(c: Config, s: Sys)
    requires AtLoop(s) && s.pc.n >= 1 && Distinct(s.source) && Drain(s.source, s.ckpt, s.pc.n).Some?
    ensures Looped(c, s, Exec(c, s, Loop(s.source, s.ckpt, s.pc.n)))
    decreases |Scan(s.source, s.ckpt)|
  {
    var b, n := PageOf(s), s.pc.n;
    if b == [] {
      LoopEnds(c, s);
    } else {
      var s1 := Exec(c, s, BATCH);
      CursorAdvances(s.source, s.ckpt, n);
      PageSplitsScan(s.source, s.ckpt, n);
      RunsBatch(c, s);
      RunsLoop(c, s1);
      ExecAppend(c, s, BATCH, Loop(s.source, s1.ckpt, n));
      LoopGoesOn(c, s, s1, Exec(c, s1, Loop(s.source, s1.ckpt, n)), b);
    }
  }

  // ---------- The whole run ----------

  /** A queued pipeline's run up to its finalisation, all with one batch size. */
  function Undisturbed(source: seq<Row>, ckpt: Option<Key>, n: nat): seq<Action>
    requires Distinct(source) && n >= 1 && Drain(source, ckpt, n).Some?
  {
    (Opening(n) + [Load]) + Loop(source, ckpt, n) + ([FinishRun] + [Settle])
  }

  lemma Loads(c: Config, s: Sys)
    requires s.pc.Body? && s.pc.at.AtLoad?
    ensures Step(c, s, Load) == s.(pc := s.pc.(at := AtFetch(s.ckpt, 0, 0)))
  {
  }

  lemma FinishesAndSettles(c: Config, s: Sys)
    requires s.status == RUNNING && s.pend == CLEAN && s.runs != [] && s.pc.Body? && s.pc.at.AtDone?
    ensures var p, s' := s.pc.at, Exec(c, s, [FinishRun] + [Settle]);
      && s'.status == RUNNING && Keeps(s, s') && s'.sink == s.sink
      && s'.pc == Closing(s.pc.n, s.pc.attempt, p.drained)
      && s'.runs == s.runs[|s.runs| - 1 := Run(RunSuccess, p.read, p.written)]
  {
    CommitClean(s.(runs := s.runs[|s.runs| - 1 := Run(RunSuccess, s.pc.at.read, s.pc.at.written)]));
    ExecTwo(c, s, FinishRun, Settle);
  }

  lemma Closes(c: Config, s: Sys)
    requires s.status == RUNNING && s.pend == CLEAN && s.pc.Closing?
    ensures var s' := Step(c, s, Close); s'.status == IDLE && s'.pc == Idle && s'.sink == s.sink && s'.runs == s.runs
  {
    CommitClean(s.(status := IDLE));
  }

  /**
   * A queued, enabled pipeline whose batches can all be committed has a history to
   * IDLE: one run, which reads every keyed row above the checkpoint once.
   */
  lemma UndisturbedRunFinishes(c: Config, s: Sys, n: nat)
    requires s.pc.Idle? && s.status == RUN_REQUESTED && s.pend == CLEAN && c.enabled
    requires n >= 1 && Distinct(s.source) && Drain(s.source, s.ckpt, n).Some?
    ensures var s1 := Exec(c, s, Undisturbed(s.source, s.ckpt, n));
      var s2, scan := Step(c, s1, Close), Scan(s.source, s.ckpt);
      && s1.status == RUNNING && s1.changes == s.changes && s2.status == IDLE
      && |s2.runs| == |s.runs| + 1 && s2.runs[..|s.runs|] == s.runs
      && Last(s2.runs).status == RunSuccess && Last(s2.runs).read == |scan|
      && (RowWise(c.out) ==>
            s2.sink == s.sink + Written(c.out, scan) && Last(s2.runs).written == |c.out(scan)|)
  {
    var loop := Loop(s.source, s.ckpt, n);
    var begun := Exec(c, s, Opening(n));
    OpensRun(c, s, n);
    Loads(c, begun);
    ExecSnoc(c, s, Opening(n), Load);
    var loaded := Exec(c, s, Opening(n) + [Load]);
    RunsLoop(c, loaded);
    ExecAppend(c, s, Opening(n) + [Load], loop);
    var drained := Exec(c, loaded, loop);
    FinishesAndSettles(c, drained);
    ExecAppend(c, s, (Opening(n) + [Load]) + loop, [FinishRun] + [Settle]);
    Closes(c, Exec(c, drained, [FinishRun] + [Settle]));
  }

  lemma {:induction false} LoopHasNoSnapshot(source: seq<Row>, cursor: Option<Key>, n: nat)
    requires Distinct(source) && n >= 1 && Drain(source, cursor, n).Some?
    ensures forall a :: a in Loop(source, cursor, n) ==> !a.Snapshot?
    decreases |Scan(source, cursor)|
  {
    var b := Page(source, cursor, n);
    if b != [] {
      CursorAdvances(source, cursor, n);
      LoopHasNoSnapshot(source, Some(KeyOf(Last(b))), n);
    }
  }

  lemma UndisturbedSizes(source: seq<Row>, ckpt: Option<Key>, n: nat)
    requires Distinct(source) && n >= 1 && Drain(source, ckpt, n).Some?
    ensures forall a :: a in Undisturbed(source, ckpt, n) && a.Snapshot? ==> a.n == n
  {
    LoopHasNoSnapshot(source, ckpt, n);
  }
}
