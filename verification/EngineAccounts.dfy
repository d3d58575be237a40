/** Row accounting: what etl_runs records against what has been committed. */
module EngineAccounts {
  import opened Rows
  import opened Keyset
  import opened Sinks
  import opened Status
  import opened Engine
  import opened EngineProtocol
  import opened EngineProgress
  import opened EngineSafety

  function Flatten(ss: seq<seq<Row>>): seq<Row> {
    if ss == [] then [] else Flatten(ss[..|ss| - 1]) + Last(ss)
  }

  /** Sum of rows_read over the successful runs. */
  function Recorded(runs: seq<Run>): nat {
    if runs == [] then 0
    else Recorded(runs[..|runs| - 1]) + if Last(runs).status == RunSuccess then Last(runs).read else 0
  }

  /** Rows committed by runs that failed, crashed or are still running. */
  function Unrecorded(runs: seq<Run>, landed: seq<seq<Row>>): nat
    requires |runs| == |landed|
  {
    if runs == [] then 0
    else Unrecorded(runs[..|runs| - 1], landed[..|runs| - 1])
         + if Last(runs).status == RunSuccess then 0 else |Last(landed)|
  }

  /** For a row-wise output, what was written is what these rows became. */
  ghost predicate Became(c: Config, written: nat, rows: seq<Row>) {
    RowWise(c.out) ==> written == |c.out(rows)|
  }

  /** A finished or abandoned run of this history: counts on success, zeros otherwise. */
  ghost predicate RunOk(c: Config, r: Run, rows: seq<Row>) {
    if r.status == RunSuccess then r.read == |rows| && Became(c, r.written, rows)
    else r.read == 0 && r.written == 0
  }

  ghost predicate HistoryOk(c: Config, s0: Sys, s: Sys) {
    && |s0.runs| <= |s.runs| == |s.landed|
    && (forall i :: 0 <= i < |s0.runs| ==> s.landed[i] == [])
    && (forall i :: |s0.runs| <= i < |s.runs| ==> RunOk(c, s.runs[i], s.landed[i]))
    && Flatten(s.landed) == s.applied
  }

  /** The counters of the loop against what the current run has committed and fetched. */
  ghost predicate CountersOk(c: Config, s: Sys, mine: seq<Row>)
    requires s.pc.Body?
  {
    match s.pc.at
    case AtLoad => mine == []
    case AtFetch(_, read, written) => read == |mine| && Became(c, written, mine)
    case AtWrite(_, read, written, b) => read == |mine + b| && Became(c, written, mine)
    case AtMark(_, read, written, b) => read == |mine + b| && Became(c, written, mine + b)
    case AtSave(_, read, written, b) => read == |mine + b| && Became(c, written, mine + b)
    case AtCheck(_, read, written) => read == |mine| && Became(c, written, mine)
    case AtPause(read, written) => read == |mine| && Became(c, written, mine)
    case AtDone(read, written, _) => read == |mine| && Became(c, written, mine)
  }

  ghost predicate CurrentOk(c: Config, s0: Sys, s: Sys) {
    && (s.pc.Body? || s.pc.Failing? || s.pc.RolledBack? ==>
          |s0.runs| < |s.runs| && |s.landed| == |s.runs| && Last(s.runs).status == RunRunning)
    && (s.pc.Body? ==> |s.landed| > 0 && CountersOk(c, s, Last(s.landed)))
  }

  ghost predicate Accounts(c: Config, s0: Sys, s: Sys) {
    HistoryOk(c, s0, s) && CurrentOk(c, s0, s)
  }

  /** Only these actions change the list of runs. */
  predicate TouchesRuns(a: Action) {
    a.StartRun? || a.FinishRun? || a.RecordFailure? || a.Recover?
  }

  lemma RunsFrame(c: Config, s: Sys, a: Action)
    requires !TouchesRuns(a)
    ensures Step(c, s, a).runs == s.runs
  {
  }

  lemma CountersMove(c: Config, s: Sys, a: Action, mine: seq<Row>)
    requires s.pc.Body? && CountersOk(c, s, mine)
    requires !TouchesRuns(a) && !a.Save? && !a.WriteBatch?
    ensures Step(c, s, a).pc.Body? ==> CountersOk(c, Step(c, s, a), mine)
  {
    if RowWise(c.out) {
      WrittenNothing(c.out);
    }
    match a {
      case Load =>
      case Fetch =>
      case Mark =>
      case Check =>
      case Pause =>
      case _ =>
    }
  }

  lemma CountersStep(c: Config, s0: Sys, s: Sys, a: Action)
    requires SessionOk(c, s) && CurrentOk(c, s0, s)
    requires !TouchesRuns(a) && !a.Save? && !a.WriteBatch?
    ensures CurrentOk(c, s0, Step(c, s, a))
  {
    CommitFrame(c, s, a);
    RunsFrame(c, s, a);
    if s.pc.Body? {
      CountersMove(c, s, a, Last(s.landed));
    }
  }

  lemma WriteCounters(c: Config, s0: Sys, s: Sys)
    requires CurrentOk(c, s0, s) && Enabled(c, s, WriteBatch)
    ensures CurrentOk(c, s0, Next(c, s, WriteBatch))
  {
    if RowWise(c.out) {
      assert c.out(Last(s.landed) + s.pc.at.batch) == c.out(Last(s.landed)) + c.out(s.pc.at.batch);
    }
  }

  lemma FlattenCredit(landed: seq<seq<Row>>, rows: seq<Row>)
    requires landed != []
    ensures Flatten(Credit(landed, rows)) == Flatten(landed) + rows
  {
    var credited := Credit(landed, rows);
    assert credited[..|credited| - 1] == landed[..|landed| - 1];
  }

  lemma SaveAccounts(c: Config, s0: Sys, s: Sys)
    requires SessionOk(c, s) && Accounts(c, s0, s) && Enabled(c, s, Save)
    ensures Accounts(c, s0, Next(c, s, Save))
  {
    FlattenCredit(s.landed, s.pc.at.batch);
  }

  lemma StartRunAccounts(c: Config, s0: Sys, s: Sys)
    requires SessionOk(c, s) && Accounts(c, s0, s) && Enabled(c, s, StartRun)
    ensures Accounts(c, s0, Next(c, s, StartRun))
  {
    CommitClean(s);
    assert (s.landed + [[]])[..|s.landed|] == s.landed;
    assert s.applied + [] == s.applied;
  }

  lemma EndRunAccounts(c: Config, s0: Sys, s: Sys, a: Action)
    requires SessionOk(c, s) && Accounts(c, s0, s) && Enabled(c, s, a) && (a.FinishRun? || a.RecordFailure?)
    ensures Accounts(c, s0, Next(c, s, a))
  {
    var r := if a.FinishRun? then Run(RunSuccess, s.pc.at.read, s.pc.at.written) else FailedRun(s.runs);
    CommitClean(s.(runs := s.runs[|s.runs| - 1 := r]));
  }

  lemma RecoverAccounts(c: Config, s0: Sys, s: Sys)
    requires SessionOk(c, s) && Accounts(c, s0, s) && Enabled(c, s, Recover)
    ensures Accounts(c, s0, Next(c, s, Recover))
  {
    CommitClean(s.(runs := FailRunning(s.runs), status := Cas(Requeue, s.status)));
  }

  lemma AccountsStep(c: Config, s0: Sys, s: Sys, a: Action)
    requires SessionOk(c, s) && Accounts(c, s0, s)
    ensures Accounts(c, s0, Step(c, s, a))
  {
    if !Enabled(c, s, a) {
    } else if a.Save? {
      SaveAccounts(c, s0, s);
    } else if a.StartRun? {
      StartRunAccounts(c, s0, s);
    } else if a.FinishRun? || a.RecordFailure? {
      EndRunAccounts(c, s0, s, a);
    } else if a.Recover? {
      RecoverAccounts(c, s0, s);
    } else {
      CommitFrame(c, s, a);
      RunsFrame(c, s, a);
      if a.WriteBatch? {
        WriteCounters(c, s0, s);
      } else {
        CountersStep(c, s0, s, a);
      }
    }
  }

  lemma {:induction false} FlattenNothing(landed: seq<seq<Row>>)
    requires forall i :: 0 <= i < |landed| ==> landed[i] == []
    ensures Flatten(landed) == []
  {
    if landed != [] {
      FlattenNothing(landed[..|landed| - 1]);
    }
  }

  lemma {:induction false} AccountsAlways(c: Config, s0: Sys, acts: seq<Action>)
    requires Initial(s0)
    ensures Accounts(c, s0, Exec(c, s0, acts))
  {
    if acts == [] {
      FlattenNothing(s0.landed);
    } else {
      var before := acts[..|acts| - 1];
      AccountsAlways(c, s0, before);
      ProtoAlways(c, s0, before);
      AccountsStep(c, s0, Exec(c, s0, before), Last(acts));
    }
  }

  // ---------- Main results ----------

  lemma {:induction false} SumOfRuns(c: Config, base: nat, runs: seq<Run>, landed: seq<seq<Row>>)
    requires base <= |runs| == |landed|
    requires forall i :: 0 <= i < base ==> landed[i] == []
    requires forall i :: base <= i < |runs| ==> RunOk(c, runs[i], landed[i])
    ensures |Flatten(landed)| == Recorded(runs[base..]) + Unrecorded(runs[base..], landed[base..])
  {
    if |runs| == base {
      FlattenNothing(landed);
    } else {
      var runs', landed' := runs[..|runs| - 1], landed[..|runs| - 1];
      SumOfRuns(c, base, runs', landed');
      assert runs[base..][..|runs| - base - 1] == runs'[base..];
      assert landed[base..][..|runs| - base - 1] == landed'[base..];
    }
  }

  /**
   * The rows committed so far are those counted by successful runs plus those
   * committed by attempts that failed or crashed, whose own counts stay 0; and a
   * successful run counts exactly the rows it committed, and for a row-wise output
   * what they became.
   */
  lemma RowAccounting(c: Config, s0: Sys, acts: seq<Action>)
    requires Initial(s0)
    ensures var s, base := Exec(c, s0, acts), |s0.runs|;
      && base <= |s.runs| == |s.landed|
      && Flatten(s.landed) == s.applied
      && |s.applied| == Recorded(s.runs[base..]) + Unrecorded(s.runs[base..], s.landed[base..])
      && forall i :: base <= i < |s.runs| ==> RunOk(c, s.runs[i], s.landed[i])
  {
    AccountsAlways(c, s0, acts);
    var s := Exec(c, s0, acts);
    SumOfRuns(c, |s0.runs|, s.runs, s.landed);
  }

  lemma {:induction false} FlattenHas(landed: seq<seq<Row>>, i: nat, r: Row)
    requires i < |landed| && r in landed[i]
    ensures r in Flatten(landed)
  {
    if i < |landed| - 1 {
      FlattenHas(landed[..|landed| - 1], i, r);
    }
  }

  lemma SortedSplit(a: seq<Row>, b: seq<Row>)
    requires Sorted(a + b)
    ensures Sorted(a)
    ensures forall r :: r in a ==> r !in b
  {
    SortedPrefix(a, b);
    forall p, q | 0 <= p < |a| && 0 <= q < |b| ensures a[p] != b[q] {
      assert Before((a + b)[p], (a + b)[|a| + q]);
    }
  }

  lemma {:induction false} SortedOnce(landed: seq<seq<Row>>, i: nat, j: nat, r: Row)
    requires Sorted(Flatten(landed))
    requires i < j < |landed| && r in landed[i]
    ensures r !in landed[j]
  {
    var rest := landed[..|landed| - 1];
    SortedSplit(Flatten(rest), Last(landed));
    if j < |landed| - 1 {
      SortedOnce(rest, i, j, r);
    } else {
      FlattenHas(rest, i, r);
    }
  }

  lemma SortedPrefix(a: seq<Row>, b: seq<Row>)
    requires Sorted(a + b)
    ensures Sorted(a)
  {
    forall i, j | 0 <= i < j < |a| ensures Before(a[i], a[j]) {
      assert Before((a + b)[i], (a + b)[j]);
    }
  }

  /** No row is committed, hence counted, by two runs. */
  lemma CountedOnce(c: Config, s0: Sys, acts: seq<Action>, i: nat, j: nat, r: Row)
    requires Initial(s0)
    requires i < |Exec(c, s0, acts).landed| && j < |Exec(c, s0, acts).landed|
    requires r in Exec(c, s0, acts).landed[i] && r in Exec(c, s0, acts).landed[j]
    ensures i == j
  {
    AccountsAlways(c, s0, acts);
    ProgressAlways(c, s0, acts);
    var landed := Exec(c, s0, acts).landed;
    if i < j {
      SortedOnce(landed, i, j, r);
    } else if j < i {
      SortedOnce(landed, j, i, r);
    }
  }

  /** No run since the beginning counts anything, and the running one has counted no committed batch. */
  ghost predicate Uncounted(s: Sys, base: nat) {
    && (forall i :: base <= i < |s.runs| ==> s.runs[i].read == 0 && s.runs[i].written == 0)
    && match s.pc
       case Body(_, _, AtFetch(_, read, written)) => read == 0 && written == 0
       case Body(_, _, AtCheck(_, read, written)) => read == 0 && written == 0
       case Body(_, _, AtPause(read, written)) => read == 0 && written == 0
       case Body(_, _, AtDone(read, written, _)) => read == 0 && written == 0
       case _ => true
  }

  lemma UncountedRuns(c: Config, s: Sys, a: Action, base: nat)
    requires Uncounted(s, base) && TouchesRuns(a)
    ensures Uncounted(Step(c, s, a), base)
  {
  }

  lemma UncountedStep(c: Config, s: Sys, a: Action, base: nat)
    requires Uncounted(s, base) && !IsSave(c, s, a)
    ensures Uncounted(Step(c, s, a), base)
  {
    if TouchesRuns(a) {
      UncountedRuns(c, s, a, base);
    } else {
      RunsFrame(c, s, a);
      if InLoop(a) {
        UncountedInLoop(c, s, a, base);
      } else {
        UncountedElsewhere(c, s, a, base);
      }
    }
  }

  lemma UncountedInLoop(c: Config, s: Sys, a: Action, base: nat)
    requires Uncounted(s, base) && !IsSave(c, s, a) && InLoop(a) && Step(c, s, a).runs == s.runs
    ensures Uncounted(Step(c, s, a), base)
  {
  }

  lemma UncountedElsewhere(c: Config, s: Sys, a: Action, base: nat)
    requires Uncounted(s, base) && !InLoop(a) && Step(c, s, a).runs == s.runs
    ensures Uncounted(Step(c, s, a), base)
  {
  }

  lemma {:induction false} UncountedAlways(c: Config, s0: Sys, acts: seq<Action>)
    requires Initial(s0) && Exec(c, s0, acts).changes == 0
    requires forall r :: r in s0.source ==> !Above(r, s0.ckpt)
    ensures Uncounted(Exec(c, s0, acts), |s0.runs|)
  {
    if acts != [] {
      var before, a := acts[..|acts| - 1], Last(acts);
      var s := Exec(c, s0, before);
      ChangesGrow(c, s, a);
      UncountedAlways(c, s0, before);
      ProtoAlways(c, s0, before);
      DrainedCommitsNothing(c, s0, acts);
      if IsSave(c, s, a) {
        SaveCommits(c, s);
      }
      UncountedStep(c, s, a, |s0.runs|);
    }
  }

  /** On an unchanged drained source every run of every history reports 0 read and 0 written, for any transform. */
  lemma DrainedRerunReadsNothing(c: Config, s0: Sys, acts: seq<Action>, i: nat)
    requires Initial(s0)
    requires forall r :: r in s0.source ==> !Above(r, s0.ckpt)
    requires Exec(c, s0, acts).changes == 0
    requires |s0.runs| <= i < |Exec(c, s0, acts).runs|
    ensures var run := Exec(c, s0, acts).runs[i]; run.read == 0 && run.written == 0
  {
    UncountedAlways(c, s0, acts);
  }

  lemma {:induction false} SuccessesRecordAll(runs: seq<Run>, landed: seq<seq<Row>>)
    requires |runs| == |landed| && forall i :: 0 <= i < |runs| ==> runs[i].status == RunSuccess
    ensures Unrecorded(runs, landed) == 0
  {
    if runs != [] {
      SuccessesRecordAll(runs[..|runs| - 1], landed[..|runs| - 1]);
    }
  }

  /**
   * After one row was touched, a finished history has committed one row; the runs report
   * 1 read in all, unless an attempt that failed or crashed was the one that committed it.
   */
  lemma TouchedRowReadOnce(c: Config, s0: Sys, acts: seq<Action>, r: Row)
    requires Initial(s0)
    requires r in s0.source && Above(r, s0.ckpt) && forall x :: x in s0.source && Above(x, s0.ckpt) ==> x == r
    requires Exec(c, s0, acts).changes == 0 && Drained(Exec(c, s0, acts).pc)
    ensures var s, base := Exec(c, s0, acts), |s0.runs|;
      && base <= |s.runs| == |s.landed|
      && Recorded(s.runs[base..]) + Unrecorded(s.runs[base..], s.landed[base..]) == 1
      && ((forall i :: base <= i < |s.runs| ==> s.runs[i].status == RunSuccess) ==> Recorded(s.runs[base..]) == 1)
  {
    var s, base := Exec(c, s0, acts), |s0.runs|;
    RowAccounting(c, s0, acts);
    ProgressAlways(c, s0, acts);
    DrainedIsScan(s0, s);
    ScanFacts(s0.source, s0.ckpt);
    SortedUnique(Scan(s0.source, s0.ckpt), [r]);
    if forall i :: base <= i < |s.runs| ==> s.runs[i].status == RunSuccess {
      SuccessesRecordAll(s.runs[base..], s.landed[base..]);
    }
  }
}
