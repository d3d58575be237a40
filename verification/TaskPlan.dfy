/** Validation and normalisation of a pipeline's task list. */
module TaskPlan {
  import opened Rows
  import opened Strings
  import opened Targets

  datatype Task = Task(order: int, kind: string, body: string, target: Option<string>)

  datatype PlanError =
    | Duplicate(order: int) | EmptyKind(order: int) | EmptyBody(order: int)
    | FirstNotSql | RestNotPython | EarlyTarget(order: int) | TargetNotAllowed(target: Option<string>)

  /** The normalised plan, or why there is none. */
  datatype Validated = Accepted(plan: seq<Task>) | Refused(error: PlanError)

  // ---------- sorted(key=order_index) ----------

  /** Stable insertion. */
  function InsertTask(t: Task, ts: seq<Task>): seq<Task> {
    if ts == [] then [t]
    else if t.order <= ts[0].order then [t] + ts
    else [ts[0]] + InsertTask(t, ts[1..])
  }

  function SortTasks(ts: seq<Task>): seq<Task> {
    if ts == [] then [] else InsertTask(ts[0], SortTasks(ts[1..]))
  }

  predicate Ascending(ts: seq<Task>) {
    forall i, j :: 0 <= i < j < |ts| ==> ts[i].order <= ts[j].order
  }

  predicate Strict(ts: seq<Task>) {
    forall i, j :: 0 <= i < j < |ts| ==> ts[i].order < ts[j].order
  }

  lemma {:induction false} InsertTaskMembers(t: Task, ts: seq<Task>)
    ensures multiset(InsertTask(t, ts)) == multiset(ts) + multiset{t}
    ensures forall x :: x in InsertTask(t, ts) ==> x == t || x in ts
  {
    if ts == [] {
      assert InsertTask(t, ts) == [t];
    } else if t.order <= ts[0].order {
      assert multiset([t] + ts) == multiset([t]) + multiset(ts);
    } else {
      var head, rest := [ts[0]], InsertTask(t, ts[1..]);
      InsertTaskMembers(t, ts[1..]);
      assert ts == head + ts[1..];
      assert InsertTask(t, ts) == head + rest;
      assert multiset(head + rest) == multiset(head) + multiset(rest);
      assert multiset(head + ts[1..]) == multiset(head) + multiset(ts[1..]);
    }
  }

  lemma {:induction false} InsertTaskSorts(t: Task, ts: seq<Task>)
    requires Ascending(ts)
    ensures Ascending(InsertTask(t, ts))
  {
    if ts == [] {
    } else if t.order <= ts[0].order {
      AscendingCons(t, ts);
    } else {
      var rest := InsertTask(t, ts[1..]);
      InsertTaskSorts(t, ts[1..]);
      InsertTaskMembers(t, ts[1..]);
      forall i | 0 <= i < |rest| ensures ts[0].order <= rest[i].order {
        assert rest[i] in rest;
        if rest[i] != t {
          var k :| 0 <= k < |ts| - 1 && ts[1..][k] == rest[i];
          assert ts[k + 1] == rest[i];
        }
      }
      AscendingCons(ts[0], rest);
    }
  }

  lemma AscendingCons(t: Task, ts: seq<Task>)
    requires Ascending(ts) && forall i :: 0 <= i < |ts| ==> t.order <= ts[i].order
    ensures Ascending([t] + ts)
  {
  }

  lemma {:induction false} SortTasksSorts(ts: seq<Task>)
    ensures Ascending(SortTasks(ts)) && multiset(SortTasks(ts)) == multiset(ts)
  {
    if ts != [] {
      assert ts == [ts[0]] + ts[1..];
      SortTasksSorts(ts[1..]);
      InsertTaskSorts(ts[0], SortTasks(ts[1..]));
      InsertTaskMembers(ts[0], SortTasks(ts[1..]));
    }
  }

  lemma SameMembers(a: seq<Task>, b: seq<Task>)
    requires multiset(a) == multiset(b)
    ensures |a| == |b| && forall t :: t in a <==> t in b
  {
    assert |multiset(a)| == |a| && |multiset(b)| == |b|;
    forall t ensures t in a <==> t in b {
      assert t in a <==> t in multiset(a);
      assert t in b <==> t in multiset(b);
    }
  }

  /** A strictly increasing list is determined by its members. */
  lemma {:induction false} StrictUnique(a: seq<Task>, b: seq<Task>)
    requires Strict(a) && Strict(b) && |a| == |b| && forall t :: t in a <==> t in b
    ensures a == b
  {
    if a != [] {
      assert a[0] in b && b[0] in a;
      assert a[0] == b[0];
      forall t ensures t in a[1..] <==> t in b[1..] {
        assert t in a <==> t == a[0] || t in a[1..];
        assert t in b <==> t == b[0] || t in b[1..];
      }
      StrictUnique(a[1..], b[1..]);
      assert a == [a[0]] + a[1..] && b == [b[0]] + b[1..];
    }
  }

  // ---------- Acceptance, said of the task list as a set ----------

  /** The target of the plan: an empty override falls back to the pipeline's. */
  function FinalTarget(last: Task, target: Option<string>): Option<string> {
    if last.target.Some? && last.target.value != "" then last.target else target
  }

  ghost predicate Unrepeated(ts: seq<Task>) {
    forall i, j :: 0 <= i < j < |ts| ==> ts[i].order != ts[j].order
  }

  /** One SQL reader before PYTHON tasks, only the last task with a target, and that target allowed. */
  ghost predicate WellFormed(ts: seq<Task>, target: Option<string>) {
    && (forall t :: t in ts ==> !AllSpace(t.kind) && !AllSpace(t.body))
    && (exists reader :: reader in ts && reader.kind == "SQL"
          && forall t :: t in ts && t != reader ==> reader.order < t.order && t.kind == "PYTHON")
    && (forall t, u :: t in ts && u in ts && t.order < u.order ==> t.target.None?)
    && (exists last :: last in ts && IsAllowedTarget(FinalTarget(last, target))
          && forall t :: t in ts ==> t.order <= last.order)
  }

  ghost predicate Acceptable(ts: seq<Task>, target: Option<string>) {
    ts == [] || (Unrepeated(ts) && WellFormed(ts, target))
  }

  /** What each error says about the task list. */
  ghost predicate Explains(e: PlanError, ts: seq<Task>, target: Option<string>) {
    match e
    case Duplicate(k) => exists i, j :: 0 <= i < j < |ts| && ts[i].order == ts[j].order == k
    case EmptyKind(k) => exists t :: t in ts && t.order == k && AllSpace(t.kind)
    case EmptyBody(k) => exists t :: t in ts && t.order == k && AllSpace(t.body)
    case FirstNotSql => exists t :: t in ts && t.kind != "SQL" && forall u :: u in ts ==> t.order <= u.order
    case RestNotPython => exists t, u :: t in ts && u in ts && u.order < t.order && t.kind != "PYTHON"
    case EarlyTarget(k) => exists t, u :: t in ts && u in ts && t.order == k < u.order && t.target.Some?
    case TargetNotAllowed(to) =>
      !IsAllowedTarget(to)
      && exists t :: t in ts && to == FinalTarget(t, target) && forall u :: u in ts ==> u.order <= t.order
  }

  // ---------- Repetition and permutation ----------

  lemma RepeatedIsTwice(ts: seq<Task>, i: nat, j: nat)
    requires i < j < |ts| && ts[i] == ts[j]
    ensures multiset(ts)[ts[i]] >= 2
  {
    assert ts == ts[..j] + ts[j..];
    assert ts[..j][i] == ts[i] && ts[j..][0] == ts[i];
    assert ts[i] in multiset(ts[..j]) && ts[i] in multiset(ts[j..]);
  }

  lemma TwiceIsRepeated(ts: seq<Task>, t: Task)
    requires multiset(ts)[t] >= 2
    ensures exists i, j :: 0 <= i < j < |ts| && ts[i] == t && ts[j] == t
  {
    assert t in ts;
    var i :| 0 <= i < |ts| && ts[i] == t;
    var rest := ts[..i] + ts[i + 1..];
    assert ts == ts[..i] + [t] + ts[i + 1..];
    assert t in multiset(rest);
    var k :| 0 <= k < |rest| && rest[k] == t;
    if k < i {
      assert ts[k] == t;
    } else {
      assert ts[k + 1] == t;
    }
  }

  lemma UnrepeatedIsInvariant(a: seq<Task>, b: seq<Task>)
    requires multiset(a) == multiset(b) && Unrepeated(a)
    ensures Unrepeated(b)
  {
    SameMembers(a, b);
    forall i, j | 0 <= i < j < |b| ensures b[i].order != b[j].order {
      assert b[i] in a && b[j] in a;
      if b[i] == b[j] {
        RepeatedIsTwice(b, i, j);
        TwiceIsRepeated(a, b[i]);
      }
    }
  }

  lemma AcceptanceIsInvariant(a: seq<Task>, b: seq<Task>, target: Option<string>)
    requires multiset(a) == multiset(b)
    ensures Acceptable(a, target) <==> Acceptable(b, target)
  {
    SameMembers(a, b);
    if Unrepeated(a) { UnrepeatedIsInvariant(a, b); }
    if Unrepeated(b) { UnrepeatedIsInvariant(b, a); }
  }

  /** Every permutation of a task list is accepted or rejected alike, and normalised alike. */
  lemma PlanIsCanonical(a: seq<Task>, b: seq<Task>, target: Option<string>)
    requires multiset(a) == multiset(b)
    ensures Acceptable(a, target) <==> Acceptable(b, target)
    ensures Acceptable(a, target) ==> SortTasks(a) == SortTasks(b) && Strict(SortTasks(a))
  {
    AcceptanceIsInvariant(a, b, target);
    if Acceptable(a, target) {
      SortTasksSorts(a);
      SortTasksSorts(b);
      if a == [] {
        SameMembers(a, b);
      } else {
        UnrepeatedIsInvariant(a, SortTasks(a));
        UnrepeatedIsInvariant(a, SortTasks(b));
        SameMembers(SortTasks(a), SortTasks(b));
        StrictUnique(SortTasks(a), SortTasks(b));
      }
    }
  }

  lemma ExplanationIsInvariant(e: PlanError, a: seq<Task>, b: seq<Task>, target: Option<string>)
    requires multiset(a) == multiset(b) && Explains(e, a, target)
    ensures Explains(e, b, target)
  {
    SameMembers(a, b);
    if e.Duplicate? {
      var i, j :| 0 <= i < j < |a| && a[i].order == a[j].order == e.order;
      if a[i] == a[j] {
        RepeatedIsTwice(a, i, j);
        TwiceIsRepeated(b, a[i]);
      } else {
        assert a[i] in b && a[j] in b;
        var k, l :| 0 <= k < |b| && 0 <= l < |b| && b[k] == a[i] && b[l] == a[j];
        assert k < l || l < k;
      }
    }
  }

  // ---------- validate_tasks_v1 ----------

  predicate Filled(ts: seq<Task>) {
    forall i :: 0 <= i < |ts| ==> !AllSpace(ts[i].kind) && !AllSpace(ts[i].body)
  }

  /** The first loop: order indexes not seen before, fields not blank. */
  method CheckFields(ts: seq<Task>, target: Option<string>) returns (problem: Option<PlanError>)
    ensures problem.None? <==> Unrepeated(ts) && Filled(ts)
    ensures problem.Some? ==> Explains(problem.value, ts, target)
  {
    var seen: set<int> := {};
    for i := 0 to |ts|
      invariant forall k :: k in seen <==> exists j :: 0 <= j < i && ts[j].order == k
      invariant Unrepeated(ts[..i]) && Filled(ts[..i])
    {
      var t := ts[i];
      if t.order in seen {
        return Some(Duplicate(t.order));
      }
      seen := seen + {t.order};
      StripsToNothing(t.kind);
      StripsToNothing(t.body);
      if Strip(t.kind) == "" {
        return Some(EmptyKind(t.order));
      }
      if Strip(t.body) == "" {
        return Some(EmptyBody(t.order));
      }
    }
    assert ts[..|ts|] == ts;
    problem := None;
  }

  predicate ReaderFirst(ts: seq<Task>)
    requires ts != []
  {
    ts[0].kind == "SQL" && forall i :: 0 < i < |ts| ==> ts[i].kind == "PYTHON"
  }

  /** One SQL reader, then PYTHON tasks. */
  method CheckKinds(ts: seq<Task>, target: Option<string>) returns (problem: Option<PlanError>)
    requires ts != [] && Strict(ts)
    ensures problem.None? <==> ReaderFirst(ts)
    ensures problem.Some? ==> Explains(problem.value, ts, target)
  {
    if ts[0].kind != "SQL" {
      assert ts[0] in ts;
      return Some(FirstNotSql);
    }
    for i := 1 to |ts|
      invariant ReaderFirst(ts[..i])
    {
      if ts[i].kind != "PYTHON" {
        assert ts[i] in ts && ts[0] in ts && ts[0].order < ts[i].order;
        return Some(RestNotPython);
      }
    }
    assert ts[..|ts|] == ts;
    problem := None;
  }

  predicate TargetLast(ts: seq<Task>, target: Option<string>)
    requires ts != []
  {
    && (forall i :: 0 <= i < |ts| - 1 ==> ts[i].target.None?)
    && IsAllowedTarget(FinalTarget(Last(ts), target))
  }

  /** Only the last task may override the target, and the resulting target is allowed. */
  method CheckTargets(ts: seq<Task>, target: Option<string>) returns (problem: Option<PlanError>)
    requires ts != [] && Strict(ts)
    ensures problem.None? <==> TargetLast(ts, target)
    ensures problem.Some? ==> Explains(problem.value, ts, target)
  {
    for i := 0 to |ts| - 1
      invariant forall j :: 0 <= j < i ==> ts[j].target.None?
    {
      if ts[i].target.Some? {
        assert ts[i] in ts && ts[|ts| - 1] in ts && ts[i].order < ts[|ts| - 1].order;
        return Some(EarlyTarget(ts[i].order));
      }
    }
    var final := FinalTarget(Last(ts), target);
    if !IsAllowedTarget(final) {
      assert Last(ts) in ts;
      return Some(TargetNotAllowed(final));
    }
    problem := None;
  }

  lemma PassedChecksMean(ts: seq<Task>, target: Option<string>)
    requires ts != [] && Strict(ts) && Filled(ts) && ReaderFirst(ts) && TargetLast(ts, target)
    ensures WellFormed(ts, target)
  {
    assert ts[0] in ts && Last(ts) in ts;
    forall t | t in ts ensures !AllSpace(t.kind) && !AllSpace(t.body) && t.order <= Last(ts).order
      ensures t != ts[0] ==> ts[0].order < t.order && t.kind == "PYTHON"
      ensures t.target.None? || t == Last(ts)
    {
      var i :| 0 <= i < |ts| && ts[i] == t;
    }
  }

  lemma WellFormedReads(ts: seq<Task>, target: Option<string>)
    requires ts != [] && Strict(ts) && WellFormed(ts, target)
    ensures ReaderFirst(ts)
  {
    var reader :| reader in ts && reader.kind == "SQL"
      && forall t :: t in ts && t != reader ==> reader.order < t.order && t.kind == "PYTHON";
    assert ts[0] in ts;
    assert reader == ts[0];
  }

  lemma GreatestIsLast(ts: seq<Task>, last: Task)
    requires ts != [] && Strict(ts) && last in ts && forall t :: t in ts ==> t.order <= last.order
    ensures last == Last(ts)
  {
    assert Last(ts) in ts;
  }

  lemma OnlyLastTargets(ts: seq<Task>)
    requires ts != [] && Strict(ts)
    requires forall t, u :: t in ts && u in ts && t.order < u.order ==> t.target.None?
    ensures forall i :: 0 <= i < |ts| - 1 ==> ts[i].target.None?
  {
    forall i | 0 <= i < |ts| - 1 ensures ts[i].target.None? {
      assert ts[i] in ts && ts[|ts| - 1] in ts && ts[i].order < ts[|ts| - 1].order;
    }
  }

  lemma WellFormedTargets(ts: seq<Task>, target: Option<string>)
    requires ts != [] && Strict(ts) && WellFormed(ts, target)
    ensures TargetLast(ts, target)
  {
    var last :| last in ts && IsAllowedTarget(FinalTarget(last, target))
      && forall t :: t in ts ==> t.order <= last.order;
    GreatestIsLast(ts, last);
    OnlyLastTargets(ts);
  }

  /** On an increasing list the checks by position say what WellFormed says of the members. */
  lemma ChecksAreWellFormed(ts: seq<Task>, target: Option<string>)
    requires ts != [] && Strict(ts)
    ensures Filled(ts) && ReaderFirst(ts) && TargetLast(ts, target) <==> WellFormed(ts, target)
  {
    if WellFormed(ts, target) {
      WellFormedReads(ts, target);
      WellFormedTargets(ts, target);
    } else if Filled(ts) && ReaderFirst(ts) && TargetLast(ts, target) {
      PassedChecksMean(ts, target);
    }
  }

  method ValidateTasks(tasks: seq<Task>, target: Option<string>) returns (r: Validated)
    ensures r.Accepted? <==> Acceptable(tasks, target)
    ensures r.Accepted? ==> r.plan == SortTasks(tasks) && multiset(r.plan) == multiset(tasks) && Strict(r.plan)
    ensures r.Accepted? && tasks != [] ==> ReaderFirst(r.plan) && TargetLast(r.plan, target)
    ensures r.Refused? ==> Explains(r.error, tasks, target)
  {
    if tasks == [] {
      return Accepted(tasks);
    }
    var sorted := SortTasks(tasks);
    SortTasksSorts(tasks);
    SameMembers(tasks, sorted);
    AcceptanceIsInvariant(tasks, sorted, target);
    var problem := CheckFields(sorted, target);
    if problem.None? {
      ChecksAreWellFormed(sorted, target);
      problem := CheckKinds(sorted, target);
    }
    if problem.None? {
      problem := CheckTargets(sorted, target);
    }
    if problem.Some? {
      ExplanationIsInvariant(problem.value, sorted, tasks, target);
      return Refused(problem.value);
    }
    r := Accepted(sorted);
  }

  /** The task runner's recheck and the guards of its writer cannot fire on an accepted plan. */
  lemma AcceptedPlansAreWritable(tasks: seq<Task>, target: Option<string>)
    requires Acceptable(tasks, target) && tasks != []
    ensures SortTasks(tasks) != []
    ensures var final := FinalTarget(Last(SortTasks(tasks)), target);
      IsAllowedTarget(final) && Guards(final).To? && Spells(final, Guards(final).destination)
  {
    var sorted := SortTasks(tasks);
    SortTasksSorts(tasks);
    SameMembers(tasks, sorted);
    AcceptanceIsInvariant(tasks, sorted, target);
    ChecksAreWellFormed(sorted, target);
    AcceptedTargetsAreWritable(FinalTarget(Last(sorted), target));
  }

  /**
   * Where an accepted plan writes: to the override of its last task if that is non-empty,
   * otherwise to the target of the pipeline; and that target names a destination.
   */
  lemma LastTaskDecides(tasks: seq<Task>, target: Option<string>, last: Task)
    requires Acceptable(tasks, target) && last in tasks && forall t :: t in tasks ==> t.order <= last.order
    ensures SortTasks(tasks) != []
    ensures var final := FinalTarget(Last(SortTasks(tasks)), target);
      && Guards(final).To?
      && (last.target.None? || last.target == Some("") ==> final == target)
      && (last.target.Some? && last.target != Some("") ==> final == last.target)
  {
    var sorted := SortTasks(tasks);
    AcceptedPlansAreWritable(tasks, target);
    PlanIsCanonical(tasks, tasks, target);
    SortTasksSorts(tasks);
    SameMembers(tasks, sorted);
    GreatestIsLast(sorted, last);
  }
}
