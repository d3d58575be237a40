/**
 * Keyset pagination: the meaning of the batch query of the incremental runners
 * (filter above the cursor, order by the key pair, take `batch_size`).
 */
module Keyset {
  import opened Rows

  // ---------- SQL three-valued comparison ----------

  datatype Truth = Yes | No | Unknown

  function Compare(known: bool, holds: bool): Truth {
    if !known then Unknown else if holds then Yes else No
  }

  function And(a: Truth, b: Truth): Truth {
    if a == No || b == No then No else if a == Yes && b == Yes then Yes else Unknown
  }

  function Or(a: Truth, b: Truth): Truth {
    if a == Yes || b == Yes then Yes else if a == No && b == No then No else Unknown
  }

  /** ts > :last_ts OR (ts = :last_ts AND id > :last_id) */
  function Where(r: Row, last: Key): Truth {
    var ts := if r.ts.Some? then r.ts.value else 0;
    Or(Compare(r.ts.Some?, ts > last.ts),
       And(Compare(r.ts.Some?, ts == last.ts), Compare(true, r.id > last.id)))
  }

  /** A row is returned when the WHERE clause is true; without a cursor there is no clause. */
  predicate Passes(r: Row, cursor: Option<Key>) {
    cursor.Some? ==> Where(r, cursor.value) == Yes
  }

  /** The row has an incremental key and lies strictly above the cursor. */
  predicate Above(r: Row, cursor: Option<Key>) {
    r.ts.Some? && (cursor.Some? ==> KeyLess(cursor.value, KeyOf(r)))
  }

  /** A cursor filters NULL keys out; without a cursor they pass. */
  lemma WhereDropsNulls(r: Row, cursor: Option<Key>)
    ensures Passes(r, cursor) <==> Above(r, cursor) || (cursor.None? && r.ts.None?)
  {
  }

  // ---------- ORDER BY ts, id (NULLS LAST) ----------

  predicate Before(a: Row, b: Row) {
    if a.ts.None? then b.ts.None? && a.id < b.id
    else b.ts.None? || KeyLess(KeyOf(a), KeyOf(b))
  }

  predicate SameKey(a: Row, b: Row) {
    a.ts == b.ts && a.id == b.id
  }

  ghost predicate Distinct(s: seq<Row>) {
    forall i, j :: 0 <= i < j < |s| ==> !SameKey(s[i], s[j])
  }

  ghost predicate Sorted(s: seq<Row>) {
    forall i, j :: 0 <= i < j < |s| ==> Before(s[i], s[j])
  }

  function Insert(r: Row, s: seq<Row>): seq<Row> {
    if s == [] then [r]
    else if Before(r, s[0]) then [r] + s
    else [s[0]] + Insert(r, s[1..])
  }

  function Sort(s: seq<Row>): seq<Row> {
    if s == [] then [] else Insert(s[0], Sort(s[1..]))
  }

  function Filter(s: seq<Row>, cursor: Option<Key>): seq<Row> {
    if s == [] then []
    else (if Passes(s[0], cursor) then [s[0]] else []) + Filter(s[1..], cursor)
  }

  /** The rows with a key above the cursor, whatever their physical order. */
  function Live(s: seq<Row>, cursor: Option<Key>): seq<Row> {
    if s == [] then []
    else (if Above(s[0], cursor) then [s[0]] else []) + Live(s[1..], cursor)
  }

  function Take(s: seq<Row>, n: nat): seq<Row> {
    if |s| <= n then s else s[..n]
  }

  /** The batch query. */
  function Page(source: seq<Row>, cursor: Option<Key>, n: nat): seq<Row> {
    Take(Sort(Filter(source, cursor)), n)
  }

  /** One sorted scan of everything above the cursor. */
  function Scan(source: seq<Row>, cursor: Option<Key>): seq<Row> {
    Sort(Live(source, cursor))
  }

  // ---------- Sorting ----------

  lemma {:induction false} InsertSorts(r: Row, s: seq<Row>)
    requires Sorted(s)
    requires forall x :: x in s ==> !SameKey(x, r)
    ensures Sorted(Insert(r, s))
    ensures forall x :: x in Insert(r, s) <==> x == r || x in s
    ensures |Insert(r, s)| == |s| + 1
  {
    if s == [] {
    } else if Before(r, s[0]) {
    } else {
      var t := s[1..];
      assert forall x :: x in t ==> x in s;
      InsertSorts(r, t);
      assert forall x :: x in s <==> x == s[0] || x in t;
      var u := Insert(r, t);
      forall x | x in u ensures Before(s[0], x) {
        if x == r {
          assert !SameKey(s[0], r);
        } else {
          var k :| 0 <= k < |t| && t[k] == x;
          assert x == s[k + 1];
        }
      }
    }
  }

  lemma {:induction false} SortSorts(s: seq<Row>)
    requires Distinct(s)
    ensures Sorted(Sort(s))
    ensures forall x :: x in Sort(s) <==> x in s
    ensures |Sort(s)| == |s|
  {
    if s != [] {
      SortSorts(s[1..]);
      assert forall x :: x in s <==> x == s[0] || x in s[1..];
      InsertSorts(s[0], Sort(s[1..]));
    }
  }

  lemma HasMember(s: seq<Row>)
    ensures s != [] ==> exists x :: x in s
  {
    if s != [] { assert s[0] in s; }
  }

  /** A sorted sequence is determined by its elements. */
  lemma {:induction false} SortedUnique(a: seq<Row>, b: seq<Row>)
    requires Sorted(a) && Sorted(b)
    requires forall x :: x in a <==> x in b
    ensures a == b
  {
    if a == [] || b == [] {
      HasMember(a);
      HasMember(b);
    } else {
      assert a[0] in b;
      assert b[0] in a;
      assert a[0] == b[0];
      forall x ensures x in a[1..] <==> x in b[1..] {
        assert x in a <==> x == a[0] || x in a[1..];
        assert x in b <==> x == b[0] || x in b[1..];
      }
      SortedUnique(a[1..], b[1..]);
      assert a == [a[0]] + a[1..] && b == [b[0]] + b[1..];
    }
  }

  lemma DistinctTail(s: seq<Row>)
    requires Distinct(s) && s != []
    ensures Distinct(s[1..])
    ensures forall x :: x in s[1..] ==> !SameKey(s[0], x)
  {
    forall x | x in s[1..] ensures !SameKey(s[0], x) {
      var k :| 0 <= k < |s| - 1 && s[1..][k] == x;
      assert s[k + 1] == x;
    }
  }

  lemma {:induction false} FilterKeeps(s: seq<Row>, cursor: Option<Key>)
    ensures forall x :: x in Filter(s, cursor) <==> x in s && Passes(x, cursor)
    ensures Distinct(s) ==> Distinct(Filter(s, cursor))
  {
    if s != [] {
      FilterKeeps(s[1..], cursor);
      assert forall x :: x in s <==> x == s[0] || x in s[1..];
      if Distinct(s) {
        DistinctTail(s);
      }
    }
  }

  lemma {:induction false} LiveKeeps(s: seq<Row>, cursor: Option<Key>)
    ensures forall x :: x in Live(s, cursor) <==> x in s && Above(x, cursor)
    ensures Distinct(s) ==> Distinct(Live(s, cursor))
  {
    if s != [] {
      LiveKeeps(s[1..], cursor);
      assert forall x :: x in s <==> x == s[0] || x in s[1..];
      if Distinct(s) {
        DistinctTail(s);
      }
    }
  }

  // ---------- The batch query ----------

  /** What one batch is: a sorted, gap-free lower part of the rows that pass the cursor. */
  lemma PageFacts(source: seq<Row>, cursor: Option<Key>, n: nat)
    requires Distinct(source) && n >= 1
    ensures var b := Page(source, cursor, n);
      && Sorted(b)
      && |b| <= n
      && (forall r :: r in b ==> r in source && Passes(r, cursor))
      && (b == [] <==> forall r :: r in source ==> !Passes(r, cursor))
      && (b != [] ==> forall r :: r in source && Passes(r, cursor) && !Before(Last(b), r) ==> r in b)
      && (|b| < n ==> forall r :: r in source && Passes(r, cursor) ==> r in b)
  {
    var all := Sort(Filter(source, cursor));
    FilterKeeps(source, cursor);
    SortSorts(Filter(source, cursor));
    var b := Page(source, cursor, n);
    if |all| > n {
      assert b == all[..n];
      forall r | r in source && Passes(r, cursor) && !Before(Last(b), r) ensures r in b {
        assert r in all;
        var k :| 0 <= k < |all| && all[k] == r;
        assert k < n;
        assert b[k] == r;
      }
    }
    if b == [] {
      assert forall r :: r !in all;
    } else {
      assert all[0] in all;
    }
  }

  /** The order of a batch, in terms of the columns: keyed rows by time and id, then the others by id. */
  lemma PageIsOrdered(source: seq<Row>, cursor: Option<Key>, n: nat, i: nat, j: nat)
    requires Distinct(source) && n >= 1 && i < j < |Page(source, cursor, n)|
    ensures var a, b := Page(source, cursor, n)[i], Page(source, cursor, n)[j];
      match (a.ts, b.ts)
      case (Some(x), Some(y)) => x < y || (x == y && a.id < b.id)
      case (Some(_), None) => true
      case (None, Some(_)) => false
      case (None, None) => a.id < b.id
  {
    PageFacts(source, cursor, n);
  }

  lemma ScanFacts(source: seq<Row>, cursor: Option<Key>)
    requires Distinct(source)
    ensures Sorted(Scan(source, cursor))
    ensures forall r :: r in Scan(source, cursor) <==> r in source && Above(r, cursor)
  {
    LiveKeeps(source, cursor);
    SortSorts(Live(source, cursor));
  }

  // ---------- The part of a scan up to a checkpoint ----------

  function Passed(s: seq<Row>, from: Option<Key>, to: Option<Key>): seq<Row> {
    if s == [] then []
    else (if Above(s[0], from) && !Above(s[0], to) then [s[0]] else []) + Passed(s[1..], from, to)
  }

  /** The keyed rows above `from` and not above `to`, in key order. */
  function Between(source: seq<Row>, from: Option<Key>, to: Option<Key>): seq<Row> {
    Sort(Passed(source, from, to))
  }

  lemma {:induction false} PassedKeeps(s: seq<Row>, from: Option<Key>, to: Option<Key>)
    ensures forall x :: x in Passed(s, from, to) <==> x in s && Above(x, from) && !Above(x, to)
    ensures Distinct(s) ==> Distinct(Passed(s, from, to))
  {
    if s != [] {
      PassedKeeps(s[1..], from, to);
      assert forall x :: x in s <==> x == s[0] || x in s[1..];
      if Distinct(s) {
        DistinctTail(s);
      }
    }
  }

  lemma BetweenFacts(source: seq<Row>, from: Option<Key>, to: Option<Key>)
    requires Distinct(source)
    ensures Sorted(Between(source, from, to))
    ensures forall r :: r in Between(source, from, to) <==> r in source && Above(r, from) && !Above(r, to)
  {
    PassedKeeps(source, from, to);
    SortSorts(Passed(source, from, to));
  }

  // ---------- Batches and cursors ----------

  /** NULLs sort last, so a keyed tail means a fully keyed batch. */
  lemma KeyedBatch(b: seq<Row>, k: Option<Key>)
    requires Sorted(b) && b != [] && Last(b).ts.Some?
    requires forall r :: r in b ==> Passes(r, k)
    ensures forall r :: r in b ==> Above(r, k) && !KeyLess(KeyOf(Last(b)), KeyOf(r))
  {
    forall r | r in b ensures Above(r, k) && !KeyLess(KeyOf(Last(b)), KeyOf(r)) {
      var i :| 0 <= i < |b| && b[i] == r;
      assert i < |b| - 1 ==> Before(b[i], b[|b| - 1]);
      WhereDropsNulls(r, k);
    }
  }

  lemma SortedJoin(a: seq<Row>, b: seq<Row>)
    requires Sorted(a) && Sorted(b) && a != [] && Last(a).ts.Some?
    requires forall r :: r in b ==> Above(r, Some(KeyOf(Last(a))))
    ensures Sorted(a + b)
  {
    forall i, j | 0 <= i < |a| && 0 <= j < |b| ensures Before(a[i], b[j]) {
      assert b[j] in b;
      assert i < |a| - 1 ==> Before(a[i], a[|a| - 1]);
    }
  }

  /** A sorted sequence has no more elements than what contains them. */
  lemma {:induction false} Inclusion(a: seq<Row>, b: seq<Row>)
    requires Sorted(a)
    requires forall r :: r in a ==> r in b
    ensures |a| <= |b|
  {
    if a != [] {
      assert Last(a) in a;
      var k :| 0 <= k < |b| && b[k] == Last(a);
      var a', b' := a[..|a| - 1], b[..k] + b[k + 1..];
      forall r | r in a' ensures r in b' {
        var i :| 0 <= i < |a'| && a'[i] == r;
        assert Before(a[i], a[|a| - 1]) && a[i] in a;
        var j :| 0 <= j < |b| && b[j] == r;
        assert j < k ==> b'[j] == r;
        assert j > k ==> b'[j - 1] == r;
      }
      Inclusion(a', b');
    }
  }

  /** A batch is the lower part of the scan above its cursor. */
  lemma PageSplitsScan(source: seq<Row>, cursor: Option<Key>, n: nat)
    requires Distinct(source) && n >= 1
    requires var b := Page(source, cursor, n); b != [] && Last(b).ts.Some?
    ensures var b := Page(source, cursor, n);
      Scan(source, cursor) == b + Scan(source, Some(KeyOf(Last(b))))
  {
    var b := Page(source, cursor, n);
    var k := Some(KeyOf(Last(b)));
    PageFacts(source, cursor, n);
    KeyedBatch(b, cursor);
    ScanFacts(source, cursor);
    ScanFacts(source, k);
    SortedJoin(b, Scan(source, k));
    assert Last(b) in b;
    forall r ensures r in Scan(source, cursor) <==> r in b + Scan(source, k) {
      WhereDropsNulls(r, cursor);
    }
    SortedUnique(Scan(source, cursor), b + Scan(source, k));
  }

  /** Every committed batch leaves strictly fewer rows above the cursor. */
  lemma CursorAdvances(source: seq<Row>, cursor: Option<Key>, n: nat)
    requires Distinct(source) && n >= 1
    requires var b := Page(source, cursor, n); b != [] && Last(b).ts.Some?
    ensures |Scan(source, Some(KeyOf(Last(Page(source, cursor, n)))))| < |Scan(source, cursor)|
  {
    PageSplitsScan(source, cursor, n);
  }

  // ---------- Undisturbed runs ----------

  /** The batches of a run that is neither paused nor disturbed; None when the NULL guard ends it. */
  function Drain(source: seq<Row>, cursor: Option<Key>, n: nat): Option<seq<seq<Row>>>
    requires Distinct(source) && n >= 1
    decreases |Scan(source, cursor)|
  {
    var b := Page(source, cursor, n);
    if b == [] then Some([])
    else if Last(b).ts.None? then None
    else
      CursorAdvances(source, cursor, n);
      var rest := Drain(source, Some(KeyOf(Last(b))), n);
      if rest.None? then None else Some([b] + rest.value)
  }

  function Concat(ss: seq<seq<Row>>): seq<Row> {
    if ss == [] then [] else ss[0] + Concat(ss[1..])
  }

  /**
   * Keyset pagination refines one sorted scan: the concatenated batches are the
   * rows above the cursor in key order, for every batch size.
   */
  lemma {:induction false} PaginationIsScan(source: seq<Row>, cursor: Option<Key>, n: nat)
    requires Distinct(source) && n >= 1 && Drain(source, cursor, n).Some?
    ensures Concat(Drain(source, cursor, n).value) == Scan(source, cursor)
    decreases |Scan(source, cursor)|
  {
    var b := Page(source, cursor, n);
    if b == [] {
      PageFacts(source, cursor, n);
      ScanFacts(source, cursor);
      HasMember(Scan(source, cursor));
      forall r | r in source ensures !Above(r, cursor) { WhereDropsNulls(r, cursor); }
    } else {
      CursorAdvances(source, cursor, n);
      PageSplitsScan(source, cursor, n);
      PaginationIsScan(source, Some(KeyOf(Last(b))), n);
    }
  }

  /** With a cursor the NULL guard cannot fire: the filter has removed such rows. */
  lemma {:induction false} CursorRunsComplete(source: seq<Row>, k: Key, n: nat)
    requires Distinct(source) && n >= 1
    ensures Drain(source, Some(k), n).Some?
    decreases |Scan(source, Some(k))|
  {
    var b := Page(source, Some(k), n);
    PageFacts(source, Some(k), n);
    if b != [] {
      assert Last(b) in b;
      WhereDropsNulls(Last(b), Some(k));
      CursorAdvances(source, Some(k), n);
      CursorRunsComplete(source, KeyOf(Last(b)), n);
    }
  }

  /** The first batch holds a row without a key exactly when the keyed rows do not fill it. */
  lemma NullInFirstBatch(source: seq<Row>, n: nat)
    requires Distinct(source) && n >= 1
    ensures (exists r :: r in Page(source, None, n) && r.ts.None?)
       <==> (exists r :: r in source && r.ts.None?) && |Scan(source, None)| < n
  {
    var b := Page(source, None, n);
    PageFacts(source, None, n);
    ScanFacts(source, None);
    if b != [] && Last(b).ts.Some? {
      KeyedBatch(b, None);
    }
    if r :| r in b && r.ts.None? {
      KeyedPrefix(Scan(source, None), b);
    } else if r :| r in source && r.ts.None? {
      assert r !in b;
      assert |b| == n;
      Inclusion(b, Scan(source, None));
    }
  }

  /** The keyed rows all come before a row without a key. */
  lemma KeyedPrefix(keyed: seq<Row>, b: seq<Row>)
    requires Sorted(keyed) && Sorted(b) && b != [] && Last(b).ts.None?
    requires forall r :: r in keyed ==> r.ts.Some? && r in b
    ensures |keyed| < |b|
  {
    Inclusion(keyed, b[..|b| - 1]);
  }

  /**
   * Whether a first run completes depends on the batch size as soon as the source
   * has rows without a key: it does exactly when none exists, or when the keyed
   * rows fill the first batch.
   */
  lemma FirstRunCompletes(source: seq<Row>, n: nat)
    requires Distinct(source) && n >= 1
    ensures Drain(source, None, n).Some?
       <==> (forall r :: r in source ==> r.ts.Some?) || n <= |Scan(source, None)|
  {
    var b := Page(source, None, n);
    PageFacts(source, None, n);
    NullInFirstBatch(source, n);
    if b != [] {
      assert Last(b) in b;
      if Last(b).ts.Some? {
        KeyedBatch(b, None);
        CursorAdvances(source, None, n);
        CursorRunsComplete(source, KeyOf(Last(b)), n);
      }
    }
  }
}
