/** Transform chains of the task runners, the legacy single transform, and one concrete transform. */
module Transforms {
  import opened Rows
  import opened Strings
  import opened Sinks
  import opened Writers

  type Transform = seq<Record> -> seq<Record>

  ghost predicate Homomorphic(f: Transform) {
    forall a, b :: f(a + b) == f(a) + f(b)
  }

  /** The dictionaries the reader hands to the first transform; the id key is film_id. */
  function Records(rows: seq<Row>): seq<Record> {
    seq(|rows|, i requires 0 <= i < |rows| => rows[i].cols[ID := Number(rows[i].id)])
  }

  /** The task chain: a transform that returns nothing ends it. */
  function Chain(fns: seq<Transform>, rs: seq<Record>): seq<Record> {
    if fns == [] then rs
    else
      var rs' := fns[0](rs);
      if rs' == [] then [] else Chain(fns[1..], rs')
  }

  /** Plain composition. */
  function Compose(fns: seq<Transform>, rs: seq<Record>): seq<Record> {
    if fns == [] then rs else Compose(fns[1..], fns[0](rs))
  }

  /** The chain as the loop of the task runners executes it. */
  method ApplyChain(fns: seq<Transform>, rs: seq<Record>) returns (out: seq<Record>)
    ensures out == Chain(fns, rs)
  {
    out := rs;
    var i := 0;
    while i < |fns|
      invariant 0 <= i <= |fns|
      invariant Chain(fns[i..], out) == Chain(fns, rs)
    {
      out := fns[i](out);
      i := i + 1;
      assert fns[i - 1..][1..] == fns[i..];
      if out == [] {
        break;
      }
    }
  }

  /** Some transform of the chain returns nothing. */
  ghost predicate RunsDry(fns: seq<Transform>, rs: seq<Record>) {
    exists k :: 1 <= k <= |fns| && Compose(fns[..k], rs) == []
  }

  lemma ComposeFirst(fns: seq<Transform>, rs: seq<Record>, k: nat)
    requires 1 <= k <= |fns|
    ensures Compose(fns[..k], rs) == Compose(fns[1..][..k - 1], fns[0](rs))
  {
    assert fns[..k][1..] == fns[1..][..k - 1];
  }

  lemma RunsDryFirst(fns: seq<Transform>, rs: seq<Record>)
    requires fns != []
    ensures RunsDry(fns, rs) <==> fns[0](rs) == [] || RunsDry(fns[1..], fns[0](rs))
  {
    ComposeFirst(fns, rs, 1);
    assert Compose(fns[..1], rs) == fns[0](rs);
    if RunsDry(fns, rs) {
      var k :| 1 <= k <= |fns| && Compose(fns[..k], rs) == [];
      ComposeFirst(fns, rs, k);
    }
    if RunsDry(fns[1..], fns[0](rs)) {
      var k :| 1 <= k <= |fns| - 1 && Compose(fns[1..][..k], fns[0](rs)) == [];
      ComposeFirst(fns, rs, k + 1);
    }
  }

  /**
   * The early exit, for any transforms: once one of them has returned nothing the chain
   * returns nothing, whatever the later ones would make of it; otherwise it is the plain
   * composition.
   */
  lemma {:induction false} EarlyExitExactly(fns: seq<Transform>, rs: seq<Record>)
    ensures Chain(fns, rs) == if RunsDry(fns, rs) then [] else Compose(fns, rs)
  {
    if fns != [] {
      RunsDryFirst(fns, rs);
      if fns[0](rs) != [] {
        EarlyExitExactly(fns[1..], fns[0](rs));
      }
    }
  }

  lemma HomomorphicNothing(f: Transform)
    requires Homomorphic(f)
    ensures f([]) == []
  {
    var none: seq<Record> := [];
    assert none + none == none;
    assert f(none + none) == f(none) + f(none);
  }

  lemma {:induction false} ComposeNothing(fns: seq<Transform>)
    requires forall i :: 0 <= i < |fns| ==> Homomorphic(fns[i])
    ensures Compose(fns, []) == []
  {
    if fns != [] {
      HomomorphicNothing(fns[0]);
      ComposeNothing(fns[1..]);
    }
  }

  /** For row-wise transforms the early exit changes nothing. */
  lemma {:induction false} EarlyExitIsComposition(fns: seq<Transform>, rs: seq<Record>)
    requires forall i :: 0 <= i < |fns| ==> Homomorphic(fns[i])
    ensures Chain(fns, rs) == Compose(fns, rs)
  {
    if fns != [] {
      if fns[0](rs) == [] {
        ComposeNothing(fns[1..]);
      } else {
        EarlyExitIsComposition(fns[1..], fns[0](rs));
      }
    }
  }

  lemma {:induction false} ComposeAppend(fns: seq<Transform>, a: seq<Record>, b: seq<Record>)
    requires forall i :: 0 <= i < |fns| ==> Homomorphic(fns[i])
    ensures Compose(fns, a + b) == Compose(fns, a) + Compose(fns, b)
  {
    if fns != [] {
      assert fns[0](a + b) == fns[0](a) + fns[0](b);
      ComposeAppend(fns[1..], fns[0](a), fns[0](b));
    }
  }

  // ---------- The output of the two runners ----------

  /** run_tasks_incremental: chain, then payload. */
  function TasksOutput(to: Encoder, fns: seq<Transform>): Output {
    rows => Items(to, Chain(fns, Records(rows)))
  }

  /** run_sql_incremental_pipeline: one transform, then payload. */
  function LegacyOutput(to: Encoder, f: Transform): Output {
    rows => Items(to, f(Records(rows)))
  }

  /** A chain of row-wise transforms makes a row-wise pipeline: the engine's theorems apply to it. */
  lemma ChainIsRowWise(to: Encoder, fns: seq<Transform>)
    requires forall i :: 0 <= i < |fns| ==> Homomorphic(fns[i])
    ensures RowWise(TasksOutput(to, fns))
  {
    var out := TasksOutput(to, fns);
    forall a, b ensures out(a + b) == out(a) + out(b) {
      assert Records(a + b) == Records(a) + Records(b);
      EarlyExitIsComposition(fns, Records(a + b));
      EarlyExitIsComposition(fns, Records(a));
      EarlyExitIsComposition(fns, Records(b));
      ComposeAppend(fns, Records(a), Records(b));
      ItemsAppend(to, Compose(fns, Records(a)), Compose(fns, Records(b)));
    }
  }

  /** The task runner over a row-wise chain and the legacy runner over its composition write the same. */
  lemma TasksAgreeWithLegacy(to: Encoder, fns: seq<Transform>, f: Transform, rows: seq<Row>)
    requires forall i :: 0 <= i < |fns| ==> Homomorphic(fns[i])
    requires f(Records(rows)) == Compose(fns, Records(rows))
    ensures TasksOutput(to, fns)(rows) == LegacyOutput(to, f)(rows)
  {
    EarlyExitIsComposition(fns, Records(rows));
  }

  // ---------- normalize_title ----------

  /** A non-empty title is stripped and marked; every other field and row is kept. */
  function Titled(r: Record): Record {
    if "title" in r && r["title"].Text? && r["title"].text != ""
    then r["title" := Text("TRANSFORMED_" + Strip(r["title"].text))]
    else r
  }

  function NormalizeTitles(rs: seq<Record>): seq<Record> {
    seq(|rs|, i requires 0 <= i < |rs| => Titled(rs[i]))
  }

  method NormalizeTitle(rows: seq<Record>) returns (out: seq<Record>)
    ensures out == NormalizeTitles(rows)
  {
    out := [];
    for i := 0 to |rows|
      invariant out == NormalizeTitles(rows[..i])
    {
      var d := rows[i];
      if "title" in d && d["title"].Text? && d["title"].text != "" {
        d := d["title" := Text("TRANSFORMED_" + Strip(d["title"].text))];
      }
      out := out + [d];
      assert rows[..i + 1] == rows[..i] + [rows[i]];
    }
    assert rows[..|rows|] == rows;
  }

  lemma NormalizeIsHomomorphic()
    ensures Homomorphic(NormalizeTitles)
  {
    forall a, b ensures NormalizeTitles(a + b) == NormalizeTitles(a) + NormalizeTitles(b) {
    }
  }

  /** Rows, all other columns and empty or missing titles are kept; other titles are stripped and marked. */
  lemma NormalizeKeeps(rs: seq<Record>, i: nat, f: string)
    requires i < |rs|
    ensures |NormalizeTitles(rs)| == |rs|
    ensures f in NormalizeTitles(rs)[i] <==> f in rs[i]
    ensures f in rs[i] && (f != "title" || !rs[i][f].Text? || rs[i][f] == Text("")) ==>
      NormalizeTitles(rs)[i][f] == rs[i][f]
    ensures f in rs[i] && f == "title" && rs[i][f].Text? && rs[i][f] != Text("") ==>
      NormalizeTitles(rs)[i][f] == Text("TRANSFORMED_" + Strip(rs[i][f].text))
  {
  }
}
