/**
 * Sinks and upserts.  Both writers overlay the fields of a document and leave
 * the others alone, so a sink is a map from (document, field) to value.
 */
module Sinks {
  import opened Rows

  datatype Cell = Cell(doc: Value, field: string)

  type Sink = map<Cell, Value>

  /** One upsert: the document id and the fields it sets. */
  datatype Item = Item(doc: Value, fields: Record)

  /** A batch transform followed by the writer's payload: rows to upserts. */
  type Output = seq<Row> -> seq<Item>

  function CellsOf(item: Item): Sink {
    map f | f in item.fields :: Cell(item.doc, f) := item.fields[f]
  }

  /** All cells an upsert sequence sets, later upserts winning. */
  function Effect(items: seq<Item>): Sink {
    if items == [] then map[] else Effect(items[..|items| - 1]) + CellsOf(Last(items))
  }

  /** The document stored under an id. */
  function Document(sink: Sink, doc: Value): Record {
    map c | c in sink && c.doc == doc :: c.field := sink[c]
  }

  /** Cell overlay is per-document field overlay: ON CONFLICT DO UPDATE, doc_as_upsert. */
  lemma UpsertOverlaysDocument(sink: Sink, item: Item, doc: Value)
    ensures Document(sink + CellsOf(item), doc)
         == if doc == item.doc then Document(sink, doc) + item.fields else Document(sink, doc)
  {
    var after := sink + CellsOf(item);
    var document := if doc == item.doc then Document(sink, doc) + item.fields else Document(sink, doc);
    CellsOfFacts(item);
    DocumentFacts(sink, doc);
    DocumentFacts(after, doc);
    assert Document(after, doc).Keys == document.Keys;
  }

  lemma CellsOfFacts(item: Item)
    ensures forall c :: c in CellsOf(item) <==> c.doc == item.doc && c.field in item.fields
    ensures forall c :: c in CellsOf(item) ==> CellsOf(item)[c] == item.fields[c.field]
  {
    forall c: Cell | c.doc == item.doc && c.field in item.fields ensures c in CellsOf(item) {
      assert c == Cell(item.doc, c.field);
    }
  }

  lemma DocumentFacts(sink: Sink, doc: Value)
    ensures forall f :: f in Document(sink, doc) <==> Cell(doc, f) in sink
    ensures forall f :: f in Document(sink, doc) ==> Document(sink, doc)[f] == sink[Cell(doc, f)]
  {
    forall f: string | Cell(doc, f) in sink ensures f in Document(sink, doc) {
      assert Cell(doc, f).doc == doc && Cell(doc, f).field == f;
    }
  }

  lemma OverlayAssociates<K, V>(a: map<K, V>, b: map<K, V>, c: map<K, V>)
    ensures (a + b) + c == a + (b + c)
  {
  }

  lemma {:induction false} EffectAppend(a: seq<Item>, b: seq<Item>)
    ensures Effect(a + b) == Effect(a) + Effect(b)
  {
    if b == [] {
      assert a + b == a;
    } else {
      var b' := b[..|b| - 1];
      assert (a + b)[..|a + b| - 1] == a + b';
      EffectAppend(a, b');
      OverlayAssociates(Effect(a), Effect(b'), CellsOf(Last(b)));
    }
  }

  // ---------- Row-wise (batch-homomorphic) outputs ----------

  /** Cutting a batch anywhere does not change the output. */
  ghost predicate RowWise(out: Output) {
    forall a, b :: out(a + b) == out(a) + out(b)
  }

  function Written(out: Output, rows: seq<Row>): Sink {
    Effect(out(rows))
  }

  lemma WrittenAppend(out: Output, a: seq<Row>, b: seq<Row>)
    requires RowWise(out)
    ensures Written(out, a + b) == Written(out, a) + Written(out, b)
  {
    assert out(a + b) == out(a) + out(b);
    EffectAppend(out(a), out(b));
  }

  lemma WrittenNothing(out: Output)
    requires RowWise(out)
    ensures out([]) == [] && Written(out, []) == map[]
  {
    var none: seq<Row> := [];
    assert none + none == none;
    assert out(none + none) == out(none) + out(none);
  }

  /** The cells of a batch are the cells of its rows. */
  lemma {:induction false} WrittenCells(out: Output, rows: seq<Row>)
    requires RowWise(out)
    ensures forall c :: c in Written(out, rows) <==> exists r :: r in rows && c in Written(out, [r])
  {
    if rows == [] {
      WrittenNothing(out);
    } else {
      var rest := rows[..|rows| - 1];
      assert rows == rest + [Last(rows)];
      WrittenAppend(out, rest, [Last(rows)]);
      WrittenCells(out, rest);
      assert forall r :: r in rows <==> r in rest || r == Last(rows);
    }
  }

  // ---------- Bulk requests that fail part-way ----------

  /** The items of a bulk request selected by a mask. */
  function Select(items: seq<Item>, mask: seq<bool>): seq<Item>
    requires |items| == |mask|
  {
    if items == [] then []
    else Select(items[..|items| - 1], mask[..|mask| - 1]) + if Last(mask) then [Last(items)] else []
  }

  /** Whatever subset of a bulk is applied, only cells of the bulk change. */
  lemma {:induction false} PartialBulk(items: seq<Item>, mask: seq<bool>)
    requires |items| == |mask|
    ensures Effect(Select(items, mask)).Keys <= Effect(items).Keys
  {
    if items != [] {
      var items', mask' := items[..|items| - 1], mask[..|mask| - 1];
      PartialBulk(items', mask');
      if Last(mask) {
        EffectAppend(Select(items', mask'), [Last(items)]);
        EffectAppend([], [Last(items)]);
      } else {
        assert Select(items, mask) == Select(items', mask');
      }
    }
  }

  /** What a write that raised may have left in the sink. */
  predicate MayRemain(items: seq<Item>, es: bool, part: Sink) {
    part.Keys <= Effect(items).Keys && (!es ==> part == map[])
  }

  lemma NothingRemains(items: seq<Item>, es: bool, sink: Sink)
    ensures MayRemain(items, es, map[]) && sink == sink + map[]
  {
  }

  /** A complete bulk overwrites what part of it left. */
  lemma PartIsOverwritten(sink: Sink, part: Sink, all: Sink)
    requires part.Keys <= all.Keys
    ensures (sink + part) + all == sink + all
  {
  }

  /** Two sinks agree on a cell: both lack it or both hold the same value. */
  predicate AgreeAt(a: Sink, b: Sink, c: Cell) {
    (c in a <==> c in b) && (c in a ==> a[c] == b[c])
  }

  lemma AgreeEverywhere(a: Sink, b: Sink)
    requires forall c :: AgreeAt(a, b, c)
    ensures a == b
  {
    forall c ensures (c in a <==> c in b) && (c in a ==> a[c] == b[c]) { assert AgreeAt(a, b, c); }
    assert a.Keys == b.Keys;
  }
}
