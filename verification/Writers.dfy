/** What the two writers send for a record, and when they refuse it. */
module Writers {
  import opened Rows
  import opened Sinks

  datatype Destination = FilmDim | FilmRatingAgg | Index(name: string)

  const ID := "film_id"

  /**
   * The upsert for one record.  The Postgres statements name their columns; the
   * Elasticsearch bulk sends whatever the record holds.  None is the KeyError or
   * ValueError of a record without a required field.
   */
  function Payload(to: Destination, r: Record): Option<Item> {
    match to
    case FilmDim =>
      if ID in r && "title" in r
      then Some(Item(r[ID], map[ID := r[ID], "title" := r["title"],
                                "rating" := if "rating" in r then r["rating"] else Null]))
      else None
    case FilmRatingAgg =>
      if ID in r && "avg_rating" in r && "rating_count" in r
      then Some(Item(r[ID], map[ID := r[ID], "avg_rating" := r["avg_rating"],
                                "rating_count" := r["rating_count"]]))
      else None
    case Index(_) =>
      if ID in r then Some(Item(r[ID], r)) else None
  }

  /** What a writer makes of one record; the runners work with any such rule. */
  type Encoder = Record -> Option<Item>

  function Encode(to: Destination): Encoder {
    r => Payload(to, r)
  }

  predicate Writable(to: Encoder, rs: seq<Record>) {
    forall i :: 0 <= i < |rs| ==> to(rs[i]).Some?
  }

  /** The upserts of a batch, in order. */
  function Items(to: Encoder, rs: seq<Record>): seq<Item> {
    if rs == [] then []
    else Items(to, rs[..|rs| - 1])
         + match to(Last(rs)) case Some(item) => [item] case None => []
  }

  lemma {:induction false} ItemsAppend(to: Encoder, a: seq<Record>, b: seq<Record>)
    ensures Items(to, a + b) == Items(to, a) + Items(to, b)
  {
    if b == [] {
      assert a + b == a;
    } else {
      var b' := b[..|b| - 1];
      assert (a + b)[..|a + b| - 1] == a + b';
      ItemsAppend(to, a, b');
    }
  }

  lemma {:induction false} WritableItems(to: Encoder, rs: seq<Record>)
    requires Writable(to, rs)
    ensures |Items(to, rs)| == |rs|
    ensures forall i :: 0 <= i < |rs| ==> Items(to, rs)[i] == to(rs[i]).value
  {
    if rs != [] {
      WritableItems(to, rs[..|rs| - 1]);
    }
  }

  /** Builds the statement parameters or bulk operations; None when a record is refused. */
  method BuildPayload(to: Encoder, rs: seq<Record>) returns (ops: Option<seq<Item>>)
    ensures ops.Some? <==> Writable(to, rs)
    ensures ops.Some? ==> ops.value == Items(to, rs) && |ops.value| == |rs|
    ensures ops.Some? ==> forall i :: 0 <= i < |rs| ==> Some(ops.value[i]) == to(rs[i])
  {
    var built: seq<Item> := [];
    for i := 0 to |rs|
      invariant Writable(to, rs[..i])
      invariant built == Items(to, rs[..i]) && |built| == i
    {
      var item := to(rs[i]);
      assert rs[..i + 1][..i] == rs[..i];
      if item.None? {
        return None;
      }
      built := built + [item.value];
    }
    assert rs[..|rs|] == rs;
    WritableItems(to, rs);
    ops := Some(built);
  }

  // ---------- What a written record leaves in its destination ----------

  /** What writing this record makes of a sink. */
  function AfterRecord(to: Destination, before: Sink, r: Record): Sink {
    before + Effect(Items(Encode(to), [r]))
  }

  /** These fields are in their document, which keeps its others; every other document is as it was. */
  ghost predicate Upserted(before: Sink, after: Sink, doc: Value, fields: Record) {
    && Document(after, doc) == Document(before, doc) + fields
    && forall other :: other != doc ==> Document(after, other) == Document(before, other)
  }

  lemma OneRecord(to: Destination, before: Sink, r: Record, item: Item)
    requires Payload(to, r) == Some(item)
    ensures Upserted(before, AfterRecord(to, before, r), item.doc, item.fields)
  {
    OneItem(Encode(to), r, item);
    forall doc
      ensures Document(before + CellsOf(item), doc)
           == if doc == item.doc then Document(before, doc) + item.fields else Document(before, doc)
    {
      UpsertOverlaysDocument(before, item, doc);
    }
  }

  lemma OneItem(to: Encoder, r: Record, item: Item)
    requires to(r) == Some(item)
    ensures Effect(Items(to, [r])) == CellsOf(item)
  {
    assert [r][..0] == [];
    assert Items(to, [r]) == Items(to, []) + [item] == [item];
    assert [item][..0] == [];
    assert Effect([item]) == Effect([]) + CellsOf(item) == CellsOf(item);
  }

  /** analytics.film_dim takes id, title and rating, the rating being NULL if there is none. */
  lemma WritesFilmDim(before: Sink, r: Record)
    requires "film_id" in r && "title" in r
    ensures Upserted(before, AfterRecord(FilmDim, before, r), r["film_id"],
                     map["film_id" := r["film_id"], "title" := r["title"],
                         "rating" := if "rating" in r then r["rating"] else Null])
  {
    OneRecord(FilmDim, before, r, Payload(FilmDim, r).value);
  }

  /** analytics.film_rating_agg takes id, average and count, each under its own name. */
  lemma WritesFilmRatingAgg(before: Sink, r: Record)
    requires "film_id" in r && "avg_rating" in r && "rating_count" in r
    ensures Upserted(before, AfterRecord(FilmRatingAgg, before, r), r["film_id"],
                     map["film_id" := r["film_id"], "avg_rating" := r["avg_rating"],
                         "rating_count" := r["rating_count"]])
  {
    OneRecord(FilmRatingAgg, before, r, Payload(FilmRatingAgg, r).value);
  }

  /** An index takes the whole record. */
  lemma WritesIndex(name: string, before: Sink, r: Record)
    requires "film_id" in r
    ensures Upserted(before, AfterRecord(Index(name), before, r), r["film_id"], r)
  {
    var item := Item(r[ID], r);
    assert Payload(Index(name), r) == Some(item);
    OneRecord(Index(name), before, r, item);
  }

  /** A record is refused exactly when a field is missing that its destination requires. */
  lemma RefusedRecords(to: Destination, r: Record)
    ensures Encode(to)(r).None? <==>
      || "film_id" !in r
      || (to == FilmDim && "title" !in r)
      || (to == FilmRatingAgg && ("avg_rating" !in r || "rating_count" !in r))
  {
  }
}
