/** The engine's theorems for one concrete pipeline: films through normalize_title. */
module Instances {
  import opened Rows
  import opened Strings
  import opened Keyset
  import opened Sinks
  import opened Writers
  import opened Transforms
  import opened Engine
  import opened EngineProgress
  import opened EngineConverge

  // ---------- Documents named by the row's id ----------

  /** Every upsert for a row goes to the document of its id. */
  ghost predicate NamesById(out: Output) {
    forall r, i :: 0 <= i < |out([r])| ==> out([r])[i].doc == Number(r.id)
  }

  lemma {:induction false} EffectDocs(items: seq<Item>, doc: Value)
    requires forall i :: 0 <= i < |items| ==> items[i].doc == doc
    ensures forall cell :: cell in Effect(items) ==> cell.doc == doc
  {
    if items != [] {
      EffectDocs(items[..|items| - 1], doc);
    }
  }

  lemma NamesByIdOwns(out: Output)
    requires NamesById(out)
    ensures Owns(out)
  {
    forall r1: Row, r2: Row | r1.id != r2.id ensures Written(out, [r1]).Keys !! Written(out, [r2]).Keys {
      EffectDocs(out([r1]), Number(r1.id));
      EffectDocs(out([r2]), Number(r2.id));
    }
  }

  // ---------- Films ----------

  function Films(to: Destination): Output {
    TasksOutput(Encode(to), [NormalizeTitles])
  }

  /** A row of the films pipeline as the writer receives it. */
  function Film(r: Row): Record {
    Titled(r.cols[ID := Number(r.id)])
  }

  lemma FilmsOfRow(to: Destination, r: Row)
    ensures Films(to)([r]) == match Payload(to, Film(r)) case Some(item) => [item] case None => []
  {
    var fns := [NormalizeTitles];
    var rs := Records([r]);
    var rs' := NormalizeTitles(rs);
    assert rs' == [Film(r)];
    assert fns[1..] == [];
    assert Chain(fns, rs) == Chain(fns[1..], rs') == rs';
    assert rs'[..|rs'| - 1] == [];
    assert Items(Encode(to), rs')
        == Items(Encode(to), []) + match Payload(to, Film(r)) case Some(item) => [item] case None => [];
  }

  /** The pipeline meets what the engine's theorems ask of an output. */
  lemma FilmsFit(to: Destination)
    ensures RowWise(Films(to)) && Owns(Films(to))
  {
    NormalizeIsHomomorphic();
    ChainIsRowWise(Encode(to), [NormalizeTitles]);
    forall r, i | 0 <= i < |Films(to)([r])| ensures Films(to)([r])[i].doc == Number(r.id) {
      FilmsOfRow(to, r);
      assert Film(r)[ID] == Number(r.id);
    }
    NamesByIdOwns(Films(to));
  }

  /** Only the id and the title of a row are not passed on as they are. */
  lemma FilmFields(r: Row)
    ensures "film_id" in Film(r) && Film(r)["film_id"] == Number(r.id)
    ensures forall f :: f != "film_id" && f != "title" ==>
      (f in Film(r) <==> f in r.cols) && (f in Film(r) ==> Film(r)[f] == r.cols[f])
    ensures "title" in Film(r) <==> "title" in r.cols
    ensures "title" in r.cols ==> Film(r)["title"] == Retitled(r.cols["title"])
  {
    assert "title" != ID;
  }

  function Retitled(title: Value): Value {
    if title.Text? && title.text != "" then Text("TRANSFORMED_" + Strip(title.text)) else title
  }

  lemma ItemShows(sink: Sink, item: Item)
    requires Holds(sink, CellsOf(item))
    ensures forall f :: f in item.fields ==>
      f in Document(sink, item.doc) && Document(sink, item.doc)[f] == item.fields[f]
  {
    CellsOfFacts(item);
    DocumentFacts(sink, item.doc);
    forall f | f in item.fields
      ensures f in Document(sink, item.doc) && Document(sink, item.doc)[f] == item.fields[f]
    {
      assert Cell(item.doc, f) in CellsOf(item);
    }
  }

  /** A row whose value is in the sink shows the fields of its upsert in its document. */
  lemma RowShows(to: Destination, sink: Sink, r: Row, item: Item)
    requires Holds(sink, Written(Films(to), [r])) && Payload(to, Film(r)) == Some(item)
    ensures forall f :: f in item.fields ==>
      f in Document(sink, item.doc) && Document(sink, item.doc)[f] == item.fields[f]
  {
    FilmsOfRow(to, r);
    assert [item][..0] == [];
    assert Effect([item]) == Effect([]) + CellsOf(item) == CellsOf(item);
    ItemShows(sink, item);
  }

  predicate Field(document: Record, name: string, value: Value) {
    name in document && document[name] == value
  }

  /** A moment of a history, over a changing source, at which this row lies at or below the committed checkpoint. */
  ghost predicate Reached(c: Config, s0: Sys, acts: seq<Action>, r: Row) {
    && Initial(s0) && DistinctIds(s0.source) && Grounded(s0.source, s0.ckpt) && Converged(c, s0)
    && r in Exec(c, s0, acts).source && r.ts.Some? && !Above(r, Exec(c, s0, acts).ckpt)
  }

  lemma ReachedHolds(c: Config, s0: Sys, acts: seq<Action>, r: Row, to: Destination)
    requires c.out == Films(to) && Reached(c, s0, acts, r)
    ensures Holds(Exec(c, s0, acts).sink, Written(Films(to), [r]))
  {
    FilmsFit(to);
    Convergence(c, s0, acts, r);
  }

  /**
   * In every history over a changing source, a film at or below the committed checkpoint
   * has its title in the table, stripped and marked unless it is empty or no text, and its
   * rating.
   */
  lemma TitlesConverge(c: Config, s0: Sys, acts: seq<Action>, r: Row)
    requires c.out == Films(FilmDim) && Reached(c, s0, acts, r) && "title" in r.cols
    ensures var document := Document(Exec(c, s0, acts).sink, Number(r.id));
      && Field(document, "film_id", Number(r.id))
      && Field(document, "title", Retitled(r.cols["title"]))
      && Field(document, "rating", if "rating" in r.cols then r.cols["rating"] else Null)
  {
    ReachedHolds(c, s0, acts, r, FilmDim);
    FilmFields(r);
    RowShows(FilmDim, Exec(c, s0, acts).sink, r, Payload(FilmDim, Film(r)).value);
  }

  /** ... and so do the average and the count of its ratings in the other table. */
  lemma RatingsConverge(c: Config, s0: Sys, acts: seq<Action>, r: Row)
    requires c.out == Films(FilmRatingAgg) && Reached(c, s0, acts, r)
    requires "avg_rating" in r.cols && "rating_count" in r.cols
    ensures var document := Document(Exec(c, s0, acts).sink, Number(r.id));
      && Field(document, "film_id", Number(r.id))
      && Field(document, "avg_rating", r.cols["avg_rating"])
      && Field(document, "rating_count", r.cols["rating_count"])
  {
    ReachedHolds(c, s0, acts, r, FilmRatingAgg);
    FilmFields(r);
    RowShows(FilmRatingAgg, Exec(c, s0, acts).sink, r, Payload(FilmRatingAgg, Film(r)).value);
  }

  /** ... and every column of its row in the document of an index. */
  lemma IndexConverges(c: Config, s0: Sys, acts: seq<Action>, r: Row, name: string, f: string)
    requires c.out == Films(Index(name)) && Reached(c, s0, acts, r)
    requires f in r.cols || f == "film_id"
    ensures Field(Document(Exec(c, s0, acts).sink, Number(r.id)), f,
                  if f == "film_id" then Number(r.id)
                  else if f == "title" then Retitled(r.cols[f]) else r.cols[f])
  {
    ReachedHolds(c, s0, acts, r, Index(name));
    FilmFields(r);
    RowShows(Index(name), Exec(c, s0, acts).sink, r, Payload(Index(name), Film(r)).value);
  }
}
