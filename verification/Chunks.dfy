/** LIMIT/OFFSET pages over a query whose rows come in one fixed order. */
module Chunks {
  import opened Rows
  import opened Keyset
  import opened Sinks

  function Drop(s: seq<Row>, k: nat): seq<Row> {
    if k >= |s| then [] else s[k..]
  }

  /** SELECT * FROM (query) LIMIT n OFFSET k */
  function Window(source: seq<Row>, n: nat, offset: nat): seq<Row> {
    Take(Drop(source, offset), n)
  }

  /** The source cut into pieces of n rows, the last one possibly shorter. */
  function Pieces(source: seq<Row>, n: nat): seq<seq<Row>>
    requires n >= 1
    decreases |source|
  {
    if source == [] then [] else [Take(source, n)] + Pieces(Drop(source, n), n)
  }

  /**
   * Advancing by the rows fetched and advancing by the page size leave the same
   * rows to read, although after a short page the two offsets differ.
   */
  lemma OffsetsAgree(source: seq<Row>, n: nat, offset: nat)
    requires n >= 1
    ensures var rest, page := Drop(source, offset), Window(source, n, offset);
      && Drop(source, offset + |page|) == Drop(source, offset + n) == Drop(rest, n)
      && (page == [] <==> rest == [])
      && (page != [] ==> |Drop(rest, n)| < |rest|)
  {
  }

  lemma ConcatCons(b: seq<Row>, ss: seq<seq<Row>>)
    ensures Concat([b] + ss) == b + Concat(ss)
  {
    assert ([b] + ss)[1..] == ss;
  }

  lemma TakeAndDrop(source: seq<Row>, n: nat)
    ensures Take(source, n) + Drop(source, n) == source
    ensures source != [] && n >= 1 ==> 1 <= |Take(source, n)| <= n && |Drop(source, n)| < |source|
  {
  }

  /** The pieces are non-empty, no longer than a page, and cover the source once, in its order. */
  lemma {:induction false} PiecesCover(source: seq<Row>, n: nat)
    requires n >= 1
    ensures Concat(Pieces(source, n)) == source
    ensures forall b :: b in Pieces(source, n) ==> 1 <= |b| <= n
    decreases |source|
  {
    if source != [] {
      TakeAndDrop(source, n);
      PiecesCover(Drop(source, n), n);
      ConcatCons(Take(source, n), Pieces(Drop(source, n), n));
    }
  }

  lemma {:induction false} ConcatAppend(ss: seq<seq<Row>>, b: seq<Row>)
    ensures Concat(ss + [b]) == Concat(ss) + b
  {
    if ss == [] {
      assert Concat([b]) == b + Concat([]);
    } else {
      assert (ss + [b])[1..] == ss[1..] + [b];
      ConcatAppend(ss[1..], b);
    }
  }

  // ---------- What full runs write ----------

  /** The batches of a run, written one after another. */
  function WrittenPieces(out: Output, pages: seq<seq<Row>>): Sink {
    if pages == [] then map[]
    else WrittenPieces(out, pages[..|pages| - 1]) + Written(out, Last(pages))
  }

  function CountWritten(out: Output, pages: seq<seq<Row>>): nat {
    if pages == [] then 0 else CountWritten(out, pages[..|pages| - 1]) + |out(Last(pages))|
  }

  lemma WrittenPiecesSnoc(out: Output, pages: seq<seq<Row>>, b: seq<Row>)
    ensures WrittenPieces(out, pages + [b]) == WrittenPieces(out, pages) + Written(out, b)
    ensures CountWritten(out, pages + [b]) == CountWritten(out, pages) + |out(b)|
  {
    assert (pages + [b])[..|pages + [b]| - 1] == pages;
  }

  /** For a row-wise output the cut does not matter. */
  lemma {:induction false} WrittenPiecesIsWritten(out: Output, pages: seq<seq<Row>>)
    requires RowWise(out)
    ensures WrittenPieces(out, pages) == Written(out, Concat(pages))
  {
    if pages == [] {
      WrittenNothing(out);
    } else {
      var front := pages[..|pages| - 1];
      assert pages == front + [Last(pages)];
      WrittenPiecesIsWritten(out, front);
      ConcatAppend(front, Last(pages));
      WrittenAppend(out, Concat(front), Last(pages));
    }
  }

  lemma {:induction false} WrittenPiecesKeys(out: Output, pages: seq<seq<Row>>, all: seq<seq<Row>>)
    requires pages <= all
    ensures WrittenPieces(out, pages).Keys <= WrittenPieces(out, all).Keys
  {
    if |pages| < |all| {
      WrittenPiecesKeys(out, pages, all[..|all| - 1]);
    } else {
      assert pages == all;
    }
  }

  /** A complete full run writes the same whatever its page size. */
  lemma CompleteRunIgnoresPageSize(out: Output, source: seq<Row>, n: nat)
    requires RowWise(out) && n >= 1
    ensures WrittenPieces(out, Pieces(source, n)) == Written(out, source)
  {
    PiecesCover(source, n);
    WrittenPiecesIsWritten(out, Pieces(source, n));
  }

  // ---------- One run ----------

  /** A run with this page size over this query and output. */
  datatype Job = Job(source: seq<Row>, out: Output, es: bool, n: nat)

  /** The progress of a loop: the pages committed, the offset to read on from, the totals. */
  datatype Progress = Progress(pages: seq<seq<Row>>, offset: nat, read: nat, written: nat)

  predicate Covered(j: Job, p: Progress)
    requires j.n >= 1
  {
    match p
    case Progress(pages, offset, read, written) =>
      && pages + Pieces(Drop(j.source, offset), j.n) == Pieces(j.source, j.n)
      && read == |Concat(pages)| && written == CountWritten(j.out, pages)
  }

  /** The page that a loop reads next. */
  function PageAt(j: Job, p: Progress): seq<Row> {
    Window(j.source, j.n, p.offset)
  }

  /** The progress after that page, the offset having moved by this much. */
  function Advanced(j: Job, p: Progress, move: nat): Progress {
    var page := PageAt(j, p);
    Progress(p.pages + [page], p.offset + move, p.read + |page|, p.written + |j.out(page)|)
  }

  /**
   * How a run ended: with its counts, at the end of the source or paused before it, or
   * with an exception, which may have been the loss of the connection or the process.
   */
  datatype Ending = Complete(read: nat, written: nat) | Paused(read: nat, written: nat) | Broken(lost: bool)

  /** The cells of the page that follows these pages, if there is one. */
  function NextCells(j: Job, pages: seq<seq<Row>>): Sink
    requires j.n >= 1
  {
    if |pages| < |Pieces(j.source, j.n)| then Written(j.out, Pieces(j.source, j.n)[|pages|]) else map[]
  }

  /** These pages and part of the next one are in the sink. */
  predicate Left(j: Job, before: Sink, after: Sink, pages: seq<seq<Row>>, part: Sink)
    requires j.n >= 1
  {
    && pages <= Pieces(j.source, j.n)
    && part.Keys <= NextCells(j, pages).Keys
    && after == (before + WrittenPieces(j.out, pages)) + part
  }

  /**
   * What a run did, for either loop: the pages it committed are the first pieces of
   * the source, all of them if it is complete; a broken one may leave part of the
   * next piece in the index.
   */
  predicate RanOver(j: Job, before: Sink, after: Sink, pages: seq<seq<Row>>, part: Sink, end: Ending)
    requires j.n >= 1
  {
    match end
    case Broken(_) => Left(j, before, after, pages, part) && (!j.es ==> part == map[])
    case Paused(read, written) =>
      && Left(j, before, after, pages, part) && part == map[] && pages != []
      && read == |Concat(pages)| && written == CountWritten(j.out, pages)
    case Complete(read, written) =>
      && Left(j, before, after, pages, part) && part == map[] && pages == Pieces(j.source, j.n)
      && read == |Concat(pages)| && written == CountWritten(j.out, pages)
  }

  lemma CoveredFirst(j: Job, sink: Sink)
    requires j.n >= 1
    ensures Covered(j, Progress([], 0, 0, 0))
    ensures sink == sink + WrittenPieces(j.out, [])
  {
    assert Drop(j.source, 0) == j.source;
    assert [] + Pieces(j.source, j.n) == Pieces(j.source, j.n);
  }

  lemma OneMore<T>(pages: seq<T>, page: T, here: seq<T>, rest: seq<T>, all: seq<T>)
    requires pages + here == all && here == [page] + rest
    ensures (pages + [page]) + rest == all && pages + [page] <= all
  {
    assert pages + ([page] + rest) == (pages + [page]) + rest;
  }

  lemma NextPiece(source: seq<Row>, n: nat, offset: nat, move: nat)
    requires n >= 1 && Window(source, n, offset) != []
    requires move == n || move == |Window(source, n, offset)|
    ensures Pieces(Drop(source, offset), n) == [Window(source, n, offset)] + Pieces(Drop(source, offset + move), n)
  {
    OffsetsAgree(source, n, offset);
    assert Drop(source, offset + move) == Drop(Drop(source, offset), n);
  }

  /** A committed page: either way of moving the offset goes on with the next piece. */
  lemma CoveredNext(j: Job, p: Progress, move: nat)
    requires j.n >= 1 && Covered(j, p) && PageAt(j, p) != []
    requires move == j.n || move == |PageAt(j, p)|
    ensures Covered(j, Advanced(j, p, move)) && Advanced(j, p, move).pages <= Pieces(j.source, j.n)
  {
    PagesNext(j, p, move);
    CountsNext(j.out, p.pages, PageAt(j, p));
  }

  lemma PagesNext(j: Job, p: Progress, move: nat)
    requires j.n >= 1 && PageAt(j, p) != [] && (move == j.n || move == |PageAt(j, p)|)
    requires p.pages + Pieces(Drop(j.source, p.offset), j.n) == Pieces(j.source, j.n)
    ensures var p' := Advanced(j, p, move);
      p'.pages + Pieces(Drop(j.source, p'.offset), j.n) == Pieces(j.source, j.n) && p'.pages <= Pieces(j.source, j.n)
  {
    NextPiece(j.source, j.n, p.offset, move);
    OneMore(p.pages, PageAt(j, p), Pieces(Drop(j.source, p.offset), j.n), Pieces(Drop(j.source, p.offset + move), j.n),
            Pieces(j.source, j.n));
  }

  lemma CountsNext(out: Output, pages: seq<seq<Row>>, page: seq<Row>)
    ensures |Concat(pages + [page])| == |Concat(pages)| + |page|
    ensures CountWritten(out, pages + [page]) == CountWritten(out, pages) + |out(page)|
  {
    WrittenPiecesSnoc(out, pages, page);
    ConcatAppend(pages, page);
  }

  lemma SinkNext(out: Output, before: Sink, pages: seq<seq<Row>>, page: seq<Row>)
    ensures (before + WrittenPieces(out, pages)) + Written(out, page)
         == before + WrittenPieces(out, pages + [page])
  {
    WrittenPiecesSnoc(out, pages, page);
    OverlayAssociates(before, WrittenPieces(out, pages), Written(out, page));
  }

  lemma LeftHere(j: Job, before: Sink, after: Sink, p: Progress)
    requires j.n >= 1 && Covered(j, p) && after == before + WrittenPieces(j.out, p.pages)
    ensures Left(j, before, after, p.pages, map[])
  {
    assert after == after + map[];
  }

  lemma NothingLeft(j: Job, p: Progress)
    requires j.n >= 1 && Covered(j, p) && PageAt(j, p) == []
    ensures p.pages == Pieces(j.source, j.n)
  {
    assert Drop(j.source, p.offset) == [];
    assert p.pages + [] == p.pages;
  }

  /** A run that ends between two pages. */
  lemma EndsHere(j: Job, before: Sink, after: Sink, p: Progress)
    requires j.n >= 1 && Covered(j, p) && after == before + WrittenPieces(j.out, p.pages)
    ensures forall lost :: RanOver(j, before, after, p.pages, map[], Broken(lost))
    ensures p.pages != [] ==> RanOver(j, before, after, p.pages, map[], Paused(p.read, p.written))
    ensures PageAt(j, p) == [] ==> RanOver(j, before, after, p.pages, map[], Complete(p.read, p.written))
  {
    assert after == after + map[];
    LeftHere(j, before, after, p);
    if PageAt(j, p) == [] {
      NothingLeft(j, p);
    }
  }

  lemma UpcomingPiece(j: Job, p: Progress)
    requires j.n >= 1 && Covered(j, p) && PageAt(j, p) != []
    ensures p.pages <= Pieces(j.source, j.n) && NextCells(j, p.pages) == Written(j.out, PageAt(j, p))
  {
    var pages, page := p.pages, PageAt(j, p);
    PagesNext(j, p, j.n);
    assert pages + [page] <= Pieces(j.source, j.n);
    assert (pages + [page])[|pages|] == page;
  }

  /** A run that ends in a write or commit that raised. */
  lemma BreaksHere(j: Job, before: Sink, after: Sink, p: Progress, part: Sink)
    requires j.n >= 1 && Covered(j, p) && PageAt(j, p) != []
    requires MayRemain(j.out(PageAt(j, p)), j.es, part)
    requires after == (before + WrittenPieces(j.out, p.pages)) + part
    ensures forall lost :: RanOver(j, before, after, p.pages, part, Broken(lost))
  {
    UpcomingPiece(j, p);
    assert Left(j, before, after, p.pages, part);
  }

  lemma NextCellsKeys(j: Job, pages: seq<seq<Row>>)
    requires j.n >= 1 && pages <= Pieces(j.source, j.n)
    ensures NextCells(j, pages).Keys <= WrittenPieces(j.out, Pieces(j.source, j.n)).Keys
  {
    var all := Pieces(j.source, j.n);
    if |pages| < |all| {
      var page := all[|pages|];
      assert pages + [page] <= all;
      WrittenPiecesSnoc(j.out, pages, page);
      WrittenPiecesKeys(j.out, pages + [page], all);
    }
  }

  lemma Overwritten(before: Sink, a: Sink, b: Sink, all: Sink)
    requires a.Keys <= all.Keys && b.Keys <= all.Keys
    ensures ((before + a) + b) + all == before + all
  {
    assert (before + a) + all == before + all;
  }

  /** What a complete run with this page size writes. */
  function Whole(source: seq<Row>, out: Output, n: nat): Sink
    requires n >= 1
  {
    WrittenPieces(out, Pieces(source, n))
  }

  /** What happened between these sinks is overwritten by writing all of this. */
  predicate Absorbs(before: Sink, after: Sink, whole: Sink) {
    after + whole == before + whole
  }

  /** For any transform: what a run leaves is overwritten by one with the same page size that gets to the end. */
  lemma RunIsAbsorbed(j: Job, before: Sink, after: Sink, pages: seq<seq<Row>>, part: Sink, end: Ending)
    requires j.n >= 1 && RanOver(j, before, after, pages, part, end)
    ensures Absorbs(before, after, Whole(j.source, j.out, j.n))
    ensures end.Complete? ==> after == before + Whole(j.source, j.out, j.n)
    ensures RowWise(j.out) ==> Whole(j.source, j.out, j.n) == Written(j.out, j.source)
  {
    if RowWise(j.out) {
      CompleteRunIgnoresPageSize(j.out, j.source, j.n);
    }
    var all := Pieces(j.source, j.n);
    WrittenPiecesKeys(j.out, pages, all);
    NextCellsKeys(j, pages);
    Overwritten(before, WrittenPieces(j.out, pages), part, WrittenPieces(j.out, all));
    if end.Complete? {
      assert after == before + WrittenPieces(j.out, pages);
    }
  }

  /** One of a series of runs over the same query and output, with its own page size. */
  datatype RunOf = RunOf(n: nat, pages: seq<seq<Row>>, part: Sink, end: Ending)

  predicate Ran(source: seq<Row>, out: Output, es: bool, before: Sink, after: Sink, r: RunOf) {
    r.n >= 1 && RanOver(Job(source, out, es, r.n), before, after, r.pages, r.part, r.end)
  }

  /** The runs one after another, with the sinks between them; what was not committed is gone. */
  predicate Series(source: seq<Row>, out: Output, es: bool, sinks: seq<Sink>, runs: seq<RunOf>) {
    |sinks| == |runs| + 1
    && forall i :: 0 <= i < |runs| ==> Ran(source, out, es, sinks[i], sinks[i + 1], runs[i])
  }

  /** Complete runs with any of these page sizes write the same. */
  predicate Alike(source: seq<Row>, out: Output, sizes: seq<nat>, whole: Sink) {
    forall i :: 0 <= i < |sizes| && sizes[i] >= 1 ==> Whole(source, out, sizes[i]) == whole
  }

  /** They do if the output is row-wise, whatever the sizes, and for any output if there is one size. */
  lemma AlikeIf(source: seq<Row>, out: Output, sizes: seq<nat>, n: nat)
    requires n >= 1
    ensures RowWise(out) ==> Alike(source, out, sizes, Written(out, source))
    ensures (forall i :: 0 <= i < |sizes| ==> sizes[i] == n) ==> Alike(source, out, sizes, Whole(source, out, n))
  {
    if RowWise(out) {
      forall i | 0 <= i < |sizes| && sizes[i] >= 1 ensures Whole(source, out, sizes[i]) == Written(out, source) {
        CompleteRunIgnoresPageSize(out, source, sizes[i]);
      }
    }
  }

  function Sizes(runs: seq<RunOf>): seq<nat> {
    seq(|runs|, i requires 0 <= i < |runs| => runs[i].n)
  }

  /** The last run of a series, and the series before it. */
  lemma LastRun(source: seq<Row>, out: Output, es: bool, sinks: seq<Sink>, runs: seq<RunOf>, whole: Sink)
    requires Series(source, out, es, sinks, runs) && Alike(source, out, Sizes(runs), whole) && runs != []
    ensures var k := |runs| - 1;
      && Series(source, out, es, sinks[..k + 1], runs[..k]) && Alike(source, out, Sizes(runs[..k]), whole)
      && Absorbs(sinks[k], sinks[k + 1], whole)
      && (runs[k].end.Complete? ==> sinks[k + 1] == sinks[k] + whole)
  {
    var k := |runs| - 1;
    var r := runs[k];
    assert Ran(source, out, es, sinks[k], sinks[k + 1], r);
    assert Sizes(runs)[k] == r.n && Sizes(runs)[..k] == Sizes(runs[..k]);
    RunIsAbsorbed(Job(source, out, es, r.n), sinks[k], sinks[k + 1], r.pages, r.part, r.end);
  }

  lemma {:induction false} SeriesIsAbsorbed(source: seq<Row>, out: Output, es: bool, sinks: seq<Sink>,
                                            runs: seq<RunOf>, whole: Sink)
    requires Series(source, out, es, sinks, runs) && Alike(source, out, Sizes(runs), whole)
    ensures Absorbs(sinks[0], Last(sinks), whole)
  {
    if runs != [] {
      LastRun(source, out, es, sinks, runs, whole);
      SeriesIsAbsorbed(source, out, es, sinks[..|runs|], runs[..|runs| - 1], whole);
    }
  }

  lemma SeriesEnds(source: seq<Row>, out: Output, es: bool, sinks: seq<Sink>, runs: seq<RunOf>, whole: Sink)
    requires Series(source, out, es, sinks, runs) && Alike(source, out, Sizes(runs), whole)
    requires runs != [] && Last(runs).end.Complete?
    ensures Last(sinks) == sinks[0] + whole
  {
    LastRun(source, out, es, sinks, runs, whole);
    SeriesIsAbsorbed(source, out, es, sinks[..|runs|], runs[..|runs| - 1], whole);
  }

  /**
   * Interrupted full runs leave no trace: after any series of runs, paused, broken or
   * complete, one complete run ends in the sink it would have produced alone.  For a
   * row-wise output this is so for any page sizes, and for any output with one size.
   */
  lemma InterruptedRunsLeaveNoTrace(source: seq<Row>, out: Output, es: bool, sinks: seq<Sink>, runs: seq<RunOf>)
    requires Series(source, out, es, sinks, runs)
    requires runs != [] && Last(runs).end.Complete?
    ensures RowWise(out) ==> Last(sinks) == sinks[0] + Written(out, source)
    ensures (forall i :: 0 <= i < |runs| ==> runs[i].n == Last(runs).n) ==>
      Last(runs).n >= 1 && Last(sinks) == sinks[0] + Whole(source, out, Last(runs).n)
  {
    var n := Last(runs).n;
    assert Ran(source, out, es, sinks[|runs| - 1], sinks[|runs|], runs[|runs| - 1]);
    AlikeIf(source, out, Sizes(runs), n);
    if RowWise(out) {
      SeriesEnds(source, out, es, sinks, runs, Written(out, source));
    }
    if forall i :: 0 <= i < |runs| ==> runs[i].n == n {
      SeriesEnds(source, out, es, sinks, runs, Whole(source, out, n));
    }
  }

  /**
   * The two full loops agree: complete runs over the same query, page size and
   * output, from the same sink, commit the same pages, report the same counts and
   * leave the same sink.
   */
  lemma CompleteRunsAgree(j: Job, before: Sink, after1: Sink, after2: Sink, pages1: seq<seq<Row>>,
                          pages2: seq<seq<Row>>, part1: Sink, part2: Sink, end1: Ending, end2: Ending)
    requires j.n >= 1 && end1.Complete? && end2.Complete?
    requires RanOver(j, before, after1, pages1, part1, end1) && RanOver(j, before, after2, pages2, part2, end2)
    ensures pages1 == pages2 && end1 == end2 && after1 == after2
    ensures end1.read == |j.source| && Concat(pages1) == j.source
  {
    PiecesCover(j.source, j.n);
  }
}
