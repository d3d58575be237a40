/** Which target strings are accepted, and what the writers make of them. */
module Targets {
  import opened Rows
  import opened Strings
  import opened Writers

  const ES_PREFIX := "es:"

  const TABLES := {"analytics.film_dim", "analytics.film_rating_agg"}

  const INDEXES := {"film_dim", "film_rating_agg"}

  /** `target or ""`, stripped. */
  function Trimmed(target: Option<string>): string {
    Strip(if target.Some? then target.value else "")
  }

  predicate IsAllowedTarget(target: Option<string>) {
    var name := Trimmed(target);
    || name in TABLES
    || (StartsWith(name, ES_PREFIX) && Strip(RemovePrefix(name, ES_PREFIX)) in INDEXES)
  }

  /** What a writer's guards make of a target: a destination, or the error it raises. */
  datatype Resolved = To(destination: Destination) | NotAllowed | Unsupported | NotPrefixed | EmptyIndex

  datatype WriterKind = Postgres | Elasticsearch

  function ResolveWriter(target: Option<string>): WriterKind {
    if StartsWith(Trimmed(target), ES_PREFIX) then Elasticsearch else Postgres
  }

  function PostgresGuards(target: Option<string>): Resolved {
    var name := Trimmed(target);
    if !IsAllowedTarget(Some(name)) then NotAllowed
    else if name == "analytics.film_dim" then To(FilmDim)
    else if name == "analytics.film_rating_agg" then To(FilmRatingAgg)
    else Unsupported
  }

  function IndexFromTarget(name: string): Resolved {
    if !StartsWith(name, ES_PREFIX) then NotPrefixed
    else
      var index := Strip(RemovePrefix(name, ES_PREFIX));
      if index == "" then EmptyIndex else To(Index(index))
  }

  function ElasticsearchGuards(target: Option<string>): Resolved {
    var name := Trimmed(target);
    if !IsAllowedTarget(Some(name)) then NotAllowed else IndexFromTarget(name)
  }

  /** The guards of the writer that is chosen for the target. */
  function Guards(target: Option<string>): Resolved {
    match ResolveWriter(target)
    case Postgres => PostgresGuards(target)
    case Elasticsearch => ElasticsearchGuards(target)
  }

  /** The spelling of a destination: white space is free around the whole and after the prefix. */
  predicate Spells(target: Option<string>, to: Destination) {
    var name := Trimmed(target);
    match to
    case FilmDim => name == "analytics.film_dim"
    case FilmRatingAgg => name == "analytics.film_rating_agg"
    case Index(index) =>
      index in INDEXES && StartsWith(name, ES_PREFIX) && Strip(RemovePrefix(name, ES_PREFIX)) == index
  }

  /**
   * A target is accepted exactly when it spells a destination, the chosen writer
   * then writes to that destination, and its allow-list, unsupported-target,
   * prefix and empty-index guards stay silent.  For any other target the
   * allow-list guard is the one that fires.
   */
  lemma AcceptedTargetsAreWritable(target: Option<string>)
    ensures IsAllowedTarget(target) <==> exists to :: Spells(target, to)
    ensures forall to :: Spells(target, to) <==> Guards(target) == To(to)
    ensures !IsAllowedTarget(target) <==> Guards(target) == NotAllowed
    ensures Guards(target).To? || Guards(target).NotAllowed?
  {
    var name := Trimmed(target);
    StripIdempotent(if target.Some? then target.value else "");
    assert IsAllowedTarget(Some(name)) == IsAllowedTarget(target);
    assert Spells(target, FilmDim) <==> name == "analytics.film_dim";
    assert Spells(target, FilmRatingAgg) <==> name == "analytics.film_rating_agg";
    var index := Strip(RemovePrefix(name, ES_PREFIX));
    assert Spells(target, Index(index)) <==> StartsWith(name, ES_PREFIX) && index in INDEXES;
    assert StartsWith(name, ES_PREFIX) ==> name[0] == 'e';
  }

  /** Blanks, tabs and line ends. */
  predicate Padding(s: string) {
    forall i :: 0 <= i < |s| ==> s[i] in {' ', '\t', '\n', '\r'}
  }

  lemma PaddingIsSpace(s: string)
    requires Padding(s)
    ensures AllSpace(s)
  {
  }

  lemma TableNamed(l: string, name: string, r: string)
    requires Padding(l) && Padding(r) && (name == "analytics.film_dim" || name == "analytics.film_rating_agg")
    ensures Trimmed(Some((l + name) + r)) == name == Trimmed(Some(name))
  {
    PaddingIsSpace(l);
    PaddingIsSpace(r);
    assert name[0] == 'a' && (Last(name) == 'm' || Last(name) == 'g');
    StripPadded(l, name, r);
    StripKeeps(name);
  }

  lemma IndexNamed(l: string, m: string, index: string, r: string)
    requires Padding(l) && Padding(m) && Padding(r) && (index == "film_dim" || index == "film_rating_agg")
    ensures var name := Trimmed(Some((l + (("es:" + m) + index)) + r));
      Trimmed(Some(name)) == name && "es:" <= name && Strip(name[3..]) == index
  {
    PaddingIsSpace(l);
    PaddingIsSpace(m);
    PaddingIsSpace(r);
    assert index[0] == 'f' && (Last(index) == 'm' || Last(index) == 'g') && "es:"[0] == 'e';
    StripPrefixed(l, "es:", m, index, r);
  }

  /** Where the accepted spellings are written, with any padding around them and after the prefix. */
  lemma PaddedTargets(l: string, m: string, r: string)
    requires Padding(l) && Padding(m) && Padding(r)
    ensures Guards(Some((l + "analytics.film_dim") + r)) == To(FilmDim)
    ensures Guards(Some((l + "analytics.film_rating_agg") + r)) == To(FilmRatingAgg)
    ensures Guards(Some((l + (("es:" + m) + "film_dim")) + r)) == To(Index("film_dim"))
    ensures Guards(Some((l + (("es:" + m) + "film_rating_agg")) + r)) == To(Index("film_rating_agg"))
  {
    TableNamed(l, "analytics.film_dim", r);
    TableNamed(l, "analytics.film_rating_agg", r);
    IndexNamed(l, m, "film_dim", r);
    IndexNamed(l, m, "film_rating_agg", r);
  }

  /** There are no other destinations, and no other spellings up to white space. */
  lemma OnlyTheseTargets(target: Option<string>)
    ensures match Guards(target)
      case To(FilmDim) => Trimmed(target) == "analytics.film_dim"
      case To(FilmRatingAgg) => Trimmed(target) == "analytics.film_rating_agg"
      case To(Index(index)) =>
        "es:" <= Trimmed(target) && Strip(Trimmed(target)[3..]) == index
        && (index == "film_dim" || index == "film_rating_agg")
      case other => other == NotAllowed
  {
    AcceptedTargetsAreWritable(target);
  }
}
