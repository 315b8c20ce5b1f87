/** What src/App.jsx renders from its state: the trending list, the result section and the footer. */
module View {
  import opened Media
  import opened Decimal
  import opened MovieCard
  import opened Search

  const SiteBase := "https://www.themoviedb.org/"

  // ---------------------------------------------------------------- links

  /** `https://www.themoviedb.org/<kind>/<id>`. */
  function Link(kind: string, id: nat): string {
    SiteBase + kind + "/" + NatToString(id)
  }

  /** Two links of one kind are equal only for equal ids. */
  lemma LinkInjective(kind: string, a: nat, b: nat)
    ensures Link(kind, a) == Link(kind, b) ==> a == b
  {
    if Link(kind, a) == Link(kind, b) {
      var n := |SiteBase + kind + "/"|;
      assert Link(kind, a)[n..] == NatToString(a);
      assert Link(kind, b)[n..] == NatToString(b);
      NatToStringInjective(a, b);
    }
  }

  /** A movie link never equals a series link. */
  lemma MovieAndTvLinksDiffer(a: nat, b: nat)
    ensures Link(MovieType, a) != Link(TvType, b)
  {
    var n := |SiteBase|;
    assert Link(MovieType, a)[n] == 'm';
    assert Link(TvType, b)[n] == 't';
  }

  // ---------------------------------------------------------------- filters

  /** `item.media_type === kind && item.poster_path`. */
  predicate Shown(item: MediaItem, kind: string) {
    item.mediaType == Some(kind) && Truthy(item.posterPath)
  }

  /** The items of one kind that have a poster, in their original order. */
  function Visible(items: seq<MediaItem>, kind: string): (r: seq<MediaItem>)
    ensures forall x :: x in r ==> Shown(x, kind)
    ensures |r| <= |items|
  {
    if items == [] then []
    else
      (if Shown(items[0], kind) then [items[0]] else []) + Visible(items[1..], kind)
  }

  /** Each item occurs in the filtered list as often as in the input if it qualifies, otherwise not at all. */
  lemma {:induction false} VisibleCount(items: seq<MediaItem>, kind: string, x: MediaItem)
    ensures multiset(Visible(items, kind))[x] == if Shown(x, kind) then multiset(items)[x] else 0
  {
    if items != [] {
      assert items == [items[0]] + items[1..];
      VisibleCount(items[1..], kind, x);
    }
  }

  /** Filtering commutes with concatenation, so the filter keeps the original order. */
  lemma {:induction false} VisibleAppend(a: seq<MediaItem>, b: seq<MediaItem>, kind: string)
    ensures Visible(a + b, kind) == Visible(a, kind) + Visible(b, kind)
  {
    if a == [] {
      assert a + b == b;
    } else {
      assert (a + b)[0] == a[0];
      assert (a + b)[1..] == a[1..] + b;
      VisibleAppend(a[1..], b, kind);
    }
  }

  /** The items that have a poster, in their original order. */
  function WithPoster(items: seq<MediaItem>): (r: seq<MediaItem>)
    ensures forall x :: x in r ==> Truthy(x.posterPath)
    ensures |r| <= |items|
  {
    if items == [] then []
    else
      (if Truthy(items[0].posterPath) then [items[0]] else []) + WithPoster(items[1..])
  }

  /** Each item occurs in the result as often as in the input if it has a poster, otherwise not at all. */
  lemma {:induction false} WithPosterCount(items: seq<MediaItem>, x: MediaItem)
    ensures multiset(WithPoster(items))[x] == if Truthy(x.posterPath) then multiset(items)[x] else 0
  {
    if items != [] {
      assert items == [items[0]] + items[1..];
      WithPosterCount(items[1..], x);
    }
  }

  /** The poster filter commutes with concatenation, so it keeps the original order. */
  lemma {:induction false} WithPosterAppend(a: seq<MediaItem>, b: seq<MediaItem>)
    ensures WithPoster(a + b) == WithPoster(a) + WithPoster(b)
  {
    if a == [] {
      assert a + b == b;
    } else {
      assert (a + b)[0] == a[0];
      assert (a + b)[1..] == a[1..] + b;
      WithPosterAppend(a[1..], b);
    }
  }

  /** Filtering tagged items on their own kind keeps those with a poster; on the other kind, none. */
  lemma {:induction false} VisibleOfTagged(items: seq<MediaItem>, kind: string, other: string)
    requires kind != other
    ensures Visible(Tag(items, kind), kind) == Tag(WithPoster(items), kind)
    ensures Visible(Tag(items, kind), other) == []
  {
    if items != [] {
      var t := Tag(items, kind);
      assert t[1..] == Tag(items[1..], kind);
      VisibleOfTagged(items[1..], kind, other);
      var head := items[0].(mediaType := Some(kind));
      assert t[0] == head;
      if Truthy(items[0].posterPath) {
        assert Tag(WithPoster(items), kind) == Tag([items[0]] + WithPoster(items[1..]), kind);
        assert Tag([items[0]] + WithPoster(items[1..]), kind)[1..] == Tag(WithPoster(items[1..]), kind);
      }
    }
  }

  /** When every item is tagged, each item with a poster passes exactly one of the two filters. */
  lemma PostersSplitByKind(items: seq<MediaItem>)
    requires AllTagged(items)
    ensures multiset(Visible(items, MovieType)) + multiset(Visible(items, TvType)) == multiset(WithPoster(items))
    ensures |Visible(items, MovieType)| + |Visible(items, TvType)| == |WithPoster(items)|
  {
    var movies, shows, posters := Visible(items, MovieType), Visible(items, TvType), WithPoster(items);
    forall x ensures multiset(movies)[x] + multiset(shows)[x] == multiset(posters)[x] {
      VisibleCount(items, MovieType, x);
      VisibleCount(items, TvType, x);
      WithPosterCount(items, x);
    }
    assert multiset(movies) + multiset(shows) == multiset(posters);
    assert |multiset(movies)| + |multiset(shows)| == |multiset(posters)|;
  }

  // ---------------------------------------------------------------- the result section

  /** One `<li>`: the link it wraps and the card inside it. */
  datatype Entry = Entry(href: string, card: Card)

  /** The entries of one list, one per item, in order. */
  function Entries(items: seq<MediaItem>, kind: string): (r: seq<Entry>)
    ensures |r| == |items|
    ensures forall i :: 0 <= i < |r| ==> r[i] == Entry(Link(kind, items[i].id), DeriveCard(items[i]))
  {
    if items == [] then [] else [Entry(Link(kind, items[0].id), DeriveCard(items[0]))] + Entries(items[1..], kind)
  }

  /** The result section shows exactly one of these. */
  datatype Results = Spinner | ErrorText(message: string) | Lists(movies: seq<Entry>, shows: seq<Entry>)

  function RenderResults(s: UiState): (v: Results)
    ensures v.Spinner? <==> s.isLoading
    ensures v.ErrorText? <==> !s.isLoading && s.errorMessage != NoMessage
    ensures v.ErrorText? ==> v.message == Text(s.errorMessage) && v.message != ""
    ensures v.Lists? ==> v.movies == Entries(Visible(s.movieList, MovieType), MovieType)
    ensures v.Lists? ==> v.shows == Entries(Visible(s.movieList, TvType), TvType)
  {
    if s.isLoading then Spinner
    else if Text(s.errorMessage) != "" then ErrorText(Text(s.errorMessage))
    else Lists(Entries(Visible(s.movieList, MovieType), MovieType), Entries(Visible(s.movieList, TvType), TvType))
  }

  /** After a successful search each filter keeps, in order, the results of its own kind that have a poster. */
  lemma {:induction false} SearchResultFilters(s: UiState, query: string, f: Fetched, counterThrows: bool)
    requires f.Responses? && !BothFailed(f) && Combined(f) != []
    requires !(CountsSearch(query, f) && counterThrows)
    ensures var r := AfterSearch(s, query, f, counterThrows);
      && Visible(r.movieList, MovieType) == Tag(WithPoster(ResultsOf(f.movieRes)), MovieType)
      && Visible(r.movieList, TvType) == Tag(WithPoster(ResultsOf(f.seriesRes)), TvType)
  {
    var movies, series := ResultsOf(f.movieRes), ResultsOf(f.seriesRes);
    SuccessShowsCombined(s, query, f, counterThrows);
    var r := AfterSearch(s, query, f, counterThrows);
    assert r.movieList == Tag(movies, MovieType) + Tag(series, TvType);
    VisibleAppend(Tag(movies, MovieType), Tag(series, TvType), MovieType);
    VisibleAppend(Tag(movies, MovieType), Tag(series, TvType), TvType);
    VisibleOfTagged(movies, MovieType, TvType);
    VisibleOfTagged(series, TvType, MovieType);
  }

  /** After a successful search the movie list shows the movie results that have a poster and the
      series list the series results that have one, each in the order the catalog returned them. */
  lemma {:induction false} SuccessfulSearchShows(s: UiState, query: string, f: Fetched, counterThrows: bool)
    requires f.Responses? && !BothFailed(f) && Combined(f) != []
    requires !(CountsSearch(query, f) && counterThrows)
    ensures RenderResults(AfterSearch(s, query, f, counterThrows))
         == Lists(Entries(Tag(WithPoster(ResultsOf(f.movieRes)), MovieType), MovieType),
                  Entries(Tag(WithPoster(ResultsOf(f.seriesRes)), TvType), TvType))
  {
    SuccessShowsCombined(s, query, f, counterThrows);
    SearchResultFilters(s, query, f, counterThrows);
    var r := AfterSearch(s, query, f, counterThrows);
    assert !r.isLoading && r.errorMessage == NoMessage;
  }

  /** In a reachable state that shows the lists, every item with a poster is listed once, under its kind. */
  lemma EveryPosterListedOnce(s: UiState)
    requires Invariant(s) && !s.isLoading && s.errorMessage == NoMessage
    ensures var v := RenderResults(s);
      v.Lists? && |v.movies| + |v.shows| == |WithPoster(s.movieList)|
  {
    PostersSplitByKind(s.movieList);
  }

  /** When the awaited counter call throws, the error paragraph replaces both lists on screen. */
  lemma CounterFailureHidesList(s: UiState, query: string, f: Fetched)
    requires CountsSearch(query, f)
    ensures RenderResults(AfterSearch(s, query, f, true)) == ErrorText(Text(UnexpectedErrorMessage))
  {
    CounterFailureKeepsList(s, query, f);
  }

  /** While a search is in flight the spinner shows and no error paragraph does. */
  lemma WhileLoading(s: UiState)
    ensures var loading := s.(isLoading := true, errorMessage := NoMessage);
      RenderResults(loading) == Spinner && Footer(loading) == None
  {
  }

  /** The paragraph under the section: `{errorMessage && <p className="error">…}`. */
  function Footer(s: UiState): (r: Option<string>)
    ensures r.Some? <==> s.errorMessage != NoMessage
    ensures r.Some? ==> r.value == Text(s.errorMessage)
  {
    if Text(s.errorMessage) != "" then Some(Text(s.errorMessage)) else None
  }

  // ---------------------------------------------------------------- trending

  /** One trending `<li>`: its key, the rank shown, the image and its alt text. */
  datatype TrendingRow = TrendingRow(key: string, rank: nat, posterSrc: string, alt: string)

  /** The rows for `docs`, the first one ranked `first`. */
  function RankFrom(docs: seq<TrendingDoc>, first: nat): (r: seq<TrendingRow>)
    ensures |r| == |docs|
    ensures forall i :: 0 <= i < |r| ==>
      r[i] == TrendingRow(docs[i].docId, first + i, docs[i].posterUrl, docs[i].title)
  {
    if docs == [] then []
    else [TrendingRow(docs[0].docId, first, docs[0].posterUrl, docs[0].title)] + RankFrom(docs[1..], first + 1)
  }

  /** The trending section: absent when the list is empty, otherwise one row per record ranked from 1. */
  function Trending(docs: seq<TrendingDoc>): (r: Option<seq<TrendingRow>>)
    ensures r.None? <==> docs == []
    ensures r.Some? ==> |r.value| == |docs| && forall i :: 0 <= i < |docs| ==> r.value[i].rank == i + 1
  {
    if |docs| > 0 then Some(RankFrom(docs, 1)) else None
  }

  /** The whole page. */
  datatype Page = Page(trending: Option<seq<TrendingRow>>, results: Results, footer: Option<string>)

  function RenderPage(s: UiState): (p: Page)
    ensures p.results.ErrorText? ==> p.footer == Some(p.results.message)
    ensures p.trending.Some? ==> |p.trending.value| == |s.trendingMovies|
    ensures p.trending == Trending(s.trendingMovies) && p.results == RenderResults(s) && p.footer == Footer(s)
  {
    Page(Trending(s.trendingMovies), RenderResults(s), Footer(s))
  }
}
