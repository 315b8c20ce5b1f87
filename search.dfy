/**
 * The search orchestration of src/App.jsx: `fetchMoviesAndSeries` and the state it updates.
 * The two catalog responses, a thrown exception and the outcome of the counter-store call are
 * inputs; the counter store itself is only a log of the calls made to it.
 */
module Search {
  import opened Media

  const ApiBaseUrl := "https://api.themoviedb.org/3"
  const NowPlayingPath := "/movie/now_playing"
  const OnTheAirPath := "/tv/on_the_air"
  const SearchMoviePath := "/search/movie?query="
  const SearchTvPath := "/search/tv?query="

  /** The values `errorMessage` is ever set to; Text gives the string each one shows. */
  datatype Message = NoMessage | FetchFailedMessage | NotFoundMessage | UnexpectedErrorMessage

  function Text(m: Message): (t: string)
    ensures t == "" <==> m == NoMessage
  {
    match m
    case NoMessage => ""
    case FetchFailedMessage => "Failed to fetch movies and series"
    case NotFoundMessage => "No movies or series found!"
    case UnexpectedErrorMessage => "Error fetching movies and series. Please try again later."
  }

  /** Distinct messages show distinct text. */
  lemma TextInjective(m1: Message, m2: Message)
    ensures Text(m1) == Text(m2) ==> m1 == m2
  {
    if Text(m1) == Text(m2) {
      assert |Text(m1)| == |Text(m2)|;
    }
  }

  // ---------------------------------------------------------------- endpoints

  datatype Endpoints = Endpoints(movie: string, series: string)

  const BrowseEndpoints := Endpoints(ApiBaseUrl + NowPlayingPath, ApiBaseUrl + OnTheAirPath)

  /** The two URLs requested for a query; `encode` stands for `encodeURIComponent`. */
  function ChooseEndpoints(query: string, encode: string -> string): Endpoints {
    if query == "" then BrowseEndpoints
    else Endpoints(ApiBaseUrl + SearchMoviePath + encode(query), ApiBaseUrl + SearchTvPath + encode(query))
  }

  /** The query parameter an endpoint carries after the given search path, if it is one. */
  function QueryParam(endpoint: string, searchPath: string): Option<string> {
    var prefix := ApiBaseUrl + searchPath;
    if prefix <= endpoint then Some(endpoint[|prefix|..]) else None
  }

  /** Browsing requests carry no query; a search sends exactly the encoded query to both catalogs. */
  lemma EndpointsCarryQuery(query: string, encode: string -> string)
    ensures var e := ChooseEndpoints(query, encode);
      ApiBaseUrl <= e.movie && ApiBaseUrl <= e.series
    ensures ChooseEndpoints(query, encode) == BrowseEndpoints <==> query == ""
    ensures var e := ChooseEndpoints(query, encode);
      && QueryParam(e.movie, SearchMoviePath) == (if query == "" then None else Some(encode(query)))
      && QueryParam(e.series, SearchTvPath) == (if query == "" then None else Some(encode(query)))
  {
    var n := |ApiBaseUrl|;
    if query == "" {
      assert (ApiBaseUrl + SearchMoviePath)[n + 1] != (ApiBaseUrl + NowPlayingPath)[n + 1];
      assert (ApiBaseUrl + SearchTvPath)[n + 1] != (ApiBaseUrl + OnTheAirPath)[n + 1];
    } else {
      var e := ChooseEndpoints(query, encode);
      assert e.movie == (ApiBaseUrl + SearchMoviePath) + encode(query);
      assert e.series == (ApiBaseUrl + SearchTvPath) + encode(query);
    }
  }

  // ---------------------------------------------------------------- responses and tagging

  /** What one `fetch` resolved to: its `ok` flag and the `results` field of its JSON body. */
  datatype Response = Response(ok: bool, results: Option<seq<MediaItem>>)

  /** Both responses with parsed bodies, or an exception from `fetch` or `.json()`. */
  datatype Fetched = Responses(movieRes: Response, seriesRes: Response) | FetchThrew

  /** `data.results || []`. */
  function ResultsOf(r: Response): (items: seq<MediaItem>)
    ensures r.results.None? ==> items == []
    ensures r.results.Some? ==> items == r.results.value
  {
    if r.results.Some? then r.results.value else []
  }

  /** `items.map((item) => ({ ...item, media_type: kind }))`. */
  function Tag(items: seq<MediaItem>, kind: string): (r: seq<MediaItem>)
    ensures |r| == |items|
    ensures forall i :: 0 <= i < |r| ==> r[i] == items[i].(mediaType := Some(kind))
  {
    if items == [] then [] else [items[0].(mediaType := Some(kind))] + Tag(items[1..], kind)
  }

  /** The combined list: the movies tagged 'movie', then the series tagged 'tv'. */
  function Combine(movies: seq<MediaItem>, series: seq<MediaItem>): (r: seq<MediaItem>)
    ensures |r| == |movies| + |series|
    ensures AllTagged(r)
  {
    Tag(movies, MovieType) + Tag(series, TvType)
  }

  /** Movies first, then series; each item keeps every field except the discriminator. */
  lemma CombineLayout(movies: seq<MediaItem>, series: seq<MediaItem>)
    ensures var r := Combine(movies, series);
      forall i :: 0 <= i < |movies| ==> r[i] == movies[i].(mediaType := Some(MovieType))
    ensures var r := Combine(movies, series);
      forall j :: 0 <= j < |series| ==> r[|movies| + j] == series[j].(mediaType := Some(TvType))
  {
  }

  /** Movie results [A, B] and series results [X, Y] combine to [A(movie), B(movie), X(tv), Y(tv)]. */
  lemma CombineExample(a: MediaItem, b: MediaItem, x: MediaItem, y: MediaItem)
    ensures Combine([a, b], [x, y])
         == [a.(mediaType := Some(MovieType)), b.(mediaType := Some(MovieType)),
             x.(mediaType := Some(TvType)), y.(mediaType := Some(TvType))]
  {
    CombineLayout([a, b], [x, y]);
  }

  predicate BothFailed(f: Fetched) {
    f.Responses? && !f.movieRes.ok && !f.seriesRes.ok
  }

  function Combined(f: Fetched): seq<MediaItem>
    requires f.Responses?
  {
    Combine(ResultsOf(f.movieRes), ResultsOf(f.seriesRes))
  }

  // ---------------------------------------------------------------- state and outcome

  /** One call of `updateSearchCount(query, item)`. */
  datatype CounterCall = CounterCall(query: string, item: MediaItem)

  /** A counter record as the trending list shows it: `$id`, `poster_url`, `title`. */
  datatype TrendingDoc = TrendingDoc(docId: string, posterUrl: string, title: string)

  /** The component's state, plus the log of counter-store calls. */
  datatype UiState = UiState(
    isLoading: bool,
    errorMessage: Message,
    movieList: seq<MediaItem>,
    trendingMovies: seq<TrendingDoc>,
    counterLog: seq<CounterCall>)

  const InitialState := UiState(false, NoMessage, [], [], [])

  /** Whether the search reaches `updateSearchCount` (line 85). */
  predicate CountsSearch(query: string, f: Fetched) {
    f.Responses? && !BothFailed(f) && query != "" && |Combined(f)| > 0
  }

  datatype Outcome = FetchFailure | EmptyResult | Success(combined: seq<MediaItem>) | TransportError

  /** How a search ends, given the responses and whether the awaited counter call throws. */
  function Classify(query: string, f: Fetched, counterThrows: bool): (o: Outcome)
    ensures o.FetchFailure? <==> BothFailed(f)
    ensures o.EmptyResult? <==> f.Responses? && !BothFailed(f) && Combined(f) == []
    ensures o.TransportError? <==> f.FetchThrew? || (CountsSearch(query, f) && counterThrows)
    ensures o.Success? ==> f.Responses? && o.combined == Combined(f) && o.combined != []
  {
    if f.FetchThrew? then TransportError
    else if BothFailed(f) then FetchFailure
    else if ResultsOf(f.movieRes) == [] && ResultsOf(f.seriesRes) == [] then EmptyResult
    else if CountsSearch(query, f) && counterThrows then TransportError
    else Success(Combined(f))
  }

  /** The message each outcome leaves; only a success leaves none. */
  function MessageOf(o: Outcome): (m: Message)
    ensures m == NoMessage <==> o.Success?
  {
    match o
    case FetchFailure => FetchFailedMessage
    case EmptyResult => NotFoundMessage
    case Success(_) => NoMessage
    case TransportError => UnexpectedErrorMessage
  }

  /** The state once `fetchMoviesAndSeries(query)` has settled. */
  function AfterSearch(s: UiState, query: string, f: Fetched, counterThrows: bool): UiState {
    var o := Classify(query, f, counterThrows);
    UiState(
      false,
      MessageOf(o),
      match o
        case Success(c) => c
        case EmptyResult => []
        case _ => s.movieList,
      s.trendingMovies,
      s.counterLog + if CountsSearch(query, f) then [CounterCall(query, Combined(f)[0])] else [])
  }

  /** The state after `loadTrendingMovies`; `loaded` is None when `getTrendingMovies` throws. */
  function AfterTrendingLoad(s: UiState, loaded: Option<seq<TrendingDoc>>): UiState {
    if loaded.Some? then s.(trendingMovies := loaded.value) else s
  }

  /** Every item carries one of the two discriminator values. */
  predicate AllTagged(items: seq<MediaItem>) {
    forall x :: x in items ==> x.mediaType == Some(MovieType) || x.mediaType == Some(TvType)
  }

  /** Every counter call was made for a non-empty query. */
  predicate AllQueried(log: seq<CounterCall>) {
    forall c :: c in log ==> c.query != ""
  }

  /** What every reachable state satisfies. */
  predicate Invariant(s: UiState) {
    AllTagged(s.movieList) && AllQueried(s.counterLog)
  }

  // ---------------------------------------------------------------- properties of a search

  /** When both requests fail only the error and the spinner change: the previous list stays. */
  lemma BothFailedKeepsList(s: UiState, query: string, f: Fetched, counterThrows: bool)
    requires BothFailed(f)
    ensures AfterSearch(s, query, f, counterThrows) == s.(isLoading := false, errorMessage := FetchFailedMessage)
  {
  }

  /** The `ok` flags matter only when both are false, and a missing `results` counts as empty. */
  lemma OneFailureContinues(s: UiState, query: string, m: Response, t: Response, counterThrows: bool)
    requires m.ok || t.ok
    ensures AfterSearch(s, query, Responses(m, t), counterThrows)
         == AfterSearch(s, query, Responses(Response(true, Some(ResultsOf(m))), Response(true, Some(ResultsOf(t)))),
                        counterThrows)
  {
  }

  /** No results in either catalog clears the list and reports that nothing was found. */
  lemma EmptyResultsClearList(s: UiState, query: string, m: Response, t: Response, counterThrows: bool)
    requires m.ok || t.ok
    requires ResultsOf(m) == [] && ResultsOf(t) == []
    ensures AfterSearch(s, query, Responses(m, t), counterThrows)
         == s.(isLoading := false, errorMessage := NotFoundMessage, movieList := [])
  {
  }

  /** A successful search shows the combined list, with a counter call for a non-empty query. */
  lemma SuccessShowsCombined(s: UiState, query: string, f: Fetched, counterThrows: bool)
    requires f.Responses? && !BothFailed(f) && Combined(f) != []
    requires !(CountsSearch(query, f) && counterThrows)
    ensures AfterSearch(s, query, f, counterThrows)
         == s.(isLoading := false, errorMessage := NoMessage, movieList := Combined(f),
               counterLog := s.counterLog + if query != "" then [CounterCall(query, Combined(f)[0])] else [])
  {
  }

  /** The error is cleared exactly when the search shows its combined list. */
  lemma NoErrorIffShown(s: UiState, query: string, f: Fetched, counterThrows: bool)
    ensures var r := AfterSearch(s, query, f, counterThrows);
      r.errorMessage == NoMessage <==>
        f.Responses? && !BothFailed(f) && Combined(f) != [] && !(CountsSearch(query, f) && counterThrows)
    ensures var r := AfterSearch(s, query, f, counterThrows);
      r.errorMessage == NoMessage ==> r.movieList == Combined(f) && r.movieList != []
  {
  }

  /** Exactly one counter call, with the query and the first combined item, iff the query is
      non-empty and the combined list is non-empty; earlier calls stay as they were. */
  lemma {:induction false} CounterCalledOnce(s: UiState, query: string, f: Fetched, counterThrows: bool)
    ensures var r := AfterSearch(s, query, f, counterThrows);
      && |s.counterLog| <= |r.counterLog| <= |s.counterLog| + 1
      && r.counterLog[..|s.counterLog|] == s.counterLog
      && (|r.counterLog| == |s.counterLog| + 1 <==>
            query != "" && f.Responses? && !BothFailed(f) && |Combined(f)| > 0)
      && (|r.counterLog| == |s.counterLog| + 1 ==> r.counterLog[|s.counterLog|] == CounterCall(query, Combined(f)[0]))
  {
  }

  /** A browse (empty query) never touches the counter store. */
  lemma EmptyQueryNoCounter(s: UiState, f: Fetched, counterThrows: bool)
    ensures AfterSearch(s, "", f, counterThrows).counterLog == s.counterLog
  {
  }

  /** An exception from `fetch` or `.json()` keeps the previous list. */
  lemma FetchExceptionKeepsList(s: UiState, query: string, counterThrows: bool)
    ensures AfterSearch(s, query, FetchThrew, counterThrows)
         == s.(isLoading := false, errorMessage := UnexpectedErrorMessage)
  {
  }

  /** The counter call is awaited: when it throws, the call is on record but the list is not shown. */
  lemma CounterFailureKeepsList(s: UiState, query: string, f: Fetched)
    requires CountsSearch(query, f)
    ensures AfterSearch(s, query, f, true)
         == s.(isLoading := false, errorMessage := UnexpectedErrorMessage,
               counterLog := s.counterLog + [CounterCall(query, Combined(f)[0])])
  {
  }

  /** Every search ends with the spinner off and the trending list untouched. */
  lemma LoadingEndsFalse(s: UiState, query: string, f: Fetched, counterThrows: bool)
    ensures var r := AfterSearch(s, query, f, counterThrows);
      !r.isLoading && r.trendingMovies == s.trendingMovies
  {
  }

  /** Searches and trending loads keep the invariant. */
  lemma {:induction false} SearchKeepsInvariant(s: UiState, query: string, f: Fetched, counterThrows: bool)
    requires Invariant(s)
    ensures Invariant(AfterSearch(s, query, f, counterThrows))
  {
    var r := AfterSearch(s, query, f, counterThrows);
    forall c | c in r.counterLog ensures c.query != "" {
      if c !in s.counterLog {
        assert CountsSearch(query, f);
      }
    }
  }

  lemma TrendingLoadKeepsInvariant(s: UiState, loaded: Option<seq<TrendingDoc>>)
    requires Invariant(s)
    ensures Invariant(AfterTrendingLoad(s, loaded))
    ensures AfterTrendingLoad(s, loaded).trendingMovies == if loaded.Some? then loaded.value else s.trendingMovies
  {
  }

  // ---------------------------------------------------------------- the order of effects

  /** One call the function makes: a state setter or the counter-store update. */
  datatype Effect =
    | SetIsLoading(loading: bool)
    | SetErrorMessage(message: Message)
    | SetMovieList(list: seq<MediaItem>)
    | UpdateSearchCount(call: CounterCall)

  function Apply(s: UiState, e: Effect): UiState {
    match e
    case SetIsLoading(b) => s.(isLoading := b)
    case SetErrorMessage(m) => s.(errorMessage := m)
    case SetMovieList(l) => s.(movieList := l)
    case UpdateSearchCount(c) => s.(counterLog := s.counterLog + [c])
  }

  function ApplyAll(s: UiState, es: seq<Effect>): UiState
    decreases es
  {
    if es == [] then s else ApplyAll(Apply(s, es[0]), es[1..])
  }

  /** The calls made inside the `try` block and its `catch`, in order. */
  function TryEffects(query: string, f: Fetched, counterThrows: bool): seq<Effect> {
    if f.FetchThrew? then [SetErrorMessage(UnexpectedErrorMessage)]
    else if !f.movieRes.ok && !f.seriesRes.ok then [SetErrorMessage(FetchFailedMessage)]
    else
      var movies, series := ResultsOf(f.movieRes), ResultsOf(f.seriesRes);
      if |movies| == 0 && |series| == 0 then [SetErrorMessage(NotFoundMessage), SetMovieList([])]
      else
        var combined := Combine(movies, series);
        if |combined| > 0 && query != "" then
          [UpdateSearchCount(CounterCall(query, combined[0]))]
          + if counterThrows then [SetErrorMessage(UnexpectedErrorMessage)] else [SetMovieList(combined)]
        else [SetMovieList(combined)]
  }

  /** Every call `fetchMoviesAndSeries` makes, in order, with the `finally` block last. */
  function SearchEffects(query: string, f: Fetched, counterThrows: bool): seq<Effect> {
    [SetIsLoading(true), SetErrorMessage(NoMessage)] + TryEffects(query, f, counterThrows) + [SetIsLoading(false)]
  }

  lemma {:induction false} ApplyAllAppend(s: UiState, a: seq<Effect>, b: seq<Effect>)
    ensures ApplyAll(s, a + b) == ApplyAll(ApplyAll(s, a), b)
    decreases a
  {
    if a != [] {
      assert (a + b)[0] == a[0];
      assert (a + b)[1..] == a[1..] + b;
      ApplyAllAppend(Apply(s, a[0]), a[1..], b);
    } else {
      assert a + b == b;
    }
  }

  lemma {:induction false} ApplyAllPair(s: UiState, e1: Effect, e2: Effect)
    ensures ApplyAll(s, [e1, e2]) == Apply(Apply(s, e1), e2)
  {
    assert [e1, e2][1..] == [e2];
    assert [e2][1..] == [];
    assert ApplyAll(s, [e1, e2]) == ApplyAll(Apply(s, e1), [e2]);
    assert ApplyAll(Apply(s, e1), [e2]) == ApplyAll(Apply(Apply(s, e1), e2), []);
  }

  lemma {:induction false} ApplyAllSingle(s: UiState, e: Effect)
    ensures ApplyAll(s, [e]) == Apply(s, e)
  {
    assert [e][1..] == [];
  }

  /** The calls of the `try` block, from the state its first two lines leave. */
  lemma {:induction false} TryEffectsReach(s: UiState, query: string, f: Fetched, counterThrows: bool)
    requires s.errorMessage == NoMessage
    ensures ApplyAll(s, TryEffects(query, f, counterThrows)).(isLoading := false)
         == AfterSearch(s, query, f, counterThrows)
  {
    var t := TryEffects(query, f, counterThrows);
    if f.FetchThrew? {
      assert t == [SetErrorMessage(UnexpectedErrorMessage)];
      ApplyAllSingle(s, t[0]);
    } else if BothFailed(f) {
      assert t == [SetErrorMessage(FetchFailedMessage)];
      ApplyAllSingle(s, t[0]);
    } else if Combined(f) == [] {
      assert t == [SetErrorMessage(NotFoundMessage), SetMovieList([])];
      ApplyAllPair(s, t[0], t[1]);
    } else if CountsSearch(query, f) {
      var c := Combined(f);
      var last := if counterThrows then SetErrorMessage(UnexpectedErrorMessage) else SetMovieList(c);
      assert t == [UpdateSearchCount(CounterCall(query, c[0])), last];
      ApplyAllPair(s, t[0], t[1]);
    } else {
      assert t == [SetMovieList(Combined(f))];
      ApplyAllSingle(s, t[0]);
    }
  }

  /** Performing the calls one by one ends in the state AfterSearch describes. */
  lemma {:induction false} EffectsReachAfterSearch(s: UiState, query: string, f: Fetched, counterThrows: bool)
    ensures ApplyAll(s, SearchEffects(query, f, counterThrows)) == AfterSearch(s, query, f, counterThrows)
  {
    var t := TryEffects(query, f, counterThrows);
    var head := [SetIsLoading(true), SetErrorMessage(NoMessage)];
    ApplyAllAppend(s, head + t, [SetIsLoading(false)]);
    ApplyAllAppend(s, head, t);
    ApplyAllPair(s, SetIsLoading(true), SetErrorMessage(NoMessage));
    var s1 := s.(isLoading := true, errorMessage := NoMessage);
    ApplyAllSingle(ApplyAll(s1, t), SetIsLoading(false));
    TryEffectsReach(s1, query, f, counterThrows);
  }

  /** The `try` block makes one or two calls, none of them to `setIsLoading`; it calls the counter
      store, first, exactly when the search counts. */
  lemma TryEffectsShape(query: string, f: Fetched, counterThrows: bool)
    ensures var t := TryEffects(query, f, counterThrows);
      1 <= |t| <= 2 && forall k :: 0 <= k < |t| ==> !t[k].SetIsLoading?
    ensures CountsSearch(query, f) ==>
      TryEffects(query, f, counterThrows)
      == [UpdateSearchCount(CounterCall(query, Combined(f)[0])),
          if counterThrows then SetErrorMessage(UnexpectedErrorMessage) else SetMovieList(Combined(f))]
    ensures var t := TryEffects(query, f, counterThrows);
      !CountsSearch(query, f) ==> forall k :: 0 <= k < |t| ==> !t[k].UpdateSearchCount?
  {
  }

  /** Where the calls of the `try` block sit among all the calls. */
  lemma SearchEffectsAt(query: string, f: Fetched, counterThrows: bool)
    ensures var t, es := TryEffects(query, f, counterThrows), SearchEffects(query, f, counterThrows);
      && |es| == |t| + 3
      && es[0] == SetIsLoading(true) && es[1] == SetErrorMessage(NoMessage) && es[|es| - 1] == SetIsLoading(false)
      && forall k :: 0 <= k < |t| ==> es[k + 2] == t[k]
  {
  }

  /** The spinner is switched on and the error cleared first; the `finally` block runs last. */
  lemma {:induction false} LoadingBracketsSearch(query: string, f: Fetched, counterThrows: bool)
    ensures var es := SearchEffects(query, f, counterThrows);
      |es| >= 4 && es[0] == SetIsLoading(true) && es[1] == SetErrorMessage(NoMessage)
      && es[|es| - 1] == SetIsLoading(false)
      && forall k :: 0 < k < |es| - 1 ==> !es[k].SetIsLoading?
  {
    SearchEffectsAt(query, f, counterThrows);
    TryEffectsShape(query, f, counterThrows);
    var t, es := TryEffects(query, f, counterThrows), SearchEffects(query, f, counterThrows);
    forall k | 2 <= k < |es| - 1 ensures !es[k].SetIsLoading? {
      assert es[(k - 2) + 2] == t[k - 2];
    }
  }

  /** The counter update comes before any `setMovieList`, and when it throws the list is never set. */
  lemma {:induction false} CounterAwaitedBeforeList(query: string, f: Fetched, counterThrows: bool)
    ensures var es := SearchEffects(query, f, counterThrows);
      forall i, j :: 0 <= i < |es| && 0 <= j < |es| && es[i].UpdateSearchCount? && es[j].SetMovieList? ==>
        i < j && !counterThrows
  {
    SearchEffectsAt(query, f, counterThrows);
    TryEffectsShape(query, f, counterThrows);
    var t, es := TryEffects(query, f, counterThrows), SearchEffects(query, f, counterThrows);
    forall i | 2 <= i < |es| - 1 ensures es[i] == t[i - 2] {
      assert es[(i - 2) + 2] == t[i - 2];
    }
  }

  // ---------------------------------------------------------------- the component

  class AppState {
    var isLoading: bool
    var errorMessage: Message
    var movieList: seq<MediaItem>
    var trendingMovies: seq<TrendingDoc>
    var counterLog: seq<CounterCall>

    function Snapshot(): UiState
      reads this
    {
      UiState(isLoading, errorMessage, movieList, trendingMovies, counterLog)
    }

    predicate Valid()
      reads this
    {
      Invariant(Snapshot())
    }

    /** The initial `useState` values. */
    constructor ()
      ensures Valid() && Snapshot() == InitialState
    {
      isLoading, errorMessage, movieList, trendingMovies, counterLog := false, NoMessage, [], [], [];
    }

    /** `fetchMoviesAndSeries(query)`; returns the two endpoints it requests. */
    method FetchMoviesAndSeries(query: string, encode: string -> string, fetched: Fetched, counterThrows: bool)
      returns (requested: Endpoints)
      requires Valid()
      modifies this
      ensures Valid()
      ensures requested == ChooseEndpoints(query, encode)
      ensures Snapshot() == AfterSearch(old(Snapshot()), query, fetched, counterThrows)
    {
      ghost var s := Snapshot();
      isLoading := true;
      errorMessage := NoMessage;
      requested := ChooseEndpoints(query, encode);
      assert Snapshot() == s.(isLoading := true, errorMessage := NoMessage);
      if fetched.FetchThrew? {
        errorMessage := UnexpectedErrorMessage;
        FetchExceptionKeepsList(s, query, counterThrows);
      } else if !fetched.movieRes.ok && !fetched.seriesRes.ok {
        errorMessage := FetchFailedMessage;
        BothFailedKeepsList(s, query, fetched, counterThrows);
      } else {
        var movies := ResultsOf(fetched.movieRes);
        var series := ResultsOf(fetched.seriesRes);
        if |movies| == 0 && |series| == 0 {
          errorMessage := NotFoundMessage;
          movieList := [];
          EmptyResultsClearList(s, query, fetched.movieRes, fetched.seriesRes, counterThrows);
        } else {
          var combined := Combine(movies, series);
          assert combined == Combined(fetched) && combined != [];
          var threw := false;
          if |combined| > 0 && query != "" {
            counterLog := counterLog + [CounterCall(query, combined[0])];
            threw := counterThrows;
          }
          if threw {
            errorMessage := UnexpectedErrorMessage;
            CounterFailureKeepsList(s, query, fetched);
          } else {
            movieList := combined;
            SuccessShowsCombined(s, query, fetched, counterThrows);
          }
        }
      }
      isLoading := false;
      SearchKeepsInvariant(s, query, fetched, counterThrows);
    }

    /** `loadTrendingMovies()`; `loaded` is None when `getTrendingMovies` throws. */
    method LoadTrendingMovies(loaded: Option<seq<TrendingDoc>>)
      requires Valid()
      modifies this
      ensures Valid()
      ensures Snapshot() == AfterTrendingLoad(old(Snapshot()), loaded)
    {
      if loaded.Some? {
        trendingMovies := loaded.value;
      }
    }
  }
}
