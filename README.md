# MovieSearch: search orchestration and result rendering

MovieSearch is a single-page React front-end over the TMDB catalog. It shows a "Trending Movies" strip that comes from
a counter store. It also shows two result lists, "New Movies" and "New TV Shows", for the current search term.
This project models the part of the application that decides what those lists hold:

- `fetchMoviesAndSeries` in `src/App.jsx`. It chooses the two endpoints (browse or search), classifies the two
  responses, tags and combines the results, calls the counter store with the first result, and sets the loading
  flag, the error message and the list.
- `loadTrendingMovies`, which replaces the trending list when the counter store answers.
- The render selection: spinner, then error, then the two filtered lists. It also covers the footer error paragraph
  and the ranked trending strip.
- The per-card derivations of `src/Components/MovieCard.jsx`: title, year, poster URL and rating label.

Modules:

- `Media`: the catalog item and JavaScript truthiness of its optional fields.
- `Decimal`: how an id is written into a link.
- `MovieCard`: the card derivations.
- `Search`: endpoints, responses, the component state as the class `AppState`, the closed form `AfterSearch` of a
  search's effect on that state, and the ordered trace of the setter calls a search makes.
- `View`: what is rendered from a state.

Network responses, exceptions and the counter store's answer are inputs to the model. The counter store itself is
represented only by the log of `updateSearchCount` calls made to it. `encodeURIComponent` is an arbitrary function
parameter `encode`.

Two behaviours of the code are modelled as written, because a reader might expect otherwise:

- The `updateSearchCount` call is awaited inside the `try` block (src/App.jsx:84-86). If it throws, the generic
  error message is shown. The previous list stays in state, hidden behind the error paragraph, and is never
  replaced by the new results.
  `Search.CounterFailureKeepsList`, `Search.CounterAwaitedBeforeList` and `View.CounterFailureHidesList` state this.
- When both requests answer with a non-ok status, only the error message is set (src/App.jsx:64-67). The previous
  list is kept, not cleared. `Search.BothFailedKeepsList` states this.

## Model

| member | source | states |
|---|---|---|
| Search.AppState.constructor | src/App.jsx:24-29 | The initial state: not loading, no error, empty list, empty trending list, no counter calls; it satisfies the invariant. |
| Search.AppState.FetchMoviesAndSeries | src/App.jsx:38-97 | Requests exactly the endpoints chosen for the query. The new state is `AfterSearch` of the old one. The invariant is kept: every listed item is tagged 'movie' or 'tv', and every counter call has a non-empty query. |
| Search.AppState.LoadTrendingMovies | src/App.jsx:99-106 | The trending list is replaced by the loaded records, or left alone when loading throws. Nothing else changes, and the invariant is kept. |
| Search.Text | src/App.jsx:40 | Only the cleared message is the empty string, so every set message is truthy and shows. |
| Search.TextInjective | src/App.jsx:65 | The three messages are distinct: a shown text identifies which outcome produced it. |
| Search.EndpointsCarryQuery | src/App.jsx:42-52 | Both URLs start with the API base. The browse endpoints are chosen iff the query is empty. Otherwise each search URL carries exactly `encode(query)` after its own search path. |
| Search.ChooseEndpoints | src/App.jsx:42-52 | The two request URLs; EndpointsCarryQuery states its contract: browse endpoints iff the query is empty, otherwise the encoded query after each search path. |
| Search.ResultsOf | src/App.jsx:69-70 | A missing `results` field counts as the empty list; a present one is used as is. |
| Search.Tag | src/App.jsx:80-81 | Same length; each item equals its input with only `media_type` set to the given kind. |
| Search.Combine | src/App.jsx:79-82 | The combined length is the sum of the two lengths, and every item is tagged 'movie' or 'tv'. |
| Search.CombineLayout | src/App.jsx:79-82 | Position i holds movie i tagged 'movie'. Position (number of movies + j) holds series j tagged 'tv'. No other field changes. |
| Search.CombineExample | src/App.jsx:79-82 | Movies [A, B] and series [X, Y] combine to [A(movie), B(movie), X(tv), Y(tv)]. |
| Search.Classify | src/App.jsx:64-95 | The FetchFailure outcome holds iff both requests were non-ok. EmptyResult holds iff neither result list has items. The error outcome holds iff fetch/parse threw, or the awaited counter call threw. Success carries the non-empty combined list. |
| Search.MessageOf | src/App.jsx:65-92 | The message an outcome sets; only a success leaves the error cleared. |
| Search.AfterSearch | src/App.jsx:38-97 | The settled state of a search. Its partners are the per-outcome lemmas below, NoErrorIffShown, CounterCalledOnce, SearchKeepsInvariant and EffectsReachAfterSearch, which ties it to the source-ordered call trace. |
| Search.AfterTrendingLoad | src/App.jsx:99-106 | The state after a trending load; TrendingLoadKeepsInvariant states that it replaces the trending list exactly on success and keeps the invariant. |
| Search.BothFailedKeepsList | src/App.jsx:64-67 | When both responses are non-ok, only the spinner and the error ("Failed to fetch movies and series") change; the previous list stays in state. |
| Search.OneFailureContinues | src/App.jsx:64-70 | Unless both requests fail, a non-ok response is treated exactly like an ok one, with its `results` or `[]`. |
| Search.EmptyResultsClearList | src/App.jsx:72-76 | When no results come from either catalog, the list is cleared and "No movies or series found!" is shown; nothing else changes. |
| Search.SuccessShowsCombined | src/App.jsx:79-88 | A successful search shows the combined list with no error. It records one counter call with the query and the first item iff the query is non-empty. |
| Search.NoErrorIffShown | src/App.jsx:64-95 | The error is cleared after a search iff the search succeeded. In that case the list is the non-empty combined list. |
| Search.CounterCalledOnce | src/App.jsx:84-86 | The counter log only grows, by at most one call. It grows iff the query is non-empty, not both requests failed, and the combined list is non-empty. The new call is (query, first combined item). |
| Search.EmptyQueryNoCounter | src/App.jsx:84 | A browse (empty query) never calls the counter store. |
| Search.FetchExceptionKeepsList | src/App.jsx:89-93 | An exception from the requests or their parsing shows the generic error and keeps the previous list in state. |
| Search.CounterFailureKeepsList | src/App.jsx:84-93 | When the awaited counter call throws, the call is on record, the generic error shows and the previous list stays in state. |
| Search.LoadingEndsFalse | src/App.jsx:94-96 | Every search ends with the spinner off, whatever happened, and leaves the trending list untouched. |
| Search.SearchKeepsInvariant | src/App.jsx:38-97 | A search preserves "every item tagged" and "every counter call has a non-empty query". |
| Search.TrendingLoadKeepsInvariant | src/App.jsx:99-106 | Loading trending records preserves the invariant and sets the trending list exactly when the load succeeds. |
| Search.TryEffects | src/App.jsx:41-93 | The calls the `try` block and its `catch` make; TryEffectsShape states their number and order. |
| Search.SearchEffects | src/App.jsx:39-96 | Every call a search makes, in order; LoadingBracketsSearch, CounterAwaitedBeforeList and EffectsReachAfterSearch state its order and effect. |
| Search.EffectsReachAfterSearch | src/App.jsx:38-97 | Performing the setter and counter calls one by one, in source order, ends in the state `AfterSearch` describes. |
| Search.TryEffectsShape | src/App.jsx:41-93 | The `try`/`catch` part makes one or two calls, none of them to `setIsLoading`. When the search counts, it calls the counter first, then either sets the list or (if the counter threw) the error. Otherwise it never calls the counter. |
| Search.LoadingBracketsSearch | src/App.jsx:39-40 | `setIsLoading(true)` and then clearing the error come first. `setIsLoading(false)` comes last. No other call touches the loading flag. |
| Search.CounterAwaitedBeforeList | src/App.jsx:84-88 | Any counter update precedes every `setMovieList`. When the counter throws, `setMovieList` is never called. |
| View.LinkInjective | src/App.jsx:163 | Two links of the same kind are equal only for equal ids. |
| View.MovieAndTvLinksDiffer | src/App.jsx:163-184 | A movie link never equals a TV link. |
| View.Link | src/App.jsx:161-184 | The detail link `https://www.themoviedb.org/<kind>/<id>`; LinkInjective and MovieAndTvLinksDiffer state that it separates ids and kinds. |
| View.Shown | src/App.jsx:158-179 | The list filter `media_type === kind && poster_path`; Visible, VisibleCount and VisibleOfTagged state what passes it. |
| View.Visible | src/App.jsx:156-159 | Every kept item has the requested `media_type` and a truthy poster path; the result is no longer than the input. |
| View.VisibleCount | src/App.jsx:156-159 | Each item occurs in the filtered list as often as in the input if it qualifies, otherwise not at all. |
| View.VisibleAppend | src/App.jsx:156-180 | Filtering the concatenation is the concatenation of the filtered parts, so the filter keeps order. |
| View.WithPoster | src/App.jsx:157-159 | Every kept item has a truthy poster path; the result is no longer than the input. |
| View.WithPosterCount | src/App.jsx:157-159 | Each item occurs in the result as often as in the input if it has a poster, otherwise not at all. |
| View.WithPosterAppend | src/App.jsx:157-159 | The poster filter of a concatenation is the concatenation of the filtered parts, so it keeps the original order. |
| View.VisibleOfTagged | src/App.jsx:156-180 | Items tagged with one kind, filtered on that kind, are exactly the tagged items that have a poster. Filtered on the other kind, none remain. |
| View.PostersSplitByKind | src/App.jsx:156-180 | When every item is tagged 'movie' or 'tv', the two filtered lists together hold, as a multiset, exactly the items with a poster: each such item passes exactly one filter. Their lengths add up accordingly. |
| View.EveryPosterListedOnce | src/App.jsx:149-194 | In a state satisfying the invariant that shows the lists, the two lists hold one entry per item with a poster, in total. |
| View.CounterFailureHidesList | src/App.jsx:84-152 | When the awaited counter call throws, the result section is the generic error paragraph, not the lists. |
| View.Entries | src/App.jsx:160-169 | One entry per item, in order: the link for its kind and id, and the card derived from it. |
| View.RenderResults | src/App.jsx:149-194 | Spinner iff loading. Otherwise the error paragraph iff a message is set, showing that message's non-empty text. Otherwise the two lists: the entries (link and card) of the movie-filtered items and of the TV-filtered items, in order. |
| View.SearchResultFilters | src/App.jsx:79-180 | After a successful search, the movie filter yields exactly the movie results that have a poster, tagged 'movie', in catalog order; the TV filter likewise yields the series results. |
| View.SuccessfulSearchShows | src/App.jsx:79-194 | After a successful search, the movie list shows the movie results that have a poster and the TV list shows the series results that have one, each in catalog order. |
| View.WhileLoading | src/App.jsx:39-40 | The state at the start of a search shows the spinner and no footer error. |
| View.Footer | src/App.jsx:196 | The footer paragraph is present iff a message is set, and shows its text. |
| View.RankFrom | src/App.jsx:135-140 | One row per trending record, in order, keyed by its id, with its poster and title, ranked consecutively. |
| View.Trending | src/App.jsx:130-143 | The trending section is absent iff the list is empty; row i has rank i + 1. |
| View.RenderPage | src/App.jsx:130-196 | The page is the trending strip for the trending records (absent iff there are none), the result section RenderResults selects, and the footer Footer selects. An error shown in the result section is also shown in the footer. |
| MovieCard.DisplayTitle | src/Components/MovieCard.jsx:14 | `title` when truthy, otherwise `name`. The heading is truthy iff either field is. |
| MovieCard.BeforeDash | src/Components/MovieCard.jsx:16 | The result is a prefix of the input with no '-', ending at the input's end or at its first '-'. |
| MovieCard.BeforeDashUnique | src/Components/MovieCard.jsx:16 | Those three properties determine the result: any string meeting them is `split('-')[0]`. |
| MovieCard.Year | src/Components/MovieCard.jsx:15-19 | The component of `release_date` before the first '-' when that date is truthy. Otherwise that of `first_air_date` when it is truthy. Otherwise 'N/A'. Never holds a '-'. |
| MovieCard.PosterSrc | src/Components/MovieCard.jsx:24-28 | The placeholder iff `poster_path` is falsy. Otherwise the w500 base followed by exactly the poster path. |
| MovieCard.RatingOf | src/Components/MovieCard.jsx:37 | 'N/A' iff `vote_average` is falsy (absent or 0). Otherwise the score is the vote average, which is non-zero. |
| MovieCard.DeriveCard | src/Components/MovieCard.jsx:14-42 | The heading and alt text are `title`, or `name` when the title is falsy (DisplayTitle). The image is the poster URL or placeholder (PosterSrc). The rating is the score or 'N/A' (RatingOf). The year is as in Year. The language paragraph is `original_language` unchanged. Consequences: the heading is truthy iff `title` or `name` is; the placeholder shows iff `poster_path` is falsy; the year holds no '-'. |
| Decimal.NatToString | src/App.jsx:161-163 | A non-empty string of decimal digits with no leading zero. |
| Decimal.ParseNatToString | src/App.jsx:161-163 | Reading the rendered digits back gives the id again. |
| Decimal.NatToStringInjective | src/App.jsx:161-163 | Distinct ids render as distinct strings, so links and keys separate items. |

## Left out

- Network I/O (`fetch`, the two `Promise.all`s, `.json()`): the two results are inputs. A parse failure of either
  body is one more way to reach the `catch` block, so it is folded into the thrown-exception input together with a
  rejected `fetch`.
- `encodeURIComponent` is a total function parameter; its percent-encoding is not modelled. Nor is its URIError on
  a lone surrogate, which would reach the `catch` block before any request is made (src/App.jsx:46-51); Dafny strings
  hold only Unicode scalar values, so such a query cannot be written.
- The counter store (`getTrendingMovies`, `updateSearchCount`, src/appwrite.js): src/appwrite.js is not part of this
  model. Its answers (the trending records, whether the update throws) are inputs, and its effect is a call log.
- `useDebounce` and its 800 ms delay, the two `useEffect` hooks and React's scheduling. The model treats one search
  as settling before the next starts, so the race between overlapping searches is not modelled.
- MovieCard.RatingOf: the number is kept as a real; the `toFixed(1)` rounding to one decimal is not modelled.
  A NaN `vote_average`, which is falsy in JavaScript, has no counterpart.
- Search.AppState.FetchMoviesAndSeries: does not expose the intermediate states (the spinner on, the error cleared).
  `View.WhileLoading` states what they render, and `Search.EffectsReachAfterSearch` orders all the calls.
- `errorMessage` holds one of four values (cleared or one of three messages), modelled as an enumeration with its
  exact text given by `Search.Text`. This is all the source ever assigns to it.
- Ids are natural numbers written in plain decimal digits. That matches `${id}` only below 10^21, where JavaScript
  switches to exponent notation; larger ids, negative or fractional ids, and the React `key` strings are not modelled.
- `console.error` logging, the API key and request headers, the static markup, images and styling, and the
  `Search` and `Spinner` components.
