/** The fields a movie card derives from one catalog entry (src/Components/MovieCard.jsx). */
module MovieCard {
  import opened Media

  const PosterBase := "https://image.tmdb.org/t/p/w500/"
  const NoPoster := "/no-movie.png"
  const NotAvailable := "N/A"

  /** The heading: `title || name`. */
  function DisplayTitle(item: MediaItem): (r: Option<string>)
    ensures Truthy(item.title) ==> r == item.title
    ensures !Truthy(item.title) ==> r == item.name
    ensures Truthy(r) <==> Truthy(item.title) || Truthy(item.name)
  {
    if Truthy(item.title) then item.title else item.name
  }

  /** `s.split('-')[0]`: the longest prefix of s that holds no '-'. */
  function BeforeDash(s: string): (r: string)
    ensures r <= s
    ensures '-' !in r
    ensures r == s || s[|r|] == '-'
  {
    if s == [] || s[0] == '-' then [] else [s[0]] + BeforeDash(s[1..])
  }

  /** The three contract clauses of BeforeDash determine its result. */
  lemma {:induction false} BeforeDashUnique(s: string, p: string)
    requires p <= s && '-' !in p
    requires p == s || s[|p|] == '-'
    ensures p == BeforeDash(s)
  {
    if s != [] && s[0] != '-' {
      assert p != [];
      assert p[0] == s[0];
      assert p[1..] <= s[1..];
      assert p[1..] == s[1..] || s[1..][|p[1..]|] == '-';
      BeforeDashUnique(s[1..], p[1..]);
    }
  }

  /** The year label: taken from `release_date`, else from `first_air_date`, else 'N/A'. */
  function Year(item: MediaItem): (r: string)
    ensures '-' !in r
    ensures Truthy(item.releaseDate) ==>
      var d := item.releaseDate.value; r <= d && (r == d || d[|r|] == '-')
    ensures !Truthy(item.releaseDate) && Truthy(item.firstAirDate) ==>
      var d := item.firstAirDate.value; r <= d && (r == d || d[|r|] == '-')
    ensures !Truthy(item.releaseDate) && !Truthy(item.firstAirDate) ==> r == NotAvailable
  {
    if Truthy(item.releaseDate) then BeforeDash(item.releaseDate.value)
    else if Truthy(item.firstAirDate) then BeforeDash(item.firstAirDate.value)
    else NotAvailable
  }

  /** The poster image: the w500 rendition when `poster_path` is set, else the placeholder. */
  function PosterSrc(posterPath: Option<string>): (r: string)
    ensures r == NoPoster <==> !Truthy(posterPath)
    ensures Truthy(posterPath) ==>
      |r| >= |PosterBase| && r[..|PosterBase|] == PosterBase && r[|PosterBase|..] == posterPath.value
  {
    if Truthy(posterPath) then PosterBase + posterPath.value else NoPoster
  }

  /** What the rating paragraph shows; the number is shown as `toFixed(1)` of `value`. */
  datatype Rating = Unrated | Score(value: real)

  function RatingOf(voteAverage: Option<real>): (r: Rating)
    ensures r.Unrated? <==> !TruthyNumber(voteAverage)
    ensures r.Score? ==> voteAverage == Some(r.value) && r.value != 0.0
  {
    if TruthyNumber(voteAverage) then Score(voteAverage.value) else Unrated
  }

  /** Everything one card shows. */
  datatype Card = Card(
    posterSrc: string,
    alt: Option<string>,
    heading: Option<string>,
    rating: Rating,
    language: Option<string>,
    year: string)

  function DeriveCard(item: MediaItem): (c: Card)
    ensures c.alt == c.heading && (Truthy(c.heading) <==> Truthy(item.title) || Truthy(item.name))
    ensures c.posterSrc == NoPoster <==> !Truthy(item.posterPath)
    ensures c.rating.Unrated? <==> !TruthyNumber(item.voteAverage)
    ensures c.language == item.originalLanguage
    ensures '-' !in c.year
    ensures c.heading == DisplayTitle(item) && c.posterSrc == PosterSrc(item.posterPath)
    ensures c.rating == RatingOf(item.voteAverage) && c.year == Year(item)
  {
    var title := DisplayTitle(item);
    Card(PosterSrc(item.posterPath), title, title, RatingOf(item.voteAverage),
         item.originalLanguage, Year(item))
  }
}
