/** Catalog entries as the TMDB API returns them, and JavaScript truthiness of their fields. */
module Media {

  /** A field that an API object may leave out (undefined) or set to null. */
  datatype Option<+T> = None | Some(value: T)

  /** Truthiness of an optional string field: present and not the empty string. */
  predicate Truthy(s: Option<string>) {
    s.Some? && s.value != ""
  }

  /** Truthiness of an optional number field: present and not zero. */
  predicate TruthyNumber(x: Option<real>) {
    x.Some? && x.value != 0.0
  }

  /** The two values of the `media_type` discriminator the front-end writes. */
  const MovieType := "movie"
  const TvType := "tv"

  /**
   * One entry of a `results` array. Movies carry `title` and `release_date`, series carry
   * `name` and `first_air_date`; every field except `id` may be missing. `mediaType` is absent
   * in what the API returns and is set when the results are combined.
   */
  datatype MediaItem = MediaItem(
    id: nat,
    title: Option<string>,
    name: Option<string>,
    posterPath: Option<string>,
    releaseDate: Option<string>,
    firstAirDate: Option<string>,
    voteAverage: Option<real>,
    originalLanguage: Option<string>,
    mediaType: Option<string>)
}
