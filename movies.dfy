/** The movie records the home screen receives from the view model, and the two
    pieces of Kotlin null handling the screen relies on. */
module Movies {

  /** A Kotlin nullable value: `null`, or a present value. */
  datatype Option<+T> = None | Some(value: T)

  /** A movie as the catalog lists carry it. Only `posterPath` and `backdropPath`
      are read by the home screen; the other fields travel unchanged to the
      details screen. */
  datatype Movie = Movie(
    id: int,
    title: string,
    posterPath: Option<string>,
    backdropPath: Option<string>,
    popularity: real,
    releaseDate: string,
    voteAverage: real,
    voteCount: int)

  /** One page of a catalog list as the remote API returns it. */
  datatype PopularMoviesResponse = PopularMoviesResponse(
    page: int,
    results: seq<Movie>,
    totalPages: int,
    totalResults: int)

  /** Kotlin's `list.getOrNull(i)`: the element at `i`, or null for any `i`
      outside the list, negative ones included; it never fails. */
  function GetOrNull<T>(s: seq<T>, i: int): (r: Option<T>)
    ensures r.Some? <==> 0 <= i < |s|
    ensures r.Some? ==> r.value == s[i]
  {
    if 0 <= i < |s| then Some(s[i]) else None
  }

  /** What a Kotlin string template `"${x}"` inserts for a nullable string:
      the string itself, or the four letters `null`. */
  function Template(x: Option<string>): (r: string)
    ensures x.Some? ==> r == x.value
    ensures x.None? ==> r == "null"
  {
    match x
    case Some(s) => s
    case None => "null"
  }
}
