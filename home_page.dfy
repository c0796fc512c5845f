/** The home screen's data derivation: the four catalog lists, the popular
    carousel's pages, the background chosen from the focused page, and the
    route every tap navigates to. */
module Home {
  import opened Movies
  import Crossfade

  /** Base of every backdrop address (original-size images). */
  const BackdropBase: string := "https://image.tmdb.org/t/p/original"

  /** The four lists the screen shows, each empty until its response arrives. */
  datatype Catalog = Catalog(
    popular: seq<Movie>,
    nowPlaying: seq<Movie>,
    upcoming: seq<Movie>,
    topRated: seq<Movie>)

  /** The three grid sections below the carousel. */
  datatype Section = NowPlaying | TopRated | Upcoming

  /** What one carousel page hands to its item: the movie, the page's own
      index and the page currently focused. */
  datatype PagerItem = PagerItem(movie: Movie, index: int, focusedItemIndex: int)

  /** The collaborators a route is built from, none of which is modelled: the
      details screen's name, the movie's JSON serialisation and the URL-safe
      encoding of a string. */
  datatype Navigation = Navigation(
    detailsScreen: string,
    toJson: Movie -> string,
    urlEncode: string -> string)

  /** A list is the response's results once it has arrived, and empty while
      the response is still null. */
  function ResultsOrEmpty(response: Option<PopularMoviesResponse>): (movies: seq<Movie>)
    ensures response.None? ==> movies == []
    ensures response.Some? ==> movies == response.value.results
  {
    match response
    case Some(r) => r.results
    case None => []
  }

  /** The four lists, each derived from its own response only. */
  function LoadCatalog(
    popular: Option<PopularMoviesResponse>,
    nowPlaying: Option<PopularMoviesResponse>,
    upcoming: Option<PopularMoviesResponse>,
    topRated: Option<PopularMoviesResponse>): (c: Catalog)
    ensures popular.None? ==> c.popular == []
    ensures nowPlaying.None? ==> c.nowPlaying == []
    ensures upcoming.None? ==> c.upcoming == []
    ensures topRated.None? ==> c.topRated == []
    ensures popular.Some? ==> c.popular == popular.value.results
    ensures nowPlaying.Some? ==> c.nowPlaying == nowPlaying.value.results
    ensures upcoming.Some? ==> c.upcoming == upcoming.value.results
    ensures topRated.Some? ==> c.topRated == topRated.value.results
  {
    Catalog(
      ResultsOrEmpty(popular),
      ResultsOrEmpty(nowPlaying),
      ResultsOrEmpty(upcoming),
      ResultsOrEmpty(topRated))
  }

  /** The popular carousel has one page per popular movie. */
  function PageCount(c: Catalog): (n: nat)
    ensures n == |c.popular|
  {
    |c.popular|
  }

  /** The background address for the focused page: present exactly when that
      page exists and its movie has a backdrop. */
  function Background(c: Catalog, currentPage: int): (url: Option<string>)
    ensures url.Some? <==> 0 <= currentPage < |c.popular| && c.popular[currentPage].backdropPath.Some?
    ensures url.Some? ==> url.value == BackdropBase + c.popular[currentPage].backdropPath.value
  {
    match GetOrNull(c.popular, currentPage)
    case None => None
    case Some(movie) =>
      match movie.backdropPath
      case None => None
      case Some(backdropPath) => Some(BackdropBase + backdropPath)
  }

  /** What page `page` of the carousel renders while `currentPage` is focused. */
  function PageItem(c: Catalog, page: int, currentPage: int): (item: PagerItem)
    requires 0 <= page < PageCount(c)
    ensures item.movie == c.popular[page]
    ensures item.index == page && item.focusedItemIndex == currentPage
  {
    PagerItem(c.popular[page], page, currentPage)
  }

  /** The route of the details screen for `movie`. */
  function DetailsRoute(nav: Navigation, movie: Movie): (route: string)
    ensures |route| > |nav.detailsScreen|
    ensures route[..|nav.detailsScreen| + 1] == nav.detailsScreen + "/"
    ensures route[|nav.detailsScreen| + 1..] == nav.urlEncode(nav.toJson(movie))
  {
    nav.detailsScreen + "/" + nav.urlEncode(nav.toJson(movie))
  }

  /** The background's remembered state across recompositions. It exists only
      while a background is shown: when the focused page has no backdrop the
      component leaves the screen and its cells are forgotten, and when one
      appears again it starts afresh. */
  function Recompose(state: Option<Crossfade.Layers>, background: Option<string>): (next: Option<Crossfade.Layers>)
    ensures next.Some? <==> background.Some?
    ensures next.Some? ==> next.value.current == background.value
    ensures next.Some? && state.None? ==> next.value == Crossfade.Remembered(background.value)
    ensures next.Some? && state.Some? ==> next.value == Crossfade.Step(state.value, background.value)
  {
    match background
    case None => None
    case Some(imageUrl) =>
      var remembered := if state.Some? then state.value else Crossfade.Remembered(imageUrl);
      Some(Crossfade.Step(remembered, imageUrl))
  }

  /** The state of the crossfade stays coherent across recompositions,
      whatever the backgrounds the focused pages produce. */
  lemma RecomposeKeepsCoherent(state: Option<Crossfade.Layers>, background: Option<string>)
    requires state.Some? ==> Crossfade.Coherent(state.value)
    ensures Recompose(state, background).Some? ==> Crossfade.Coherent(Recompose(state, background).value)
  {
    if background.Some? && state.Some? {
      Crossfade.StepKeepsCoherent(state.value, background.value);
    }
  }

  /** Each list comes from its own response: whichever responses arrive or
      change, a list whose own response is the same stays as it was. */
  lemma ListsLoadIndependently(
    popular: Option<PopularMoviesResponse>, popular': Option<PopularMoviesResponse>,
    nowPlaying: Option<PopularMoviesResponse>, nowPlaying': Option<PopularMoviesResponse>,
    upcoming: Option<PopularMoviesResponse>, upcoming': Option<PopularMoviesResponse>,
    topRated: Option<PopularMoviesResponse>, topRated': Option<PopularMoviesResponse>)
    ensures popular == popular' ==>
      LoadCatalog(popular', nowPlaying', upcoming', topRated').popular == LoadCatalog(popular, nowPlaying, upcoming, topRated).popular
    ensures nowPlaying == nowPlaying' ==>
      LoadCatalog(popular', nowPlaying', upcoming', topRated').nowPlaying == LoadCatalog(popular, nowPlaying, upcoming, topRated).nowPlaying
    ensures upcoming == upcoming' ==>
      LoadCatalog(popular', nowPlaying', upcoming', topRated').upcoming == LoadCatalog(popular, nowPlaying, upcoming, topRated).upcoming
    ensures topRated == topRated' ==>
      LoadCatalog(popular', nowPlaying', upcoming', topRated').topRated == LoadCatalog(popular, nowPlaying, upcoming, topRated).topRated
  {
  }

  /** An empty popular list gives a carousel without pages and no background,
      whatever page the pager reports, and nothing fails. */
  lemma EmptyPopularList(c: Catalog, currentPage: int)
    requires c.popular == []
    ensures PageCount(c) == 0
    ensures Background(c, currentPage).None?
  {
  }

  /** The grids never influence the background. */
  lemma BackgroundIgnoresGrids(c1: Catalog, c2: Catalog, currentPage: int)
    requires c1.popular == c2.popular
    ensures Background(c1, currentPage) == Background(c2, currentPage)
  {
  }

  /** Of all carousel pages only the one at `currentPage` is handed its own
      index as the focused index, and it is that page's movie whose backdrop
      becomes the background. */
  lemma FocusedPageDrivesBackground(c: Catalog, page: int, currentPage: int)
    requires 0 <= page < PageCount(c)
    ensures PageItem(c, page, currentPage).index == PageItem(c, page, currentPage).focusedItemIndex <==> page == currentPage
    ensures page == currentPage ==>
      Background(c, currentPage) ==
        (match PageItem(c, page, currentPage).movie.backdropPath
         case None => None
         case Some(p) => Some(BackdropBase + p))
  {
  }

  /** Routes tell movies apart whenever the encoding of movies does. */
  lemma {:induction false} DetailsRouteDeterminesMovie(nav: Navigation, m1: Movie, m2: Movie)
    requires nav.urlEncode(nav.toJson(m1)) != nav.urlEncode(nav.toJson(m2))
    ensures DetailsRoute(nav, m1) != DetailsRoute(nav, m2)
  {
    var n := |nav.detailsScreen| + 1;
    assert DetailsRoute(nav, m1)[n..] == nav.urlEncode(nav.toJson(m1));
    assert DetailsRoute(nav, m2)[n..] == nav.urlEncode(nav.toJson(m2));
  }

  /** The app's navigation controller, reduced to the routes it was asked to
      open, oldest first. */
  class NavController {
    var routes: seq<string>

    constructor ()
      ensures routes == []
    {
      routes := [];
    }

    method Navigate(route: string)
      modifies this
      ensures routes == old(routes) + [route]
    {
      routes := routes + [route];
    }
  }

  /** Opens the details screen for `movie`. */
  method NavigateToDetails(navController: NavController, nav: Navigation, movie: Movie)
    modifies navController
    ensures navController.routes == old(navController.routes) + [DetailsRoute(nav, movie)]
  {
    var movieJson := nav.toJson(movie);
    var encodedMovie := nav.urlEncode(movieJson);
    navController.Navigate(nav.detailsScreen + "/" + encodedMovie);
  }

  /** A tap on carousel page `page`: builds its route inline, and the route is
      the one `NavigateToDetails` opens for the page's movie. */
  method OnCarouselItemClick(navController: NavController, nav: Navigation, c: Catalog, page: int)
    requires 0 <= page < PageCount(c)
    modifies navController
    ensures navController.routes == old(navController.routes) + [DetailsRoute(nav, c.popular[page])]
  {
    var movie := c.popular[page];
    var movieJson := nav.toJson(movie);
    var encodedMovie := nav.urlEncode(movieJson);
    navController.Navigate(nav.detailsScreen + "/" + encodedMovie);
  }

  /** A tap on `movie` in any of the three grids opens the same route,
      whichever section it was in. */
  method OnGridMovieClick(navController: NavController, nav: Navigation, section: Section, movie: Movie)
    modifies navController
    ensures navController.routes == old(navController.routes) + [DetailsRoute(nav, movie)]
  {
    match section
    case NowPlaying => NavigateToDetails(navController, nav, movie);
    case TopRated => NavigateToDetails(navController, nav, movie);
    case Upcoming => NavigateToDetails(navController, nav, movie);
  }
}
