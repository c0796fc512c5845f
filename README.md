# MoviesApp home screen: decision logic

The model covers the logic of the Android Movies App home screen that does not
depend on rendering. The screen shows four catalog lists: popular, now playing,
top rated and upcoming. Popular movies appear in a horizontal carousel of
posters. The focused poster's backdrop is shown full-screen behind the page,
with a crossfade between backdrops. The other three lists appear as grids. A tap
on any movie opens the details screen.

The model has three parts.

- **Crossfade** (`background_image.dfy`) models `BackgroundImage`. The class
  `Crossfade.BackgroundImage` holds the two remembered address cells and the
  opacity animation. Its method `OnImageUrl` is the keyed effect. It is proved
  against the value-level step function `Crossfade.Step`, and the properties of
  the state machine are proved about `Step`. These include idempotence, "last
  trigger wins" and the invariant `Coherent`. Several lemmas are over whole
  runs of updates (`Replay`). The ghost log `opacityWrites` records the order
  of the opacity writes: a snap to 0, then a 1000 ms tween to 1.
- **MovieItemStyle** (`movie_item.dfy`) models `MovieItem`. It is a pure choice
  of rotation, alpha, scale, padding and poster address from how an item's
  index compares with the focused index. The carousel on the home screen calls
  `HomePageMovieItem` (HomePage.kt:99), whose source is not part of this
  model. `MovieItem` is modelled as written. Nothing here claims that the
  carousel uses it.
- **Home** (`home_page.dfy`) models the data derivation in `HomePage`:
  - defaulting each list to empty;
  - the pager's page count;
  - choosing the background through `getOrNull(currentPage)?.backdropPath`;
  - what each carousel page is given;
  - the details route.

  Navigation is a small class, `NavController`, that records the routes it is
  asked to open. `Home.Recompose` models one more behaviour. When the focused
  page has no backdrop, `BackgroundImage` leaves the composition and its
  remembered cells are lost. When a backdrop appears again, the component
  starts afresh, with no crossfade.

`Movies` (`movies.dfy`) holds the shared types: Kotlin's nullable values,
`getOrNull`, string-template rendering of a nullable string, the movie record
and the list response.

Animation targets are modelled as exact `real` values. Times are milliseconds.

## Model

| member | source | states |
|---|---|---|
| `Crossfade.Remembered` | MoviesApp/app/src/main/java/com/larrykapija/moviesapp/ui/screens/home/components/BackgroundImage.kt:26-28 | on first composition both cells hold the given address and opacity is 0 |
| `Crossfade.BackgroundImage.constructor` | MoviesApp/app/src/main/java/com/larrykapija/moviesapp/ui/screens/home/components/BackgroundImage.kt:26-28 | the component starts with `previous == current == imageUrl`, opacity still at 0, no opacity writes, and satisfies the invariant |
| `Crossfade.Step` | MoviesApp/app/src/main/java/com/larrykapija/moviesapp/ui/screens/home/components/BackgroundImage.kt:32-37 | after the effect `current` is the latest address; an equal address changes nothing; a different one moves the old `current` into `previous`, so the two differ, and starts the fade-in |
| `Crossfade.OpacityWrites` | MoviesApp/app/src/main/java/com/larrykapija/moviesapp/ui/screens/home/components/BackgroundImage.kt:33-37 | an unchanged address writes no opacity; a change writes exactly two: first a snap to 0, then a tween from that 0 to 1 over 1000 ms |
| `Crossfade.BackgroundImage.OnImageUrl` | MoviesApp/app/src/main/java/com/larrykapija/moviesapp/ui/screens/home/components/BackgroundImage.kt:32-39 | the in-place update keeps the invariant, leaves the cells and opacity as `Step` gives them, and appends exactly the snap-then-tween writes of `OpacityWrites` to the opacity history |
| `Crossfade.FirstCompositionIsQuiet` | MoviesApp/app/src/main/java/com/larrykapija/moviesapp/ui/screens/home/components/BackgroundImage.kt:26-33 | the effect's first run, with the address of the first composition, changes no cell and does not touch opacity |
| `Crossfade.StepIdempotent` | MoviesApp/app/src/main/java/com/larrykapija/moviesapp/ui/screens/home/components/BackgroundImage.kt:33 | giving the same address twice in a row has the effect of giving it once, and the repeat writes no opacity |
| `Crossfade.StepIgnoresPriorOpacity` | MoviesApp/app/src/main/java/com/larrykapija/moviesapp/ui/screens/home/components/BackgroundImage.kt:36-37 | because of the snap, a change gives the same state whatever the opacity or `previous` was before; only the prior `current` matters, so a fade in flight is replaced, not continued |
| `Crossfade.StepKeepsCoherent` | MoviesApp/app/src/main/java/com/larrykapija/moviesapp/ui/screens/home/components/BackgroundImage.kt:33-37 | one run of the effect keeps the invariant: either nothing has changed yet (cells equal, opacity 0), or the cells differ and the fade-in has been started |
| `Crossfade.ReplayLatestWins` | MoviesApp/app/src/main/java/com/larrykapija/moviesapp/ui/screens/home/components/BackgroundImage.kt:32-35 | after any non-empty run of addresses, `current` is the last one given |
| `Crossfade.ReplayKeepsCoherent` | MoviesApp/app/src/main/java/com/larrykapija/moviesapp/ui/screens/home/components/BackgroundImage.kt:33-37 | the invariant holds after any run of updates, and once `previous` and `current` differ they differ after every later run of the effect |
| `Crossfade.ReplayRepeatIsNoOp` | MoviesApp/app/src/main/java/com/larrykapija/moviesapp/ui/screens/home/components/BackgroundImage.kt:32-35 | after any history, repeating the latest address leaves the state as it was |
| `Crossfade.DirectTransition` | MoviesApp/app/src/main/java/com/larrykapija/moviesapp/ui/screens/home/components/BackgroundImage.kt:32-37 | going from address `a` straight to a different `c` fades directly from `a` to `c` |
| `MovieItemStyle.RotationTarget` | MoviesApp/app/src/main/java/com/larrykapija/moviesapp/ui/screens/home/components/MovieItem.kt:18-22 | the tilt is -10 exactly when the item is left of the focused one, +10 exactly when it is right of it, and 0 exactly when it is the focused one |
| `MovieItemStyle.RotationAntisymmetric` | MoviesApp/app/src/main/java/com/larrykapija/moviesapp/ui/screens/home/components/MovieItem.kt:18-22 | exchanging the index and the focused index negates the tilt |
| `MovieItemStyle.RotationMonotone` | MoviesApp/app/src/main/java/com/larrykapija/moviesapp/ui/screens/home/components/MovieItem.kt:18-22 | with the focus fixed, the tilt never decreases from left to right |
| `MovieItemStyle.AlphaTarget` | MoviesApp/app/src/main/java/com/larrykapija/moviesapp/ui/screens/home/components/MovieItem.kt:25 | the alpha is in (0, 1]; it is 1 exactly when the item is focused, and 0.7 otherwise |
| `MovieItemStyle.ScaleTarget` | MoviesApp/app/src/main/java/com/larrykapija/moviesapp/ui/screens/home/components/MovieItem.kt:26 | the scale is in (0, 1]; it is 1 exactly when the item is focused, and 0.75 otherwise |
| `MovieItemStyle.PaddingFor` | MoviesApp/app/src/main/java/com/larrykapija/moviesapp/ui/screens/home/components/MovieItem.kt:32-34 | a focused poster gets top 0 / bottom 30 dp and any other gets top 30 / bottom 0, so top plus bottom is always 30 dp |
| `MovieItemStyle.PosterUrl` | MoviesApp/app/src/main/java/com/larrykapija/moviesapp/ui/screens/home/components/MovieItem.kt:29 | the poster address starts with `https://image.tmdb.org/t/p/w500`, and what follows is the poster path when there is one, or the text `null` when the path is null |
| `MovieItemStyle.PosterUrlDeterminesPath` | MoviesApp/app/src/main/java/com/larrykapija/moviesapp/ui/screens/home/components/MovieItem.kt:29 | two present poster paths that give the same address are equal, so the path can be read back from the address |
| `MovieItemStyle.MovieItem` | MoviesApp/app/src/main/java/com/larrykapija/moviesapp/ui/screens/home/components/MovieItem.kt:15-39 | the item is focused iff `index == focusedItemIndex`; its tilt, alpha, scale and padding are exactly `RotationTarget`, `AlphaTarget`, `ScaleTarget` and `PaddingFor` of that comparison (so -10/+10/0, 1/0.7, 1/0.75, 0/30 and 30/0); X and Y scale are equal; the image is the movie's poster address |
| `Movies.GetOrNull` | MoviesApp/app/src/main/java/com/larrykapija/moviesapp/ui/screens/home/HomePage.kt:66 | an element is returned exactly for an index inside the list, and it is the element at that index; any other index, negative ones included, gives null and does not fail |
| `Home.ResultsOrEmpty` | MoviesApp/app/src/main/java/com/larrykapija/moviesapp/ui/screens/home/HomePage.kt:46-49 | a list is the response's results, or the empty list while the response is null |
| `Home.LoadCatalog` | MoviesApp/app/src/main/java/com/larrykapija/moviesapp/ui/screens/home/HomePage.kt:46-49 | each of the four lists is the results of its own response, or empty when that response is null |
| `Home.ListsLoadIndependently` | MoviesApp/app/src/main/java/com/larrykapija/moviesapp/ui/screens/home/HomePage.kt:46-49 | for each of the four lists: when any responses arrive or change, a list whose own response is the same stays as it was, so partial data shows as it comes |
| `Home.PageCount` | MoviesApp/app/src/main/java/com/larrykapija/moviesapp/ui/screens/home/HomePage.kt:51-53 | the carousel has exactly one page per popular movie |
| `Home.EmptyPopularList` | MoviesApp/app/src/main/java/com/larrykapija/moviesapp/ui/screens/home/HomePage.kt:51-67 | an empty popular list gives zero pages and no background, whatever the current page |
| `Home.Background` | MoviesApp/app/src/main/java/com/larrykapija/moviesapp/ui/screens/home/HomePage.kt:66-67 | a background exists iff the current page is a valid index into the popular list and that movie has a backdrop; it is `https://image.tmdb.org/t/p/original` followed by the backdrop path |
| `Home.BackgroundIgnoresGrids` | MoviesApp/app/src/main/java/com/larrykapija/moviesapp/ui/screens/home/HomePage.kt:66-68 | the background depends only on the popular list and the current page; the three grid lists never affect it |
| `Home.Recompose` | MoviesApp/app/src/main/java/com/larrykapija/moviesapp/ui/screens/home/HomePage.kt:66-69 | the crossfade state exists exactly while a background exists, and its `current` is that background; a fresh mount is exactly the first-composition state (both cells the address, opacity 0); otherwise the state advances by `Crossfade.Step` |
| `Home.RecomposeKeepsCoherent` | MoviesApp/app/src/main/java/com/larrykapija/moviesapp/ui/screens/home/HomePage.kt:66-69 | across unmounts and remounts of the background, its state stays coherent: cells equal with opacity 0, or cells differing with the fade-in started |
| `Home.PageItem` | MoviesApp/app/src/main/java/com/larrykapija/moviesapp/ui/screens/home/HomePage.kt:97-102 | page `p` renders `popular[p]` with `index = p` and `focusedItemIndex = currentPage` |
| `Home.FocusedPageDrivesBackground` | MoviesApp/app/src/main/java/com/larrykapija/moviesapp/ui/screens/home/HomePage.kt:66-102 | only the page at `currentPage` is given its own index as the focused index, and the background comes from that page's movie |
| `Home.DetailsRoute` | MoviesApp/app/src/main/java/com/larrykapija/moviesapp/ui/screens/home/HomePage.kt:55-59 | the route is the details screen's name, then `/`, then the URL-encoded JSON of the movie |
| `Home.DetailsRouteDeterminesMovie` | MoviesApp/app/src/main/java/com/larrykapija/moviesapp/ui/screens/home/HomePage.kt:55-59 | two movies whose encodings differ get different routes |
| `Home.NavController.Navigate` | MoviesApp/app/src/main/java/com/larrykapija/moviesapp/ui/screens/home/HomePage.kt:58 | navigating appends exactly the given route to the routes opened |
| `Home.NavigateToDetails` | MoviesApp/app/src/main/java/com/larrykapija/moviesapp/ui/screens/home/HomePage.kt:55-59 | opens exactly one route, the details route of the movie |
| `Home.OnCarouselItemClick` | MoviesApp/app/src/main/java/com/larrykapija/moviesapp/ui/screens/home/HomePage.kt:103-107 | a carousel tap builds its route inline, and that route is the one `navigateToDetails` would open for the page's movie |
| `Home.OnGridMovieClick` | MoviesApp/app/src/main/java/com/larrykapija/moviesapp/ui/screens/home/HomePage.kt:117-139 | a tap in any of the three grids opens the details route of the tapped movie, whichever section it is in |

## Left out

- Rendering is not modelled. This covers `AsyncImage` and Coil loading, the blur, the `Canvas` gradients (BackgroundImage.kt:40-87, HomePage.kt:148-171), the poster size and the layout modifiers. It is all drawing done by UI libraries.
- The framework's float animation is not modelled. `Animatable.animateTo` and `animateFloatAsState` interpolate over time. The model keeps only the target values and the order in which the opacity is set: a snap to 0, then a tween to 1 over 1000 ms. The animation's state is what was last set, and nothing marks a tween as finished.
- Kotlin `Float` constants are modelled as exact reals. For example, `0.7f` is the real 0.7, not the nearest 32-bit float.
- Coroutine scheduling is not modelled. This covers how `LaunchedEffect` cancels and relaunches. Each run of the keyed effect is taken to perform its assignments before the next run. A run cancelled before it first executed would skip its update; the model does not capture that.
- Pager gestures are not modelled. `HorizontalPager` and the way it derives `currentPage` belong to the framework, so the current page is an input. No code clamps an out-of-range page. An out-of-range page just gives no background through `getOrNull`, which is what the model states.
- `HomePageMovieItem` and `MoviesGrid` are not part of this model. The model covers only what the pager hands to each page and which movie a grid tap passes on.
- The declaration of `Movie` is not part of this model. The shape of the `Movies.Movie` record is assumed. The screen reads only its two image paths: `poster_path` (MovieItem.kt:29) and `backdropPath` (HomePage.kt:66).
- `Movie.toJson`, `URLEncoder.encode` and `Destinations.DetailsScreen` are not part of this model. They are uninterpreted fields of `Home.Navigation`. No encode/decode round trip is claimed.
- `Movie.poster_path` may or may not be nullable; its declaration is not part of this model. It is modelled as optional. A null path is rendered as Kotlin's string template renders it: the text `null`.
- The view model, the network client and `NavController.navigate` are I/O. The navigation controller is reduced to the list of routes it was asked to open.
