/** The focus-relative styling of one poster in a row of posters: each style
    value is a target the framework animates towards, chosen by comparing the
    item's index with the focused index. */
module MovieItemStyle {
  import opened Movies

  /** Base of every poster address (500-pixel-wide images). */
  const PosterBase: string := "https://image.tmdb.org/t/p/w500"

  /** How far, in degrees, an unfocused poster is tilted. */
  const Tilt: real := 10.0

  /** The padding an unfocused poster is pushed down by, in dp. */
  const Drop: int := 30

  datatype Padding = Padding(top: int, bottom: int)

  /** Everything the poster's modifiers are given: the animation targets for
      rotation, alpha and scale (one scale for both axes), the padding and the
      image address. */
  datatype ItemStyle = ItemStyle(
    isFocused: bool,
    rotationZ: real,
    alpha: real,
    scaleX: real,
    scaleY: real,
    padding: Padding,
    posterUrl: string)

  /** Items left of the focused one lean one way, items right of it the other,
      and only the focused item stands upright. */
  function RotationTarget(index: int, focusedItemIndex: int): (r: real)
    ensures r == -Tilt <==> index < focusedItemIndex
    ensures r == Tilt <==> index > focusedItemIndex
    ensures r == 0.0 <==> index == focusedItemIndex
  {
    if index < focusedItemIndex then -10.0
    else if index > focusedItemIndex then 10.0
    else 0.0
  }

  /** The focused poster is fully opaque; every other one is dimmed to 0.7. */
  function AlphaTarget(isFocused: bool): (r: real)
    ensures 0.0 < r <= 1.0
    ensures r == 1.0 <==> isFocused
    ensures !isFocused ==> r == 0.7
  {
    if isFocused then 1.0 else 0.7
  }

  /** The focused poster is shown at full size; every other one at 0.75. */
  function ScaleTarget(isFocused: bool): (r: real)
    ensures 0.0 < r <= 1.0
    ensures r == 1.0 <==> isFocused
    ensures !isFocused ==> r == 0.75
  {
    if isFocused then 1.0 else 0.75
  }

  /** The focused poster sits 30 dp higher than the others; the padding moves
      from above to below it, so the item's total height never changes. */
  function PaddingFor(isFocused: bool): (p: Padding)
    ensures p.top + p.bottom == Drop
    ensures 0 <= p.top && 0 <= p.bottom
    ensures p.top == 0 <==> isFocused
    ensures isFocused ==> p == Padding(0, Drop)
    ensures !isFocused ==> p == Padding(Drop, 0)
  {
    if isFocused then Padding(0, 30) else Padding(30, 0)
  }

  /** The poster address: the fixed base followed by whatever the template
      inserts for the movie's poster path. */
  function PosterUrl(movie: Movie): (url: string)
    ensures |url| >= |PosterBase| && url[..|PosterBase|] == PosterBase
    ensures movie.posterPath.Some? ==> url[|PosterBase|..] == movie.posterPath.value
    ensures movie.posterPath.None? ==> url == PosterBase + "null"
  {
    PosterBase + Template(movie.posterPath)
  }

  /** The style of the poster for `movie` shown at `index` while
      `focusedItemIndex` is focused. */
  function MovieItem(movie: Movie, index: int, focusedItemIndex: int): (s: ItemStyle)
    ensures s.isFocused <==> index == focusedItemIndex
    ensures s.isFocused <==> s.rotationZ == 0.0
    ensures s.isFocused <==> s.alpha == 1.0
    ensures s.scaleX == s.scaleY
    ensures s.isFocused <==> s.scaleX == 1.0
    ensures s.padding.top + s.padding.bottom == Drop
    ensures s.posterUrl == PosterUrl(movie)
    ensures s.rotationZ == RotationTarget(index, focusedItemIndex)
    ensures s.alpha == AlphaTarget(s.isFocused) && s.scaleX == ScaleTarget(s.isFocused)
    ensures s.padding == PaddingFor(s.isFocused)
  {
    var isFocused := index == focusedItemIndex;
    var scale := ScaleTarget(isFocused);
    ItemStyle(
      isFocused,
      RotationTarget(index, focusedItemIndex),
      AlphaTarget(isFocused),
      scale,
      scale,
      PaddingFor(isFocused),
      PosterUrl(movie))
  }

  /** Exchanging the item's index with the focused index mirrors the tilt. */
  lemma RotationAntisymmetric(index: int, focusedItemIndex: int)
    ensures RotationTarget(focusedItemIndex, index) == -RotationTarget(index, focusedItemIndex)
  {
  }

  /** Tilt never decreases from left to right along a row with a fixed focus. */
  lemma RotationMonotone(i: int, j: int, focusedItemIndex: int)
    requires i <= j
    ensures RotationTarget(i, focusedItemIndex) <= RotationTarget(j, focusedItemIndex)
  {
  }

  /** The poster path can be read back from the poster address, so two movies
      with present poster paths get the same address only when the paths agree. */
  lemma {:induction false} PosterUrlDeterminesPath(m1: Movie, m2: Movie)
    requires m1.posterPath.Some? && m2.posterPath.Some?
    requires PosterUrl(m1) == PosterUrl(m2)
    ensures m1.posterPath == m2.posterPath
  {
    var u := PosterUrl(m1);
    assert u[|PosterBase|..] == m1.posterPath.value;
    assert u[|PosterBase|..] == m2.posterPath.value;
  }
}
