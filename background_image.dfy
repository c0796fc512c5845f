/** The full-screen background: two remembered image addresses (the one being
    faded out, `previous`, and the one being faded in, `current`) and the
    opacity of the `current` layer. Each time the composable is given an
    address that differs from `current`, the cells shift and the opacity snaps
    to 0 and is then animated to 1 over 1000 ms. */
module Crossfade {

  /** Duration of the fade-in, in milliseconds. */
  const FadeMillis: nat := 1000

  /** The opacity animation's state as last set: held still at a value
      (`snapTo`, or never animated), or running a tween between two values.
      Where a running tween has got to is a matter of time, which is not
      modelled. */
  datatype Opacity = Still(value: real) | Tween(from: real, to: real, durationMillis: nat)

  /** The fade started by every change of image: from 0 to 1 over 1000 ms. */
  const FadeIn: Opacity := Tween(0.0, 1.0, FadeMillis)

  /** The remembered state of one background, as a value. */
  datatype Layers = Layers(previous: string, current: string, opacity: Opacity)

  /** What the component remembers on its first composition with `imageUrl`. */
  function Remembered(imageUrl: string): (s: Layers)
    ensures s.previous == s.current == imageUrl
    ensures s.opacity == Still(0.0)
  {
    Layers(imageUrl, imageUrl, Still(0.0))
  }

  /** The two states the component can be in: nothing has changed since it
      was first composed (both cells equal, opacity untouched at 0), or at
      least one change has happened (the cells differ and the last fade-in has
      been started). */
  ghost predicate Coherent(s: Layers)
  {
    || (s.previous == s.current && s.opacity == Still(0.0))
    || (s.previous != s.current && s.opacity == FadeIn)
  }

  /** One run of the keyed effect with the address it was launched for. */
  function Step(s: Layers, imageUrl: string): (r: Layers)
    ensures r.current == imageUrl
    ensures imageUrl == s.current ==> r == s
    ensures imageUrl != s.current ==> r.previous == s.current && r.previous != r.current
    ensures imageUrl != s.current ==> r.opacity == FadeIn
  {
    if imageUrl != s.current then Layers(s.current, imageUrl, FadeIn) else s
  }

  /** The opacity values one run of the effect writes, in order: none when the
      address is unchanged, else a snap to 0 followed by the fade-in. */
  function OpacityWrites(s: Layers, imageUrl: string): (w: seq<Opacity>)
    ensures imageUrl == s.current <==> w == []
    ensures w != [] ==> |w| == 2 && w[0] == Still(0.0) && w[1].Tween?
    ensures w != [] ==> w[1].from == w[0].value && w[1].to == 1.0 && w[1].durationMillis == FadeMillis
  {
    if imageUrl != s.current then [Still(0.0), FadeIn] else []
  }

  /** Successive runs of the effect, one per address in `urls`, in order. */
  function Replay(s: Layers, urls: seq<string>): Layers
    decreases |urls|
  {
    if urls == [] then s else Replay(Step(s, urls[0]), urls[1..])
  }

  /** The first run of the effect, launched right after the first composition
      with the same address, changes nothing. */
  lemma FirstCompositionIsQuiet(imageUrl: string)
    ensures Step(Remembered(imageUrl), imageUrl) == Remembered(imageUrl)
    ensures OpacityWrites(Remembered(imageUrl), imageUrl) == []
  {
  }

  /** Giving the same address twice in a row acts as giving it once. */
  lemma StepIdempotent(s: Layers, imageUrl: string)
    ensures Step(Step(s, imageUrl), imageUrl) == Step(s, imageUrl)
    ensures OpacityWrites(Step(s, imageUrl), imageUrl) == []
  {
  }

  /** A change starts the same fade from 0 whatever the opacity was doing
      before, so a fade still in flight is replaced rather than continued;
      only the prior `current` address matters. */
  lemma StepIgnoresPriorOpacity(s1: Layers, s2: Layers, imageUrl: string)
    requires s1.current == s2.current
    requires imageUrl != s1.current
    ensures Step(s1, imageUrl) == Step(s2, imageUrl)
  {
  }

  lemma StepKeepsCoherent(s: Layers, imageUrl: string)
    requires Coherent(s)
    ensures Coherent(Step(s, imageUrl))
  {
  }

  lemma {:induction false} ReplayAppend(s: Layers, a: seq<string>, b: seq<string>)
    ensures Replay(s, a + b) == Replay(Replay(s, a), b)
    decreases |a|
  {
    if a == [] {
      assert a + b == b;
    } else {
      assert (a + b)[1..] == a[1..] + b;
      ReplayAppend(Step(s, a[0]), a[1..], b);
    }
  }

  /** Last trigger wins: after any non-empty run of addresses the current
      layer shows the latest one. */
  lemma {:induction false} ReplayLatestWins(s: Layers, urls: seq<string>)
    requires urls != []
    ensures Replay(s, urls).current == urls[|urls| - 1]
    decreases |urls|
  {
    if |urls| > 1 {
      ReplayLatestWins(Step(s, urls[0]), urls[1..]);
    }
  }

  /** Every reachable state is coherent: once an address has changed, the two
      layers show different images for good. */
  lemma {:induction false} ReplayKeepsCoherent(s: Layers, urls: seq<string>)
    requires Coherent(s)
    ensures Coherent(Replay(s, urls))
    ensures s.previous != s.current ==> Replay(s, urls).previous != Replay(s, urls).current
    decreases |urls|
  {
    if urls != [] {
      StepKeepsCoherent(s, urls[0]);
      ReplayKeepsCoherent(Step(s, urls[0]), urls[1..]);
    }
  }

  /** Repeating the latest address adds nothing to a run. */
  lemma {:induction false} ReplayRepeatIsNoOp(s: Layers, urls: seq<string>, imageUrl: string)
    ensures Replay(s, urls + [imageUrl, imageUrl]) == Replay(s, urls + [imageUrl])
  {
    assert urls + [imageUrl, imageUrl] == (urls + [imageUrl]) + [imageUrl];
    ReplayAppend(s, urls + [imageUrl], [imageUrl]);
    var t := Replay(s, urls + [imageUrl]);
    ReplayLatestWins(s, urls + [imageUrl]);
    assert t.current == imageUrl;
    assert Replay(t, [imageUrl]) == Step(t, imageUrl);
  }

  /** Paging straight from one image to another fades directly between them,
      with nothing of any page in between. */
  lemma DirectTransition(a: string, c: string)
    requires a != c
    ensures Replay(Remembered(a), [a, c]) == Layers(a, c, FadeIn)
  {
    var r := Remembered(a);
    assert [a, c][1..] == [c];
    assert Replay(r, [a, c]) == Replay(Step(r, a), [c]);
    assert Step(r, a) == r;
    assert Replay(r, [c]) == Replay(Step(r, c), []);
  }

  /** The background component with its remembered cells. `opacityWrites` is
      the history of the values written to the opacity animation. */
  class BackgroundImage {
    var currentImageUrl: string
    var previousImageUrl: string
    var opacity: Opacity
    ghost var opacityWrites: seq<Opacity>

    function State(): Layers
      reads this
    {
      Layers(previousImageUrl, currentImageUrl, opacity)
    }

    ghost predicate Valid()
      reads this
    {
      && Coherent(State())
      && (opacityWrites == [] <==> previousImageUrl == currentImageUrl)
    }

    /** First composition: both cells remember the given address and the
        opacity starts at 0. */
    constructor (imageUrl: string)
      ensures Valid()
      ensures currentImageUrl == imageUrl && previousImageUrl == imageUrl
      ensures opacity == Still(0.0) && opacityWrites == []
      ensures State() == Remembered(imageUrl)
    {
      currentImageUrl := imageUrl;
      previousImageUrl := imageUrl;
      opacity := Still(0.0);
      opacityWrites := [];
    }

    /** The keyed effect, run whenever the composable is given an address. */
    method OnImageUrl(imageUrl: string)
      requires Valid()
      modifies this
      ensures Valid()
      ensures State() == Step(old(State()), imageUrl)
      ensures opacityWrites == old(opacityWrites) + OpacityWrites(old(State()), imageUrl)
    {
      if imageUrl != currentImageUrl {
        previousImageUrl := currentImageUrl;
        currentImageUrl := imageUrl;
        opacity := Still(0.0);
        opacityWrites := opacityWrites + [opacity];
        opacity := Tween(opacity.value, 1.0, FadeMillis);
        opacityWrites := opacityWrites + [opacity];
      }
    }
  }
}
