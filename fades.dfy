/**
 * `applyAnimations(with:)`: the fade-in and fade-out ramps registered on an
 * overlay's rendered layer, and the opacity curve they produce.
 *
 * The fade-in hands a start time of 0 to Core Animation as
 * `AVCoreAnimationBeginTimeAtZero`, the start of the video. The fade-out
 * passes `layerEndTime` as it is, so a layer ending at 0 gets a fade-out
 * that never plays (`FadeOutAtZeroNeverPlays`).
 */
module Fades {
  import opened Common
  import opened Layers
  import opened RenderTree

  const FadeInKey: string := "fadeIn"
  const FadeOutKey: string := "fadeOut"

  /** 0 to 1 over `fadeInDuration` seconds from `startTime`, held afterwards. */
  function FadeIn(b: LayerBase): Animation
  {
    var begin := if b.startTime == 0.0 then AtZero else Seconds(b.startTime);
    Animation("opacity", 0.0, 1.0, begin, b.fadeInDuration, true, false)
  }

  /** 1 to 0 over `fadeOutDuration` seconds from `layerEndTime`, held afterwards. */
  function FadeOut(b: LayerBase): Animation
  {
    Animation("opacity", 1.0, 0.0, Seconds(LayerEndTime(b)), b.fadeOutDuration, true, false)
  }

  /** What `applyAnimations` leaves registered on a layer that had `anims`. */
  function Registered(anims: seq<Keyed>, b: LayerBase): seq<Keyed>
  {
    var withFadeIn := if b.fadeInDuration > 0.0 then Added(anims, FadeInKey, FadeIn(b)) else anims;
    Added(withFadeIn, FadeOutKey, FadeOut(b))
  }

  /**
   * The ramps of an overlay: a fade-in when `fadeInDuration > 0`, then the
   * fade-out.
   */
  function Ramps(b: LayerBase): seq<Keyed>
  {
    if b.fadeInDuration > 0.0 then [Keyed(FadeInKey, FadeIn(b)), Keyed(FadeOutKey, FadeOut(b))]
    else [Keyed(FadeOutKey, FadeOut(b))]
  }

  /** On a layer with no animations, `applyAnimations` registers exactly the ramps. */
  lemma RampsRegistered(b: LayerBase)
    ensures Registered([], b) == Ramps(b)
  {
  }

  /**
   * A fade-in is registered exactly when `fadeInDuration > 0`, before the
   * fade-out; the fade-out is always registered, last, under its own key.
   */
  method ApplyAnimations(layer: RenderLayer, b: LayerBase)
    modifies layer`animations
    ensures layer.animations == Registered(old(layer.animations), b)
  {
    if b.fadeInDuration > 0.0 {
      layer.Add(FadeIn(b), FadeInKey);
    }
    layer.Add(FadeOut(b), FadeOutKey);
  }

  /** The opacity a rendered overlay shows at time `t` of the video. */
  function OverlayOpacity(b: LayerBase, t: real): real
  {
    Presented(InitialOpacity(b), Ramps(b), "opacity", t)
  }

  /**
   * The visible-window curve as the layer's fields describe it, written
   * independently of the animation machinery: no fade-in means opaque, a
   * negative one means invisible, a positive one a linear rise.
   */
  function FadeInCurve(b: LayerBase, t: real): real
  {
    if b.fadeInDuration == 0.0 then 1.0
    else if b.fadeInDuration < 0.0 then 0.0
    else if t < b.startTime then 0.0
    else if t < b.startTime + b.fadeInDuration then (t - b.startTime) / b.fadeInDuration
    else 1.0
  }

  /** Before `layerEndTime` only the fade-in (if any) acts on the opacity. */
  lemma OpacityBeforeEnd(b: LayerBase, t: real)
    requires t < LayerEndTime(b)
    ensures OverlayOpacity(b, t) == FadeInCurve(b, t)
  {
    var ramps := Ramps(b);
    assert !IsActive(FadeOut(b), t);
    if b.fadeInDuration > 0.0 && t >= b.startTime {
      LastRegisteredWins(InitialOpacity(b), ramps, "opacity", t, 0);
    } else {
      NoneDecides(InitialOpacity(b), ramps, "opacity", t);
    }
  }

  /**
   * From `layerEndTime` on the fade-out decides, whatever the fade-in was
   * doing: it starts from 1 and falls linearly to 0. This holds unless
   * `layerEndTime` is 0, where the fade-out never plays.
   */
  lemma OpacityDuringFadeOut(b: LayerBase, t: real)
    requires b.fadeOutDuration > 0.0
    requires LayerEndTime(b) <= t < LayerEndTime(b) + b.fadeOutDuration
    ensures LayerEndTime(b) != 0.0 ==> OverlayOpacity(b, t) == 1.0 - (t - LayerEndTime(b)) / b.fadeOutDuration
  {
    if LayerEndTime(b) != 0.0 {
      var ramps := Ramps(b);
      LastRegisteredWins(InitialOpacity(b), ramps, "opacity", t, |ramps| - 1);
    }
  }

  /**
   * Once the fade-out is over the overlay stays fully transparent, unless
   * `layerEndTime` is 0, where the fade-out never plays.
   */
  lemma OpacityAfterFadeOut(b: LayerBase, t: real)
    requires b.fadeOutDuration >= 0.0
    requires t >= LayerEndTime(b) + b.fadeOutDuration
    ensures LayerEndTime(b) != 0.0 ==> OverlayOpacity(b, t) == 0.0
  {
    if LayerEndTime(b) != 0.0 {
      var ramps := Ramps(b);
      LastRegisteredWins(InitialOpacity(b), ramps, "opacity", t, |ramps| - 1);
    }
  }

  /**
   * A layer that ends at 0 gets its fade-out begin time as a literal 0,
   * which Core Animation moves past the end of the video: at every time
   * only the fade-in acts, so with no fade-in the layer stays opaque.
   */
  lemma FadeOutAtZeroNeverPlays(b: LayerBase, t: real)
    requires LayerEndTime(b) == 0.0
    ensures OverlayOpacity(b, t) == FadeInCurve(b, t)
  {
    var ramps := Ramps(b);
    assert !IsActive(FadeOut(b), t);
    if b.fadeInDuration > 0.0 && t >= b.startTime {
      LastRegisteredWins(InitialOpacity(b), ramps, "opacity", t, 0);
    } else {
      NoneDecides(InitialOpacity(b), ramps, "opacity", t);
    }
  }

  /**
   * With a fade-in no longer than the layer: transparent at `startTime`,
   * linear up to opaque at `startTime + fadeInDuration`, opaque until
   * `layerEndTime`.
   */
  lemma FadeInTiming(b: LayerBase, t: real)
    requires 0.0 < b.fadeInDuration <= b.duration
    ensures t <= b.startTime ==> OverlayOpacity(b, t) == 0.0
    ensures b.startTime <= t <= b.startTime + b.fadeInDuration && t < LayerEndTime(b) ==>
      OverlayOpacity(b, t) == (t - b.startTime) / b.fadeInDuration
    ensures b.startTime + b.fadeInDuration <= t < LayerEndTime(b) ==> OverlayOpacity(b, t) == 1.0
  {
    if t < LayerEndTime(b) {
      OpacityBeforeEnd(b, t);
      if t == b.startTime + b.fadeInDuration {
        assert (t - b.startTime) / b.fadeInDuration == 1.0;
      }
    }
  }

  /** With no fade-in the overlay is opaque until `layerEndTime`. */
  lemma NoFadeInOpaque(b: LayerBase, t: real)
    requires b.fadeInDuration == 0.0 && t < LayerEndTime(b)
    ensures OverlayOpacity(b, t) == 1.0
  {
    OpacityBeforeEnd(b, t);
  }

  /**
   * A negative fade-in registers no ramp yet starts the layer transparent:
   * it stays invisible until the fade-out, which then starts it at 1
   * (unless `layerEndTime` is 0, where the fade-out never plays).
   */
  lemma NegativeFadeInHidden(b: LayerBase, t: real)
    requires b.fadeInDuration < 0.0
    ensures t < LayerEndTime(b) ==> OverlayOpacity(b, t) == 0.0
    ensures b.fadeOutDuration > 0.0 && t == LayerEndTime(b) != 0.0 ==> OverlayOpacity(b, t) == 1.0
  {
    if t < LayerEndTime(b) {
      OpacityBeforeEnd(b, t);
    } else if b.fadeOutDuration > 0.0 && t == LayerEndTime(b) {
      OpacityDuringFadeOut(b, t);
    }
  }
}
