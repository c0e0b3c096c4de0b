/**
 * The Core Animation layers the engine builds (`CALayer` and its text and
 * image kinds): geometry, opacity, content, sublayers and the animations
 * registered on the layer, plus how registered animations decide the opacity
 * shown at an instant of the video.
 */
module RenderTree {
  import opened Common
  import opened HexColor

  datatype Alignment = Natural | Left | Right | Center | Justified

  /** A decoded image (`CGImage`); its pixels are not modelled. */
  datatype Bitmap = Bitmap(id: nat)

  /** What a layer draws: nothing, a string (`CATextLayer`) or an image. */
  datatype Content =
    | Blank
    | TextContent(str: string, fontSize: real, foreground: Rgba, alignment: Alignment)
    | Picture(image: Bitmap)

  /**
   * An animation's `beginTime` on the video's timeline.
   * `AVCoreAnimationBeginTimeAtZero` is the start of the video. A literal 0
   * is replaced by Core Animation with the host's current time when the
   * animation is added, a moment after the end of the video: such an
   * animation never plays.
   */
  datatype BeginTime = AtZero | Seconds(seconds: real) {
    predicate Scheduled() { AtZero? || seconds != 0.0 }
    function Start(): real { if AtZero? then 0.0 else seconds }
  }

  /**
   * `CABasicAnimation` of one key path from `fromValue` to `toValue`,
   * starting at `beginTime`.
   */
  datatype Animation = Animation(
    keyPath: string,
    fromValue: real,
    toValue: real,
    beginTime: BeginTime,
    duration: real,
    fillsForwards: bool,
    removedOnCompletion: bool)

  /** An animation as registered on a layer, under its key. */
  datatype Keyed = Keyed(key: string, animation: Animation)

  /** The registered animations, less the one under `key`. */
  function WithoutKey(anims: seq<Keyed>, key: string): (r: seq<Keyed>)
    ensures |r| <= |anims|
    ensures forall k :: k in r ==> k in anims && k.key != key
    ensures forall k :: k in anims && k.key != key ==> k in r
  {
    if anims == [] then []
    else
      var rest := WithoutKey(anims[..|anims| - 1], key);
      var last := anims[|anims| - 1];
      assert anims == anims[..|anims| - 1] + [last];
      if last.key == key then rest else rest + [last]
  }

  /**
   * `add(_:forKey:)`: an animation already registered under the key is
   * dropped, and the new one is registered last.
   */
  function Added(anims: seq<Keyed>, key: string, a: Animation): (r: seq<Keyed>)
    ensures |r| > 0 && r[|r| - 1] == Keyed(key, a)
    ensures forall i :: 0 <= i < |r| - 1 ==> r[i] in anims && r[i].key != key
    ensures forall k :: k in anims && k.key != key ==> k in r[..|r| - 1]
  {
    var kept := WithoutKey(anims, key);
    assert (kept + [Keyed(key, a)])[..|kept|] == kept;
    kept + [Keyed(key, a)]
  }

  /** Whether `x` is registered in `anims` before `y`. */
  predicate Precedes(anims: seq<Keyed>, x: Keyed, y: Keyed)
  {
    exists p, q :: 0 <= p < q < |anims| && anims[p] == x && anims[q] == y
  }

  /**
   * `WithoutKey` keeps the registration order: any two animations it keeps
   * appear in `anims` in the same order.
   */
  lemma {:induction false} WithoutKeyKeepsOrder(anims: seq<Keyed>, key: string)
    ensures forall i, j :: 0 <= i < j < |WithoutKey(anims, key)| ==>
      Precedes(anims, WithoutKey(anims, key)[i], WithoutKey(anims, key)[j])
  {
    if anims != [] {
      var front := anims[..|anims| - 1];
      var last := anims[|anims| - 1];
      WithoutKeyKeepsOrder(front, key);
      var rest := WithoutKey(front, key);
      var r := WithoutKey(anims, key);
      assert r == if last.key == key then rest else rest + [last];
      forall i, j | 0 <= i < j < |r|
        ensures Precedes(anims, r[i], r[j])
      {
        if j < |rest| {
          assert r[i] == rest[i] && r[j] == rest[j];
          assert Precedes(front, rest[i], rest[j]);
          var p, q :| 0 <= p < q < |front| && front[p] == rest[i] && front[q] == rest[j];
          assert anims[p] == r[i] && anims[q] == r[j];
        } else {
          assert r[i] == rest[i] && rest[i] in front;
          var p :| 0 <= p < |front| && front[p] == r[i];
          assert anims[p] == r[i] && anims[|anims| - 1] == r[j];
        }
      }
    }
  }

  /**
   * Whether the animation decides its key path at time `t`: never when its
   * begin time is a literal 0; otherwise from its begin time until it
   * completes, and after that only when it fills forwards and is not
   * removed on completion.
   */
  predicate IsActive(a: Animation, t: real)
  {
    var begin := a.beginTime.Start();
    && a.beginTime.Scheduled()
    && begin <= t
    && (t < begin + a.duration || (a.fillsForwards && !a.removedOnCompletion))
  }

  /** The animation's value at `t`: a linear ramp, then its final value. */
  function ValueAt(a: Animation, t: real): real
  {
    var begin := a.beginTime.Start();
    if a.duration <= 0.0 || t >= begin + a.duration then a.toValue
    else a.fromValue + (a.toValue - a.fromValue) * ((t - begin) / a.duration)
  }

  /**
   * The value of `keyPath` shown at time `t`: the value of the last
   * registered animation of that key path that is active at `t`, and the
   * layer's own value when none is.
   */
  function Presented(model: real, anims: seq<Keyed>, keyPath: string, t: real): real
  {
    if anims == [] then model
    else
      var a := anims[|anims| - 1].animation;
      if a.keyPath == keyPath && IsActive(a, t) then ValueAt(a, t)
      else Presented(model, anims[..|anims| - 1], keyPath, t)
  }

  predicate Decides(k: Keyed, keyPath: string, t: real)
  {
    k.animation.keyPath == keyPath && IsActive(k.animation, t)
  }

  /** Wherever several animations of a key path apply, the one registered last wins. */
  lemma {:induction false} LastRegisteredWins(model: real, anims: seq<Keyed>, keyPath: string, t: real, k: nat)
    requires k < |anims| && Decides(anims[k], keyPath, t)
    requires forall j :: k < j < |anims| ==> !Decides(anims[j], keyPath, t)
    ensures Presented(model, anims, keyPath, t) == ValueAt(anims[k].animation, t)
  {
    if k < |anims| - 1 {
      LastRegisteredWins(model, anims[..|anims| - 1], keyPath, t, k);
    }
  }

  /** Where no animation of the key path applies, the layer's own value shows. */
  lemma {:induction false} NoneDecides(model: real, anims: seq<Keyed>, keyPath: string, t: real)
    requires forall j :: 0 <= j < |anims| ==> !Decides(anims[j], keyPath, t)
    ensures Presented(model, anims, keyPath, t) == model
  {
    if anims != [] {
      NoneDecides(model, anims[..|anims| - 1], keyPath, t);
    }
  }

  /** Everything a layer's fields hold, as one value. */
  datatype LayerState = LayerState(
    frame: Rect,
    zPosition: real,
    opacity: real,
    cornerRadius: real,
    content: Content,
    animations: seq<Keyed>,
    sublayers: seq<RenderLayer>)

  class RenderLayer {
    var frame: Rect
    var zPosition: real
    var opacity: real
    var cornerRadius: real
    var content: Content
    var animations: seq<Keyed>
    var sublayers: seq<RenderLayer>

    /** `CALayer()`: an empty, opaque layer at the origin. */
    constructor ()
      ensures frame == RectAtZero(Size(0.0, 0.0)) && zPosition == 0.0 && opacity == 1.0
      ensures cornerRadius == 0.0 && content == Blank && animations == [] && sublayers == []
    {
      frame := RectAtZero(Size(0.0, 0.0));
      zPosition := 0.0;
      opacity := 1.0;
      cornerRadius := 0.0;
      content := Blank;
      animations := [];
      sublayers := [];
    }

    /** `add(_:forKey:)` */
    method Add(a: Animation, key: string)
      modifies this`animations
      ensures animations == Added(old(animations), key, a)
    {
      animations := WithoutKey(animations, key) + [Keyed(key, a)];
    }

    /** `addSublayer`: the new sublayer is drawn above the earlier ones. */
    method AddSublayer(layer: RenderLayer)
      modifies this`sublayers
      ensures sublayers == old(sublayers) + [layer]
    {
      sublayers := sublayers + [layer];
    }

    function State(): LayerState
      reads this
    {
      LayerState(frame, zPosition, opacity, cornerRadius, content, animations, sublayers)
    }

    /** The opacity the layer shows at time `t` of the video. */
    function OpacityAt(t: real): real
      reads this
    {
      Presented(opacity, animations, "opacity", t)
    }
  }
}
