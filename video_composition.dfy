/**
 * `createVideoComposition`: one instruction per video track, each placing
 * the track's clip in its frame with a scale-and-translate transform, and
 * the layer tree the overlays are drawn in.
 */
module VideoCompositing {
  import opened Common
  import opened Tracks
  import opened Project
  import opened RenderTree
  import opened Composing

  /**
   * `CGAffineTransform`: the point (x, y) is sent to
   * (a·x + c·y + tx, b·x + d·y + ty).
   */
  datatype Affine = Affine(a: real, b: real, c: real, d: real, tx: real, ty: real)

  function Apply(t: Affine, p: Point): Point
  {
    Point(t.a * p.x + t.c * p.y + t.tx, t.b * p.x + t.d * p.y + t.ty)
  }

  const Identity: Affine := Affine(1.0, 0.0, 0.0, 1.0, 0.0, 0.0)

  /** `CGAffineTransform(scaleX:y:)` */
  function Scale(sx: real, sy: real): Affine
  {
    Affine(sx, 0.0, 0.0, sy, 0.0, 0.0)
  }

  /** `CGAffineTransform(translationX:y:)` */
  function Translation(tx: real, ty: real): Affine
  {
    Affine(1.0, 0.0, 0.0, 1.0, tx, ty)
  }

  /** `t.concatenating(u)`: the matrix product t·u, which applies t first. */
  function Concatenating(t: Affine, u: Affine): Affine
  {
    Affine(t.a * u.a + t.b * u.c, t.a * u.b + t.b * u.d,
           t.c * u.a + t.d * u.c, t.c * u.b + t.d * u.d,
           t.tx * u.a + t.ty * u.c + u.tx, t.tx * u.b + t.ty * u.d + u.ty)
  }

  /** A scale concatenated with a translation scales first, then moves. */
  lemma ScaleThenTranslate(sx: real, sy: real, tx: real, ty: real, p: Point)
    ensures Apply(Concatenating(Scale(sx, sy), Translation(tx, ty)), p) == Point(sx * p.x + tx, sy * p.y + ty)
  {
  }

  /** The transform of one video track, built as the source builds it. */
  function VideoTransform(natural: Size, frame: Rect): Affine
    requires natural.height != 0.0
  {
    var scaleY := frame.Height() / natural.height;
    var scaleTransform := Scale(scaleY, scaleY);
    var videoScaledWidth := natural.width * scaleY;
    var translationX := (frame.Width() - videoScaledWidth) / 2.0;
    var translationTransform := Translation(translationX, frame.origin.y);
    Concatenating(scaleTransform, translationTransform)
  }

  /**
   * What the transform does: it scales uniformly, with no rotation or
   * shear, so that the clip's height fills the frame's height; it centres
   * the clip horizontally within the frame's width; and it moves it down by
   * the frame's `origin.y`.
   */
  lemma VideoTransformPlacement(natural: Size, frame: Rect)
    requires natural.height != 0.0
    ensures var t := VideoTransform(natural, frame);
      && t.b == 0.0 && t.c == 0.0 && t.a == t.d
      && t.d * natural.height == frame.Height()
      && Apply(t, Point(natural.width / 2.0, 0.0)).x == frame.Width() / 2.0
      && t.ty == frame.origin.y
  {
  }

  /**
   * Where the clip's corners land: its top-left corner at
   * (tx, frame.origin.y) and its bottom-left corner a frame's height lower.
   */
  lemma ClipFillsFrameHeight(natural: Size, frame: Rect)
    requires natural.height != 0.0
    ensures var t := VideoTransform(natural, frame);
      && Apply(t, Point(0.0, 0.0)) == Point(t.tx, frame.origin.y)
      && Apply(t, Point(0.0, natural.height)) == Point(t.tx, frame.origin.y + frame.Height())
  {
    VideoTransformPlacement(natural, frame);
  }

  /**
   * The frame's `origin.x` plays no part: two frames that differ only there
   * give the same transform, so every clip is centred on the canvas's
   * left part of width `frame.width`.
   */
  lemma OriginXIgnored(natural: Size, frame: Rect, x: real)
    requires natural.height != 0.0
    ensures VideoTransform(natural, frame) == VideoTransform(natural, Rect(Point(x, frame.origin.y), frame.size))
  {
  }

  /** A clip already of its frame's size, in a frame at the origin, is not moved. */
  lemma SameSizeIsIdentity(natural: Size, frame: Rect)
    requires natural.height > 0.0 && natural.width >= 0.0
    requires frame.size == natural && frame.origin == Point(0.0, 0.0)
    ensures VideoTransform(natural, frame) == Identity
  {
    var t := VideoTransform(natural, frame);
    VideoTransformPlacement(natural, frame);
    assert frame.Height() == natural.height && frame.Width() == natural.width;
    assert t.d * natural.height == natural.height;
    assert t.d == 1.0;
  }

  // ---------------------------------------------------------------------
  // The video composition
  // ---------------------------------------------------------------------

  /** `AVMutableVideoCompositionLayerInstruction`: a track and the transform it gets from time `at`. */
  datatype LayerInstruction = LayerInstruction(trackID: nat, transform: Affine, at: real)

  /** `AVMutableVideoCompositionInstruction` */
  datatype Instruction = Instruction(timeRange: TimeRange, layerInstructions: seq<LayerInstruction>)

  /**
   * `AVVideoComposition`: render size, frame duration, instructions, and the
   * Core Animation tool that draws `parentLayer` with the video in `videoLayer`.
   */
  datatype VideoComposition = VideoComposition(
    renderSize: Size,
    frameDuration: real,
    instructions: seq<Instruction>,
    videoLayer: RenderLayer,
    parentLayer: RenderLayer)

  /** `CMTime(value: 1, timescale: 30)`: thirty frames a second. */
  const FrameDuration: real := 1.0 / 30.0

  /**
   * The instruction for a video track, given the ID of its composition
   * track: it covers the track's time on the output timeline and places
   * the clip with its transform from time zero.
   */
  function InstructionFor(startTime: real, duration: real, frame: Rect, natural: Size, id: nat): Instruction
    requires natural.height != 0.0
  {
    Instruction(TimeRange(startTime, duration), [LayerInstruction(id, VideoTransform(natural, frame), 0.0)])
  }

  /**
   * `createVideoComposition`: the i-th video track gets the i-th
   * instruction, built on the i-th video track of the composition. The
   * source indexes the composition's video tracks, so there must be enough
   * of them; it force-unwraps each natural size, so it traps, here
   * `Failure(i)`, at the first video track `i` whose natural size is unknown.
   */
  method CreateVideoComposition(data: VideoData, composition: Composition, videoLayer: RenderLayer, parentLayer: RenderLayer)
    returns (r: Result<VideoComposition, nat>)
    requires forall i :: 0 <= i < |data.videoTracks| && data.videoTracks[i].naturalSize.Some? ==>
      data.videoTracks[i].naturalSize.value.height != 0.0
    requires |ChannelIDs(composition.tracks, VideoMedia)| >= |data.videoTracks|
    ensures r.Failure? ==>
      && r.error < |data.videoTracks| && data.videoTracks[r.error].naturalSize.None?
      && forall i :: 0 <= i < r.error ==> data.videoTracks[i].naturalSize.Some?
    ensures r.Success? ==>
      && r.value.renderSize == data.size && r.value.frameDuration == FrameDuration
      && r.value.videoLayer == videoLayer && r.value.parentLayer == parentLayer
      && |r.value.instructions| == |data.videoTracks|
    ensures r.Success? ==> forall i :: 0 <= i < |data.videoTracks| ==>
      var v := data.videoTracks[i];
      && v.naturalSize.Some?
      && r.value.instructions[i] ==
           InstructionFor(v.startTime, v.duration, v.frame, v.naturalSize.value, ChannelIDs(composition.tracks, VideoMedia)[i])
  {
    var videoTracks := ChannelIDs(composition.tracks, VideoMedia);
    var instructions: seq<Instruction> := [];
    var index := 0;
    while index < |data.videoTracks|
      invariant 0 <= index <= |data.videoTracks|
      invariant |instructions| == index
      invariant forall i :: 0 <= i < index ==>
        var v := data.videoTracks[i];
        && v.naturalSize.Some?
        && instructions[i] == InstructionFor(v.startTime, v.duration, v.frame, v.naturalSize.value, videoTracks[i])
    {
      var videoTrack := data.videoTracks[index];
      if videoTrack.naturalSize.None? {
        return Failure(index);
      }
      var natural := videoTrack.naturalSize.value;
      var transform := VideoTransform(natural, videoTrack.frame);
      var layerInstruction := LayerInstruction(videoTracks[index], transform, 0.0);
      var instruction := Instruction(TimeRange(videoTrack.startTime, videoTrack.duration), [layerInstruction]);
      instructions := instructions + [instruction];
      index := index + 1;
    }
    r := Success(VideoComposition(data.size, FrameDuration, instructions, videoLayer, parentLayer));
  }
}
