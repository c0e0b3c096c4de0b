/**
 * `QuickVideoEditorCore`: `createCALayers`, which builds the overlay layer
 * tree, and `createVideo`, which chains the composition, the layers and the
 * video composition up to the point where the result is handed to export.
 */
module Editor {
  import opened Common
  import opened Tracks
  import opened Layers
  import opened Project
  import opened RenderTree
  import opened Fades
  import opened LayerRendering
  import opened Composing
  import opened VideoCompositing

  /** How many overlays, in `getLayers` order, render before the first that cannot. */
  function RenderedCount(overlays: seq<Overlay>, decode: ImageDecoder): nat
  {
    OkPrefix(overlays, (o: Overlay) => Renderable(o, decode))
  }

  /** The layer drawn for an overlay, with its fade ramps registered. */
  function DrawnState(o: Overlay, decode: ImageDecoder): LayerState
    requires Renderable(o, decode)
  {
    RenderedState(o, decode).(animations := Ramps(o.base))
  }

  /**
   * A drawn layer shows, at every time of the video, the opacity of its
   * overlay: the fade lemmas about `OverlayOpacity` hold of the layer.
   */
  lemma DrawnLayerOpacity(l: RenderLayer, o: Overlay, decode: ImageDecoder, t: real)
    requires Renderable(o, decode) && l.State() == DrawnState(o, decode)
    ensures l.OpacityAt(t) == OverlayOpacity(o.base, t)
  {
  }

  /**
   * One turn of the loop in `createCALayers`: the overlay is rendered, the
   * new layer is added on top of the parent's sublayers and given its fades.
   */
  method AddOverlay(parent: RenderLayer, o: Overlay, decode: ImageDecoder) returns (r: Result<RenderLayer, ImageError>)
    modifies parent`sublayers
    ensures r.Success? <==> Renderable(o, decode)
    ensures r.Failure? ==> r.error == decode(o.imageURL).error && parent.sublayers == old(parent.sublayers)
    ensures r.Success? ==>
      && fresh(r.value)
      && parent.sublayers == old(parent.sublayers) + [r.value]
      && r.value.State() == DrawnState(o, decode)
  {
    r := ToRenderLayer(o, decode);
    if r.Success? {
      var caLayer := r.value;
      parent.AddSublayer(caLayer);
      ApplyAnimations(caLayer, o.base);
      RampsRegistered(o.base);
    }
  }

  /**
   * The loop of `createCALayers`: every overlay, in order, is drawn on a new
   * layer added on top of the parent's sublayers. The first image that
   * cannot be decoded ends it with that image's error.
   */
  method AddOverlays(parent: RenderLayer, overlays: seq<Overlay>, decode: ImageDecoder) returns (r: Outcome<ImageError>)
    requires parent.sublayers == []
    modifies parent`sublayers
    ensures r.Fail? <==> RenderedCount(overlays, decode) < |overlays|
    ensures r.Fail? ==> r.error == decode(overlays[RenderedCount(overlays, decode)].imageURL).error
    ensures r.Pass? ==> |parent.sublayers| == |overlays|
    ensures r.Pass? ==> forall i :: 0 <= i < |overlays| ==>
      var l := parent.sublayers[i];
      && Renderable(overlays[i], decode)
      && fresh(l) && l.State() == DrawnState(overlays[i], decode)
    ensures r.Pass? ==> forall i, j :: 0 <= i < j < |parent.sublayers| ==>
      parent.sublayers[i] != parent.sublayers[j]
  {
    var i := 0;
    while i < |overlays|
      invariant 0 <= i <= |overlays|
      invariant |parent.sublayers| == i
      invariant forall j :: 0 <= j < i ==>
        var l := parent.sublayers[j];
        Renderable(overlays[j], decode) && fresh(l) && l.State() == DrawnState(overlays[j], decode)
      invariant forall j, k :: 0 <= j < k < i ==> parent.sublayers[j] != parent.sublayers[k]
    {
      var added := AddOverlay(parent, overlays[i], decode);
      if added.Failure? {
        assert RenderedCount(overlays, decode) == i;
        return Fail(added.error);
      }
      i := i + 1;
    }
    assert RenderedCount(overlays, decode) == |overlays|;
    r := Pass;
  }

  /**
   * The layer tree `createCALayers` builds: a parent and a video layer, both
   * the size of the canvas at the origin and otherwise plain; under the
   * parent, one distinct layer per overlay in `getLayers` order, each drawn
   * from its overlay with its fades, then the video layer on top.
   */
  predicate LayerTree(data: VideoData, decode: ImageDecoder, video: RenderLayer, parent: RenderLayer)
    reads video, parent, set l | l in parent.sublayers
  {
    var overlays := data.GetLayers();
    && video != parent
    && video.State() == LayerState(RectAtZero(data.size), 0.0, 1.0, 0.0, Blank, [], [])
    && parent.frame == RectAtZero(data.size) && parent.zPosition == 0.0 && parent.opacity == 1.0
    && parent.cornerRadius == 0.0 && parent.content == Blank && parent.animations == []
    && |parent.sublayers| == |overlays| + 1
    && parent.sublayers[|overlays|] == video
    && (forall i :: 0 <= i < |overlays| ==>
          Renderable(overlays[i], decode) && parent.sublayers[i].State() == DrawnState(overlays[i], decode))
    && (forall i, j :: 0 <= i < j < |parent.sublayers| ==> parent.sublayers[i] != parent.sublayers[j])
  }

  /**
   * `createCALayers`: a parent layer and a video layer, both the size of the
   * canvas at the origin. Every overlay of `getLayers`, in that order, is
   * rendered, added to the parent and given its fades; the video layer is
   * added last, above all of them. The first image that cannot be decoded
   * ends it with that image's error.
   */
  method CreateCALayers(data: VideoData, decode: ImageDecoder)
    returns (r: Result<(RenderLayer, RenderLayer), ImageError>)
    ensures var overlays := data.GetLayers();
      r.Failure? <==> RenderedCount(overlays, decode) < |overlays|
    ensures var overlays := data.GetLayers();
      r.Failure? ==> r.error == decode(overlays[RenderedCount(overlays, decode)].imageURL).error
    ensures r.Success? ==>
      var (video, parent) := r.value;
      && fresh(video) && fresh(parent) && (forall l | l in parent.sublayers :: fresh(l))
      && LayerTree(data, decode, video, parent)
  {
    var parentLayer := new RenderLayer();
    parentLayer.frame := RectAtZero(data.size);
    var videoLayer := new RenderLayer();
    videoLayer.frame := RectAtZero(data.size);
    var added := AddOverlays(parentLayer, data.GetLayers(), decode);
    if added.Fail? {
      return Failure(added.error);
    }
    parentLayer.AddSublayer(videoLayer);
    assert LayerTree(data, decode, videoLayer, parentLayer);
    r := Success((videoLayer, parentLayer));
  }

  // ---------------------------------------------------------------------
  // createVideo
  // ---------------------------------------------------------------------

  /**
   * How `createVideo` ends: with everything ready for export, with the error
   * of the step that threw, or with a trap on a video track whose file has
   * no video (its natural size is force-unwrapped).
   */
  datatype VideoOutcome =
    | ReadyToExport(composition: Composition, videoComposition: VideoComposition)
    | CompositionFailed(assetError: AssetError)
    | LayersFailed(imageError: ImageError)
    | Trapped

  /** Loading succeeded but the file has no track of the kind. */
  predicate Missing(loaded: Result<Option<AssetTrack>, AssetError>)
  {
    loaded.Success? && loaded.value.None?
  }

  /**
   * The last step of `createVideo` before export, on a composition that
   * holds every track and on layers that were all drawn: the video
   * composition is built, and traps on a video track whose file holds no
   * video.
   */
  method ComposeVideo(data: VideoData, composition: Composition, videoLayer: RenderLayer, parentLayer: RenderLayer,
                      library: MediaLibrary) returns (r: VideoOutcome)
    requires composition.tracks == AudioChannels(data.audioTracks, library) + VideoChannels(data.videoTracks, library)
    requires forall i :: 0 <= i < |data.videoTracks| ==>
      var v := data.videoTracks[i];
      var loaded := VideoLoaded(v, library);
      && loaded.Success?
      && (v.naturalSize.None? <==> loaded.value.None?)
      && (v.naturalSize.Some? ==> v.naturalSize.value == loaded.value.value.naturalSize && v.naturalSize.value.height != 0.0)
    ensures r.Trapped? || r.ReadyToExport?
    ensures r.Trapped? <==> exists i :: 0 <= i < |data.videoTracks| && Missing(VideoLoaded(data.videoTracks[i], library))
    ensures r.ReadyToExport? ==>
      && r.composition == composition
      && r.videoComposition.renderSize == data.size
      && r.videoComposition.frameDuration == FrameDuration
      && |r.videoComposition.instructions| == |data.videoTracks|
      && r.videoComposition.videoLayer == videoLayer
      && r.videoComposition.parentLayer == parentLayer
    ensures r.ReadyToExport? ==> forall i :: 0 <= i < |data.videoTracks| ==>
      && Found(VideoLoaded(data.videoTracks[i], library))
      && data.videoTracks[i].naturalSize == Some(VideoLoaded(data.videoTracks[i], library).value.value.naturalSize)
    ensures r.ReadyToExport? ==>
      var ids := ChannelIDs(composition.tracks, VideoMedia);
      && |ids| == |data.videoTracks|
      && (forall i :: 0 <= i < |ids| ==> ids[i] == |data.audioTracks| + i)
      && forall i :: 0 <= i < |data.videoTracks| ==>
           var v := data.videoTracks[i];
           r.videoComposition.instructions[i] == InstructionFor(v.startTime, v.duration, v.frame, v.naturalSize.value, ids[i])
  {
    var ids := ChannelIDs(composition.tracks, VideoMedia);
    assert |ids| == |data.videoTracks| && forall i :: 0 <= i < |ids| ==> ids[i] == |data.audioTracks| + i by {
      ComposedVideoIDs(data.audioTracks, data.videoTracks, library);
    }
    var videoComposition := CreateVideoComposition(data, composition, videoLayer, parentLayer);
    if videoComposition.Failure? {
      assert Missing(VideoLoaded(data.videoTracks[videoComposition.error], library));
      return Trapped;
    }
    assert forall i :: 0 <= i < |data.videoTracks| ==> !Missing(VideoLoaded(data.videoTracks[i], library));
    r := ReadyToExport(composition, videoComposition.value);
  }

  /**
   * `createVideo` up to export: the composition, then the layers, then the
   * video composition. The first error thrown is the outcome; when all the
   * files load and every image decodes, a video track whose file holds no
   * video traps; otherwise the i-th instruction places the i-th clip, at
   * its natural size, on the composition track after all the audio tracks.
   */
  method CreateVideo(data: VideoData, library: MediaLibrary, decode: ImageDecoder) returns (r: VideoOutcome)
    requires forall i :: 0 <= i < |data.videoTracks| ==> data.videoTracks[i].naturalSize.None?
    requires forall i :: 0 <= i < |data.videoTracks| && Found(VideoLoaded(data.videoTracks[i], library)) ==>
      VideoLoaded(data.videoTracks[i], library).value.value.naturalSize.height != 0.0
    modifies data.videoTracks
    ensures r.CompositionFailed? <==> CompositionError(data, library).Some?
    ensures r.CompositionFailed? ==> r.assetError == CompositionError(data, library).value
    ensures r.LayersFailed? <==>
      CompositionError(data, library).None? && RenderedCount(data.GetLayers(), decode) < |data.GetLayers()|
    ensures r.LayersFailed? ==>
      var overlays := data.GetLayers();
      r.imageError == decode(overlays[RenderedCount(overlays, decode)].imageURL).error
    ensures r.Trapped? <==>
      && CompositionError(data, library).None?
      && RenderedCount(data.GetLayers(), decode) == |data.GetLayers()|
      && exists i :: 0 <= i < |data.videoTracks| && Missing(VideoLoaded(data.videoTracks[i], library))
    ensures r.ReadyToExport? ==>
      && fresh(r.composition)
      && r.composition.tracks == AudioChannels(data.audioTracks, library) + VideoChannels(data.videoTracks, library)
      && r.videoComposition.renderSize == data.size
      && r.videoComposition.frameDuration == FrameDuration
      && |r.videoComposition.instructions| == |data.videoTracks|
    ensures r.ReadyToExport? ==> forall i :: 0 <= i < |data.videoTracks| ==>
      && Found(VideoLoaded(data.videoTracks[i], library))
      && data.videoTracks[i].naturalSize == Some(VideoLoaded(data.videoTracks[i], library).value.value.naturalSize)
    ensures r.ReadyToExport? ==>
      var ids := ChannelIDs(r.composition.tracks, VideoMedia);
      |ids| == |data.videoTracks| && forall i :: 0 <= i < |ids| ==> ids[i] == |data.audioTracks| + i
    ensures r.ReadyToExport? ==>
      var ids := ChannelIDs(r.composition.tracks, VideoMedia);
      forall i :: 0 <= i < |data.videoTracks| ==>
        var v := data.videoTracks[i];
        r.videoComposition.instructions[i] == InstructionFor(v.startTime, v.duration, v.frame, v.naturalSize.value, ids[i])
    ensures r.ReadyToExport? ==>
      var (video, parent) := (r.videoComposition.videoLayer, r.videoComposition.parentLayer);
      && fresh(video) && fresh(parent) && (forall l | l in parent.sublayers :: fresh(l))
      && LayerTree(data, decode, video, parent)
  {
    var composition := CreateComposition(data, library);
    if composition.Failure? {
      return CompositionFailed(composition.error);
    }
    var layers := CreateCALayers(data, decode);
    if layers.Failure? {
      return LayersFailed(layers.error);
    }
    r := ComposeVideo(data, composition.value, layers.value.0, layers.value.1, library);
  }
}
