/** `VideoData`: the decoded project, never changed after decoding. */
module Project {
  import opened Common
  import opened Tracks
  import opened Layers

  datatype VideoData = VideoData(
    audioTracks: seq<AudioTrack>,
    videoTracks: seq<VideoTrack>,
    textLayers: seq<TextLayer>,
    imageLayers: seq<ImageLayer>,
    size: Size,
    duration: real)
  {
    /**
     * `getLayers`: every text layer, in declaration order, then every image
     * layer, in declaration order. Nothing is sorted by `zIndex`.
     */
    function GetLayers(): (r: seq<Overlay>)
      ensures |r| == |textLayers| + |imageLayers|
      ensures forall i :: 0 <= i < |textLayers| ==> r[i] == textLayers[i]
      ensures forall j :: 0 <= j < |imageLayers| ==> r[|textLayers| + j] == imageLayers[j]
      ensures forall i :: 0 <= i < |r| ==> (r[i].Text? <==> i < |textLayers|)
    {
      var texts: seq<Overlay> := textLayers;
      var images: seq<Overlay> := imageLayers;
      texts + images
    }
  }
}
