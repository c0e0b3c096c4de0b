/**
 * `createComposition` and the two `insert` operations: an
 * `AVMutableComposition` gets one track per audio track, then one per video
 * track, each holding at most one segment of its source file.
 *
 * Opening a media file and loading its first track of a kind is done by
 * AVFoundation; the model receives it as a `MediaLibrary`, a function from a
 * path and a kind to the track found, to no track, or to the error loading
 * threw.
 */
module Composing {
  import opened Common
  import opened Tracks
  import opened Project

  datatype MediaKind = AudioMedia | VideoMedia

  /** The first track of a kind in a media file: its pixel size and its time range. */
  datatype AssetTrack = AssetTrack(naturalSize: Size, timeRange: TimeRange)

  /** An error `loadTracks(withMediaType:)` threw; its cause is not modelled. */
  datatype AssetError = AssetError(code: int)

  /** `loadTracks(withMediaType:).first` on the file at a path. */
  type MediaLibrary = (string, MediaKind) -> Result<Option<AssetTrack>, AssetError>

  /** Loading the file found a track of the kind. */
  predicate Found(loaded: Result<Option<AssetTrack>, AssetError>)
  {
    loaded.Success? && loaded.value.Some?
  }

  /** `source` of the file at `sourcePath`, inserted at `at` on the output timeline. */
  datatype Segment = Segment(sourcePath: string, source: TimeRange, at: real)

  /** A composition track: its media kind and the segments inserted into it. */
  datatype Channel = Channel(kind: MediaKind, segments: seq<Segment>)

  /** `AVMutableComposition`, as the list of its tracks; a track's ID is its index. */
  class Composition {
    var tracks: seq<Channel>

    constructor ()
      ensures tracks == []
    {
      tracks := [];
    }

    /** `addMutableTrack(withMediaType:preferredTrackID:)`: a new, empty track. */
    method AddMutableTrack(kind: MediaKind) returns (id: nat)
      modifies this
      ensures tracks == old(tracks) + [Channel(kind, [])]
      ensures id == |old(tracks)|
    {
      id := |tracks|;
      tracks := tracks + [Channel(kind, [])];
    }

    /** `insertTimeRange(_:of:at:)` into the track with ID `id`. */
    method InsertTimeRange(id: nat, path: string, range: TimeRange, at: real)
      requires id < |tracks|
      modifies this
      ensures tracks == old(tracks)[id := Channel(old(tracks)[id].kind, old(tracks)[id].segments + [Segment(path, range, at)])]
    {
      tracks := tracks[id := Channel(tracks[id].kind, tracks[id].segments + [Segment(path, range, at)])];
    }
  }

  /** `tracks(withMediaType:)`: the IDs of the tracks of a kind, in the order they were added. */
  function ChannelIDs(cs: seq<Channel>, kind: MediaKind): seq<nat>
  {
    if cs == [] then []
    else
      var rest := ChannelIDs(cs[..|cs| - 1], kind);
      if cs[|cs| - 1].kind == kind then rest + [|cs| - 1] else rest
  }

  /**
   * The IDs `tracks(withMediaType:)` answers are exactly the indices of the
   * channels of that kind, in increasing order.
   */
  lemma {:induction false} ChannelIDsExact(cs: seq<Channel>, kind: MediaKind)
    ensures var ids := ChannelIDs(cs, kind);
      && (forall i :: 0 <= i < |ids| ==> ids[i] < |cs| && cs[ids[i]].kind == kind)
      && (forall j :: 0 <= j < |cs| && cs[j].kind == kind ==> j in ids)
      && (forall i, j :: 0 <= i < j < |ids| ==> ids[i] < ids[j])
  {
    if cs != [] {
      var front := cs[..|cs| - 1];
      ChannelIDsExact(front, kind);
      var rest := ChannelIDs(front, kind);
      var ids := ChannelIDs(cs, kind);
      assert ids == if cs[|cs| - 1].kind == kind then rest + [|cs| - 1] else rest;
      forall j | 0 <= j < |front| && front[j].kind == kind
        ensures j in rest
      {
      }
    }
  }

  // ---------------------------------------------------------------------
  // What each insert leaves behind
  // ---------------------------------------------------------------------

  /**
   * The part of an audio file that is inserted: the asset track's own time
   * range when the duration is the -1 sentinel, otherwise `duration` seconds
   * from the start of the file.
   */
  function AudioRange(a: AudioTrack, t: AssetTrack): (r: TimeRange)
    ensures a.duration == WholeFile ==> r == t.timeRange
    ensures a.duration != WholeFile ==> r.start == 0.0 && r.duration == a.duration
  {
    if a.duration == WholeFile then t.timeRange else TimeRange(0.0, a.duration)
  }

  /**
   * The track `insert(audioTrack:into:)` adds: one segment placed at the
   * track's `startTime` when the file has an audio track, none otherwise.
   */
  function AudioChannel(a: AudioTrack, loaded: Result<Option<AssetTrack>, AssetError>): Channel
  {
    Channel(AudioMedia,
      if Found(loaded) then [Segment(a.audioURL, AudioRange(a, loaded.value.value), a.startTime)] else [])
  }

  /**
   * The track `insert(videoTrack:into:)` adds: `duration` seconds of the
   * clip from `playbackOffset`, placed at `startTime`, when the file has a
   * video track; none otherwise.
   */
  function VideoChannel(v: VideoTrack, loaded: Result<Option<AssetTrack>, AssetError>): Channel
  {
    Channel(VideoMedia,
      if Found(loaded) then [Segment(v.videoURL, TimeRange(v.playbackOffset, v.duration), v.startTime)] else [])
  }

  /** `naturalSize` after an insert: the asset track's size when one was found. */
  function RecordedSize(loaded: Result<Option<AssetTrack>, AssetError>, before: Option<Size>): Option<Size>
  {
    if Found(loaded) then Some(loaded.value.value.naturalSize) else before
  }

  function AudioLoaded(a: AudioTrack, library: MediaLibrary): Result<Option<AssetTrack>, AssetError>
  {
    library(a.audioURL, AudioMedia)
  }

  function VideoLoaded(v: VideoTrack, library: MediaLibrary): Result<Option<AssetTrack>, AssetError>
  {
    library(v.videoURL, VideoMedia)
  }

  /** An insert throws exactly when loading the file's tracks throws. */
  function Thrown(loaded: Result<Option<AssetTrack>, AssetError>): Outcome<AssetError>
  {
    if loaded.Failure? then Fail(loaded.error) else Pass
  }

  /**
   * `insert(audioTrack:into:)`: the composition gains one audio track, even
   * when the file has no audio or cannot be loaded.
   */
  method InsertAudioTrack(a: AudioTrack, composition: Composition, library: MediaLibrary)
    returns (r: Outcome<AssetError>)
    modifies composition
    ensures composition.tracks == old(composition.tracks) + [AudioChannel(a, AudioLoaded(a, library))]
    ensures r == Thrown(AudioLoaded(a, library))
  {
    var id := composition.AddMutableTrack(AudioMedia);
    match library(a.audioURL, AudioMedia)
    case Failure(e) =>
      r := Fail(e);
    case Success(None) =>
      r := Pass;
    case Success(Some(assetTrack)) =>
      var timeRange := TimeRange(0.0, a.duration);
      if a.duration == WholeFile {
        timeRange := assetTrack.timeRange;
      }
      ghost var before := composition.tracks;
      var segment := Segment(a.audioURL, timeRange, a.startTime);
      assert before[id].segments + [segment] == [segment];
      composition.InsertTimeRange(id, a.audioURL, timeRange, a.startTime);
      assert composition.tracks == before[..id] + [Channel(AudioMedia, [segment])];
      r := Pass;
  }

  /**
   * `insert(videoTrack:into:)`: the composition gains one video track, and
   * the video track learns its natural size when the file has video.
   */
  method InsertVideoTrack(v: VideoTrack, composition: Composition, library: MediaLibrary)
    returns (r: Outcome<AssetError>)
    modifies composition, v`naturalSize
    ensures composition.tracks == old(composition.tracks) + [VideoChannel(v, VideoLoaded(v, library))]
    ensures v.naturalSize == RecordedSize(VideoLoaded(v, library), old(v.naturalSize))
    ensures r == Thrown(VideoLoaded(v, library))
  {
    var id := composition.AddMutableTrack(VideoMedia);
    match library(v.videoURL, VideoMedia)
    case Failure(e) =>
      r := Fail(e);
    case Success(None) =>
      r := Pass;
    case Success(Some(assetTrack)) =>
      v.naturalSize := Some(assetTrack.naturalSize);
      ghost var before := composition.tracks;
      var segment := Segment(v.videoURL, TimeRange(v.playbackOffset, v.duration), v.startTime);
      assert before[id].segments + [segment] == [segment];
      composition.InsertTimeRange(id, v.videoURL, TimeRange(v.playbackOffset, v.duration), v.startTime);
      assert composition.tracks == before[..id] + [Channel(VideoMedia, [segment])];
      r := Pass;
  }

  // ---------------------------------------------------------------------
  // createComposition
  // ---------------------------------------------------------------------

  function AudioChannels(audio: seq<AudioTrack>, library: MediaLibrary): (cs: seq<Channel>)
    ensures |cs| == |audio|
    ensures forall i :: 0 <= i < |audio| ==> cs[i] == AudioChannel(audio[i], AudioLoaded(audio[i], library))
  {
    seq(|audio|, i requires 0 <= i < |audio| => AudioChannel(audio[i], AudioLoaded(audio[i], library)))
  }

  function VideoChannels(videos: seq<VideoTrack>, library: MediaLibrary): (cs: seq<Channel>)
    ensures |cs| == |videos|
    ensures forall i :: 0 <= i < |videos| ==> cs[i] == VideoChannel(videos[i], VideoLoaded(videos[i], library))
  {
    seq(|videos|, i requires 0 <= i < |videos| => VideoChannel(videos[i], VideoLoaded(videos[i], library)))
  }

  /** How many audio tracks load, in order, before the first that throws. */
  function AudioOpened(audio: seq<AudioTrack>, library: MediaLibrary): nat
  {
    OkPrefix(audio, (a: AudioTrack) => AudioLoaded(a, library).Success?)
  }

  /** How many video tracks load, in order, before the first that throws. */
  function VideoOpened(videos: seq<VideoTrack>, library: MediaLibrary): nat
  {
    OkPrefix(videos, (v: VideoTrack) => VideoLoaded(v, library).Success?)
  }

  /**
   * The error `createComposition` propagates: that of the first audio track
   * whose file throws, or else that of the first such video track.
   */
  function CompositionError(data: VideoData, library: MediaLibrary): (e: Option<AssetError>)
    ensures e.None? <==>
      (forall i :: 0 <= i < |data.audioTracks| ==> AudioLoaded(data.audioTracks[i], library).Success?)
      && (forall i :: 0 <= i < |data.videoTracks| ==> VideoLoaded(data.videoTracks[i], library).Success?)
  {
    var k := AudioOpened(data.audioTracks, library);
    var m := VideoOpened(data.videoTracks, library);
    if k < |data.audioTracks| then Some(AudioLoaded(data.audioTracks[k], library).error)
    else if m < |data.videoTracks| then Some(VideoLoaded(data.videoTracks[m], library).error)
    else None
  }

  /**
   * The first loop of `createComposition`: the audio tracks are inserted in
   * order until one throws. When none does, each has added its channel.
   */
  method InsertAudioTracks(audio: seq<AudioTrack>, composition: Composition, library: MediaLibrary)
    returns (r: Outcome<AssetError>)
    modifies composition
    ensures r.Fail? <==> AudioOpened(audio, library) < |audio|
    ensures r.Fail? ==> r.error == AudioLoaded(audio[AudioOpened(audio, library)], library).error
    ensures r.Pass? ==> composition.tracks == old(composition.tracks) + AudioChannels(audio, library)
  {
    var i := 0;
    while i < |audio|
      invariant 0 <= i <= |audio|
      invariant composition.tracks == old(composition.tracks) + AudioChannels(audio[..i], library)
      invariant forall j :: 0 <= j < i ==> AudioLoaded(audio[j], library).Success?
    {
      var outcome := InsertAudioTrack(audio[i], composition, library);
      if outcome.Fail? {
        assert AudioOpened(audio, library) == i;
        return outcome;
      }
      assert AudioChannels(audio[..i + 1], library) == AudioChannels(audio[..i], library) + [AudioChannel(audio[i], AudioLoaded(audio[i], library))];
      i := i + 1;
    }
    assert audio[..i] == audio;
    r := Pass;
  }

  /**
   * The second loop of `createComposition`: the video tracks are inserted in
   * order until one throws. The tracks before that one have their natural
   * size recorded; no other video track is touched.
   */
  method InsertVideoTracks(videos: seq<VideoTrack>, composition: Composition, library: MediaLibrary)
    returns (r: Outcome<AssetError>)
    modifies composition, videos
    ensures r.Fail? <==> VideoOpened(videos, library) < |videos|
    ensures r.Fail? ==> r.error == VideoLoaded(videos[VideoOpened(videos, library)], library).error
    ensures r.Pass? ==> composition.tracks == old(composition.tracks) + VideoChannels(videos, library)
    ensures forall v :: v in videos ==>
      v.naturalSize ==
        if v in videos[..VideoOpened(videos, library)]
        then RecordedSize(VideoLoaded(v, library), old(v.naturalSize))
        else old(v.naturalSize)
  {
    var j := 0;
    while j < |videos|
      invariant 0 <= j <= |videos|
      invariant composition.tracks == old(composition.tracks) + VideoChannels(videos[..j], library)
      invariant forall q :: 0 <= q < j ==> VideoLoaded(videos[q], library).Success?
      invariant forall v :: v in videos ==>
        v.naturalSize ==
          if v in videos[..j] then RecordedSize(VideoLoaded(v, library), old(v.naturalSize)) else old(v.naturalSize)
    {
      var v := videos[j];
      var outcome := InsertVideoTrack(v, composition, library);
      if outcome.Fail? {
        assert VideoOpened(videos, library) == j;
        return outcome;
      }
      assert videos[..j + 1] == videos[..j] + [v];
      assert VideoChannels(videos[..j + 1], library) == VideoChannels(videos[..j], library) + [VideoChannel(v, VideoLoaded(v, library))];
      j := j + 1;
    }
    assert videos[..j] == videos;
    r := Pass;
  }

  /**
   * `createComposition`: every audio track, then every video track, is
   * inserted in declaration order; the first insert that throws ends it.
   * On success the composition holds the channels of all the tracks, audio
   * first. Either way, the video tracks processed before the end have their
   * natural size recorded, and no other video track is touched.
   */
  method CreateComposition(data: VideoData, library: MediaLibrary) returns (r: Result<Composition, AssetError>)
    modifies data.videoTracks
    ensures r.Failure? <==> CompositionError(data, library).Some?
    ensures r.Failure? ==> r.error == CompositionError(data, library).value
    ensures r.Success? ==>
      && fresh(r.value)
      && r.value.tracks == AudioChannels(data.audioTracks, library) + VideoChannels(data.videoTracks, library)
    ensures forall v :: v in data.videoTracks ==>
      v.naturalSize ==
        if AudioOpened(data.audioTracks, library) == |data.audioTracks|
           && v in data.videoTracks[..VideoOpened(data.videoTracks, library)]
        then RecordedSize(VideoLoaded(v, library), old(v.naturalSize))
        else old(v.naturalSize)
    ensures r.Success? ==> forall i :: 0 <= i < |data.videoTracks| ==>
      data.videoTracks[i].naturalSize == RecordedSize(VideoLoaded(data.videoTracks[i], library), old(data.videoTracks[i].naturalSize))
  {
    var composition := new Composition();
    var audio := InsertAudioTracks(data.audioTracks, composition, library);
    if audio.Fail? {
      return Failure(audio.error);
    }
    var video := InsertVideoTracks(data.videoTracks, composition, library);
    if video.Fail? {
      return Failure(video.error);
    }
    assert VideoOpened(data.videoTracks, library) == |data.videoTracks|;
    assert data.videoTracks[..|data.videoTracks|] == data.videoTracks;
    r := Success(composition);
  }

  // ---------------------------------------------------------------------
  // Track IDs
  // ---------------------------------------------------------------------

  /** A composition built by `createComposition` lists its video tracks after its audio tracks. */
  lemma {:induction false} VideoIDsFollowAudio(cs: seq<Channel>, n: nat)
    requires n <= |cs|
    requires forall i :: 0 <= i < n ==> cs[i].kind == AudioMedia
    requires forall i :: n <= i < |cs| ==> cs[i].kind == VideoMedia
    ensures ChannelIDs(cs, VideoMedia) == seq(|cs| - n, i => n + i)
  {
    if |cs| == n {
      NoVideoIDs(cs);
    } else {
      VideoIDsFollowAudio(cs[..|cs| - 1], n);
    }
  }

  lemma {:induction false} NoVideoIDs(cs: seq<Channel>)
    requires forall i :: 0 <= i < |cs| ==> cs[i].kind == AudioMedia
    ensures ChannelIDs(cs, VideoMedia) == []
  {
    if cs != [] {
      NoVideoIDs(cs[..|cs| - 1]);
    }
  }

  /**
   * In the composition `createComposition` returns, the i-th video track's
   * ID is the number of audio tracks plus i.
   */
  lemma ComposedVideoIDs(audio: seq<AudioTrack>, videos: seq<VideoTrack>, library: MediaLibrary)
    ensures var cs := AudioChannels(audio, library) + VideoChannels(videos, library);
      var ids := ChannelIDs(cs, VideoMedia);
      |ids| == |videos| && forall i :: 0 <= i < |videos| ==> ids[i] == |audio| + i && cs[ids[i]].kind == VideoMedia
  {
    var cs := AudioChannels(audio, library) + VideoChannels(videos, library);
    VideoIDsFollowAudio(cs, |audio|);
  }

  /**
   * The index `createVideoComposition` uses for the i-th video track finds
   * the composition track inserted for that video track.
   */
  lemma ComposedVideoTrack(audio: seq<AudioTrack>, videos: seq<VideoTrack>, library: MediaLibrary, i: nat)
    requires i < |videos|
    ensures var cs := AudioChannels(audio, library) + VideoChannels(videos, library);
      var ids := ChannelIDs(cs, VideoMedia);
      i < |ids| && ids[i] == |audio| + i && cs[ids[i]] == VideoChannel(videos[i], VideoLoaded(videos[i], library))
  {
    ComposedVideoIDs(audio, videos, library);
    var videoChannels := VideoChannels(videos, library);
    assert (AudioChannels(audio, library) + videoChannels)[|audio| + i] == videoChannels[i];
  }
}
