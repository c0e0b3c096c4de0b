/**
 * The project's media tracks: `AudioTrack`, a plain record, and
 * `VideoTrack`, whose declared fields never change after decoding while its
 * `naturalSize` is filled in once, by the composer.
 */
module Tracks {
  import opened Common

  /** The `duration` an audio track declares to take the whole audio of its file. */
  const WholeFile: real := -1.0

  /** A placed audio file: `startTime` on the output timeline, `duration` or `WholeFile`. */
  datatype AudioTrack = AudioTrack(audioURL: string, startTime: real, duration: real)

  class VideoTrack {
    /** Placement on the output timeline, in seconds. */
    const startTime: real
    /** Visible length on the output timeline, in seconds. */
    const duration: real
    /** Destination rectangle on the canvas. */
    const frame: Rect
    /** Path of the source file. */
    const videoURL: string
    /** Where playback starts inside the source clip, in seconds. */
    const playbackOffset: real
    /** The source's pixel size, known only once the composer has opened the file. */
    var naturalSize: Option<Size>

    /**
     * Decoding: the five declared fields are taken as given and
     * `naturalSize` is left unset (the `filter` key is never read).
     */
    constructor (startTime: real, duration: real, frame: Rect, videoURL: string, playbackOffset: real)
      ensures this.startTime == startTime && this.duration == duration && this.frame == frame
      ensures this.videoURL == videoURL && this.playbackOffset == playbackOffset
      ensures naturalSize == None
    {
      this.startTime := startTime;
      this.duration := duration;
      this.frame := frame;
      this.videoURL := videoURL;
      this.playbackOffset := playbackOffset;
      naturalSize := None;
    }
  }
}
