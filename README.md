# quickvideoeditor composition engine, in Dafny

This project models the composition engine of quickvideoeditor. The engine
sits between a decoded project (`VideoData`) and the AVFoundation export. It:

- builds an `AVMutableComposition` with one track per audio track, then one
  per video track, each holding at most one segment of its source file, and
  records each video track's `naturalSize` as it goes (`createComposition`,
  the two `insert` operations);
- turns every text and image overlay into a Core Animation layer with its
  frame, z-position, initial opacity and content (`toCAVideoLayer`,
  `updateAttributes(for:)`, `toTextColor`, `CGColor.from(hex:)`);
- registers on each overlay layer its fade-in and fade-out ramps
  (`applyAnimations(with:)`);
- stacks the overlays and the video layer under a parent layer
  (`createCALayers`, `getLayers`);
- emits one video-composition instruction per video track, each placing the
  clip with a scale-and-centre transform (`createVideoComposition`);
- chains these steps up to the hand-off to export (`createVideo`).

Times and sizes are real numbers. Colour components are bytes 0..255, as the
program holds them before it divides by 255. Two things are done outside the
engine and come in as parameters:

- Loading a media file's first track of a kind is a `MediaLibrary`. It gives
  the track (its natural size and time range), no track, or the error
  loading threw.
- Decoding an image file is an `ImageDecoder`. It gives the image or an
  `ImageError`.

The modules follow the program:

- `Common`: shared values.
- `HexColor`: `CGColor.from(hex:)`.
- `Tracks`: `AudioTrack`, `VideoTrack`.
- `Layers`: `VideoLayer`, `TextLayer`, `ImageLayer` as one `Overlay` datatype, and `toTextColor`.
- `Project`: `VideoData`.
- `RenderTree`: `CALayer`, its animations, and the opacity they present.
- `Fades`: `applyAnimations`.
- `LayerRendering`: `toCAVideoLayer`, `updateAttributes`.
- `Composing`: `createComposition` and the inserts.
- `VideoCompositing`: `createVideoComposition` and its transform.
- `Editor`: `createCALayers`, `createVideo`.

Objects the program changes in place are classes:

- `VideoTrack`, whose `naturalSize` is written.
- The composition, whose track list grows.
- The render layers, whose attributes, animations and sublayers are set one
  by one.

Some behaviours of the code are easy to miss, and in places its own comments
promise otherwise. The model follows the code:

- An 8-digit colour is read as AARRGGBB: alpha comes from the top byte
  (`Sources/Extensions/CGColor+Extension.swift:33`). `"00FF00FF"` is
  therefore transparent magenta (`HexColor.ArgbRoundTrip`).
- The comment at `Sources/Extensions/CGColor+Extension.swift:14` speaks of
  removing any leading `"#"`, but lines 16-18 remove one only. `"##"` followed
  by five digits keeps a `#`, scans to 0 and gives opaque black
  (`HexColor.HashRemovedOnce`).
- The doc comment of `toTextColor` (`Sources/Models/Layers/TextLayer.swift:43`)
  promises `.clear` when `textColor` is invalid. The code gives `.clear` only
  for a wrong length, measured after trimming and removing one `#`. When
  that normalised string has 6 characters and its first is neither a hex
  digit nor whitespace, as in `"ZZZZZZ"`, it scans to 0 and gives opaque
  black (`Layers.NonHexTextIsOpaqueBlack`); with 8 such characters it gives
  transparent black. A leading space inside is skipped by the scanner, so
  `"# ABCDE"` still reads the digits `ABCDE`.
- The doc comment of the image layer's `toCAVideoLayer`
  (`Sources/Models/Layers/ImageLayer.swift:38`) says the `contents` stay `nil`
  when the image does not load. The code at line 40 throws instead, so no
  layer is made and `createCALayers` ends with that error
  (`LayerRendering.ImageToRenderLayer`, `Editor.CreateCALayers`).
- A media file whose tracks cannot be loaded is not skipped. The error
  propagates and ends `createComposition` (`Composing.CreateComposition`).
  Only a file that loads but holds no track of the kind is skipped silently.
  Its composition track is still created, and for video its `naturalSize`
  stays unset.
- The fade-in replaces a start time of 0 with `AVCoreAnimationBeginTimeAtZero`
  (`Sources/Extensions/CALayer+Extension.swift:24`), but the fade-out passes
  `layerEndTime` unguarded (line 35). Core Animation replaces a literal begin
  time of 0 with the host's current time, so an overlay whose
  `layerEndTime` is 0 never fades out: only its fade-in acts
  (`Fades.FadeOutAtZeroNeverPlays`).
- Such a skipped video track is not harmless. `createVideoComposition`
  force-unwraps every `naturalSize`, so `createVideo` traps
  (`Editor.CreateVideo`, the `Trapped` outcome).

## Model

| member | source | states |
|---|---|---|
| HexColor.TrimStartRemovesLeading | Sources/Extensions/CGColor+Extension.swift:15 | trimming the front removes exactly the leading whitespace and newlines: what remains is a suffix that is empty or starts with a non-space |
| HexColor.TrimEndRemovesTrailing | Sources/Extensions/CGColor+Extension.swift:15 | trimming the back removes exactly the trailing whitespace and newlines: what remains is a prefix that is empty or ends with a non-space |
| HexColor.LeadingHexDigits | Sources/Extensions/CGColor+Extension.swift:27 | the scanner reads the longest run of hex digits at the start: a prefix, all digits, followed by a non-digit or the end |
| HexColor.ScanHex | Sources/Extensions/CGColor+Extension.swift:26-27 | the scanned value is below 16 to the power of the string's length, so 6 or 8 characters fit in 24 or 32 bits |
| HexColor.FromHex | Sources/Extensions/CGColor+Extension.swift:13-37 | `CGColor.from(hex:)` on byte components: normalise, check the length, scan, split into bytes; `FromHexScans` and the round trips state what it answers |
| HexColor.FromHexScans | Sources/Extensions/CGColor+Extension.swift:13-33 | no colour exactly when the normalised string has neither 6 nor 8 characters; otherwise red, green and blue put back together give the scanned value, with alpha above them for 8 characters and 255 for 6 |
| HexColor.Components | Sources/Extensions/CGColor+Extension.swift:30-33 | the byte fields reassemble the value: with alpha, `a·2^24 + r·2^16 + g·2^8 + b == v`; without, alpha is 255 and a 24-bit value reassembles from r, g, b |
| HexColor.Normalise | Sources/Extensions/CGColor+Extension.swift:15-18 | the string the length check and the scanner see: trimmed of whitespace and newlines, upper-cased, and with one leading `#` removed; `NormaliseHashed` and `HashRemovedOnce` state its `#` handling |
| HexColor.NormaliseHashed | Sources/Extensions/CGColor+Extension.swift:15-18 | one leading `#` in front of upper-case text with no surrounding space is removed |
| HexColor.HashRemovedOnce | Sources/Extensions/CGColor+Extension.swift:16-18 | only one `#` is removed: `"##"` plus five upper-case digits keeps a `#`, scans to 0 and gives opaque black |
| HexColor.HashedDigits | Sources/Extensions/CGColor+Extension.swift:21-33 | `#` followed by 6 or 8 upper-case hex digits gives the components of the digits' value |
| HexColor.RgbRoundTrip | Sources/Extensions/CGColor+Extension.swift:13-36 | parsing `"#RRGGBB"` written from three bytes gives back those bytes, fully opaque |
| HexColor.ArgbRoundTrip | Sources/Extensions/CGColor+Extension.swift:30-33 | parsing `"#AARRGGBB"` gives back its four bytes, with alpha taken from the first pair |
| HexColor.NonHexScansToZero | Sources/Extensions/CGColor+Extension.swift:26-27 | when the normalised string (trimmed, upper-cased, one `#` removed) has 6 or 8 characters and its first is neither a hex digit nor whitespace, the result is black: opaque for 6 characters, transparent for 8, never no colour |
| Layers.LayerEndTime | Sources/Models/Layers/VideoLayer.swift:56-58 | the end of the visibility window, `startTime + duration`; the fade-out begins there (`Fades.OpacityDuringFadeOut`) |
| Layers.InitialOpacity | Sources/Models/Layers/VideoLayer.swift:41 | the initial opacity is 1 exactly when there is no fade-in (`fadeInDuration == 0`), and 0 exactly when there is one, negative included |
| Layers.ToTextColor | Sources/Models/Layers/TextLayer.swift:44-46 | the parsed colour, or `.clear` when there is none; the three lemmas below give its cases |
| Layers.WrongLengthIsClear | Sources/Models/Layers/TextLayer.swift:44-46 | a text colour that does not parse (wrong length) falls back to `.clear`, whose alpha is 0 |
| Layers.WrittenColorIsTextColor | Sources/Models/Layers/TextLayer.swift:44-46 | a text colour written as `"#RRGGBB"` is rendered as exactly that colour, opaque |
| Layers.NonHexTextIsOpaqueBlack | Sources/Models/Layers/TextLayer.swift:44-46 | a text colour whose normalised string has 6 characters, the first neither a hex digit nor whitespace, renders opaque black, not `.clear` |
| Project.VideoData.GetLayers | Sources/Models/Composition/VideoData.swift:38-40 | the overlays are all the text layers in declaration order, then all the image layers in declaration order; an overlay is text exactly when it comes from the first part; nothing is sorted by zIndex |
| Tracks.VideoTrack.constructor | Sources/Models/Video/VideoTrack.swift:33-40 | decoding takes the five declared fields as given and leaves `naturalSize` unset |
| RenderTree.Added | Sources/Extensions/CALayer+Extension.swift:28-39 | after `add(_:forKey:)` the new animation is registered last; before it come exactly the animations registered before under a different key, none dropped and none added |
| RenderTree.WithoutKeyKeepsOrder | Sources/Extensions/CALayer+Extension.swift:28-39 | replacing the animation under a key keeps the other animations in the order they were registered |
| RenderTree.Presented | Sources/Extensions/CALayer+Extension.swift:18-40 | the opacity shown at a time is the value of the last registered active animation of that key path, else the layer's own; `LastRegisteredWins` and `NoneDecides` state it |
| RenderTree.LastRegisteredWins | Sources/Extensions/CALayer+Extension.swift:28-39 | where several registered animations of a key path apply, the presented value is that of the one registered last |
| RenderTree.NoneDecides | Sources/Extensions/CALayer+Extension.swift:20-29 | where no registered animation of a key path applies, the layer's own value is presented |
| RenderTree.RenderLayer.constructor | Sources/Core/QuickVideoEditorCore.swift:176 | `CALayer()` is an empty, opaque layer at the origin with no content, animations or sublayers |
| RenderTree.RenderLayer.Add | Sources/Extensions/CALayer+Extension.swift:28 | registering replaces any animation under the same key and puts the new one last; nothing else changes |
| RenderTree.RenderLayer.AddSublayer | Sources/Core/QuickVideoEditorCore.swift:185 | the sublayer is appended above the existing ones; nothing else changes |
| Fades.FadeIn | Sources/Extensions/CALayer+Extension.swift:21-27 | the fade-in: opacity 0 to 1 over `fadeInDuration` from `startTime` (a start time of 0 written as the start of the video), filling forwards and never removed |
| Fades.FadeOut | Sources/Extensions/CALayer+Extension.swift:32-38 | the fade-out: opacity 1 to 0 over `fadeOutDuration` from `layerEndTime` as a literal begin time, filling forwards and never removed |
| Fades.ApplyAnimations | Sources/Extensions/CALayer+Extension.swift:18-40 | the fade-in is registered exactly when `fadeInDuration > 0`, then the fade-out always; only the layer's animations change |
| Fades.RampsRegistered | Sources/Extensions/CALayer+Extension.swift:18-40 | on a fresh layer the registered animations are exactly the ramps: fade-in (if positive) then fade-out |
| Fades.OverlayOpacity | Sources/Extensions/CALayer+Extension.swift:18-40 | the opacity a rendered overlay shows: its initial opacity under its fade ramps; the four `Opacity…` lemmas give its curve |
| Fades.OpacityBeforeEnd | Sources/Extensions/CALayer+Extension.swift:20-35 | before `layerEndTime` the presented opacity is the fade-in curve written independently: opaque with no fade-in, transparent with a negative one, a linear rise with a positive one |
| Fades.OpacityDuringFadeOut | Sources/Extensions/CALayer+Extension.swift:32-39 | when `layerEndTime != 0`, from `layerEndTime` for `fadeOutDuration` seconds the fade-out decides, falling linearly from 1, whatever the fade-in was doing |
| Fades.OpacityAfterFadeOut | Sources/Extensions/CALayer+Extension.swift:33-38 | when `fadeOutDuration >= 0` and `layerEndTime != 0`, from `layerEndTime + fadeOutDuration` on the overlay stays fully transparent |
| Fades.FadeOutAtZeroNeverPlays | Sources/Extensions/CALayer+Extension.swift:24-35 | when `layerEndTime` is 0 the fade-out's begin time is a literal 0 and it never plays: at every time the opacity is the fade-in curve alone |
| Fades.FadeInTiming | Sources/Extensions/CALayer+Extension.swift:21-27 | with `0 < fadeInDuration <= duration`: transparent at `startTime`, linear up to 1 at `startTime + fadeInDuration`, opaque until `layerEndTime` |
| Fades.NoFadeInOpaque | Sources/Extensions/CALayer+Extension.swift:20-29 | with no fade-in the overlay is opaque throughout its visible window |
| Fades.NegativeFadeInHidden | Sources/Models/Layers/VideoLayer.swift:41 | a negative fade-in registers no ramp yet starts the layer at 0: it is invisible until `layerEndTime`; when `fadeOutDuration > 0` and `layerEndTime != 0` the fade-out then jumps it to 1 |
| LayerRendering.UpdateAttributes | Sources/Models/Layers/VideoLayer.swift:38-43 | the same layer is returned with the declared frame, the zIndex as zPosition and the initial opacity; only those three fields change |
| LayerRendering.PlainLayer | Sources/Models/Layers/VideoLayer.swift:45-47 | the base conversion gives a new, plain, opaque layer with no content, animations or sublayers |
| LayerRendering.TextToRenderLayer | Sources/Models/Layers/TextLayer.swift:52-59 | a new layer holding the text, the font size, the parsed text colour and centre alignment, with the declared frame, zIndex and initial opacity, square corners and no animations or sublayers |
| LayerRendering.ImageToRenderLayer | Sources/Models/Layers/ImageLayer.swift:39-45 | when the image decodes: a new layer with the image, the declared corner radius, frame, zIndex and initial opacity; when it does not, that decoding error and no layer |
| LayerRendering.ToRenderLayer | Sources/Core/QuickVideoEditorCore.swift:182 | the conversion succeeds exactly when the overlay is text or its image decodes; on failure the error is the decoder's; on success the layer is new and in its rendered state |
| Composing.Composition.constructor | Sources/Core/QuickVideoEditorCore.swift:48 | a new composition has no tracks |
| Composing.Composition.AddMutableTrack | Sources/Core/QuickVideoEditorCore.swift:65-68 | one empty track of the kind is appended, and its ID is its position |
| Composing.Composition.InsertTimeRange | Sources/Core/QuickVideoEditorCore.swift:83-87 | the segment is appended to the track with that ID; every other track is unchanged |
| Composing.ChannelIDs | Sources/Core/QuickVideoEditorCore.swift:138 | `tracks(withMediaType:)`, the IDs of the tracks of a kind; `ChannelIDsExact` characterises them |
| Composing.ChannelIDsExact | Sources/Core/QuickVideoEditorCore.swift:138 | `tracks(withMediaType:)` lists exactly the IDs of the tracks of that kind, in increasing order |
| Composing.AudioRange | Sources/Core/QuickVideoEditorCore.swift:107-118 | the inserted audio range is the asset's whole time range when the duration is the -1 sentinel, otherwise `[0, duration)` of the file |
| Composing.InsertAudioTrack | Sources/Core/QuickVideoEditorCore.swift:96-125 | exactly one audio track is appended, even when the file has no audio or loading throws; it holds the audio range at `startTime` when the file has audio; the insert throws exactly when loading does |
| Composing.InsertVideoTrack | Sources/Core/QuickVideoEditorCore.swift:64-89 | exactly one video track is appended; when the file has video it holds `[playbackOffset, playbackOffset + duration)` at `startTime` and `naturalSize` becomes the file's size, otherwise `naturalSize` is untouched; the insert throws exactly when loading does |
| Composing.CompositionError | Sources/Core/QuickVideoEditorCore.swift:47-57 | the composition fails exactly when some audio or video file throws on loading |
| Composing.InsertAudioTracks | Sources/Core/QuickVideoEditorCore.swift:49-51 | the audio tracks are inserted in order; it fails exactly when one throws, with the first such error; otherwise every audio track has its channel, in order |
| Composing.InsertVideoTracks | Sources/Core/QuickVideoEditorCore.swift:53-55 | the video tracks are inserted in order; it fails exactly when one throws, with the first such error; otherwise every video track has its channel, in order; the tracks before the failing one have their natural size recorded, and no other is touched |
| Composing.CreateComposition | Sources/Core/QuickVideoEditorCore.swift:47-57 | the error is that of the first audio file, else the first video file, that throws; on success the tracks are the audio channels then the video channels, in declaration order; the video tracks processed before the end, and only those, have their natural size recorded |
| Composing.VideoIDsFollowAudio | Sources/Core/QuickVideoEditorCore.swift:138 | when the audio tracks come first, the video track IDs are the consecutive numbers after them |
| Composing.NoVideoIDs | Sources/Core/QuickVideoEditorCore.swift:138 | a composition of audio tracks only has no video track IDs |
| Composing.ComposedVideoIDs | Sources/Core/QuickVideoEditorCore.swift:138-143 | in the composition `createComposition` builds there is one video track ID per video track, and the i-th is the number of audio tracks plus i |
| Composing.ComposedVideoTrack | Sources/Core/QuickVideoEditorCore.swift:138-143 | the i-th video track ID names the composition track inserted for the i-th video track |
| VideoCompositing.ScaleThenTranslate | Sources/Core/QuickVideoEditorCore.swift:153-157 | a scale concatenated with a translation scales first, then moves |
| VideoCompositing.VideoTransform | Sources/Core/QuickVideoEditorCore.swift:148-157 | the clip's transform: a uniform scale by frame height over natural height, then a move; the lemmas below state where it puts the clip |
| VideoCompositing.VideoTransformPlacement | Sources/Core/QuickVideoEditorCore.swift:148-157 | the transform scales uniformly with no rotation or shear so the clip's height fills the frame's height, centres the clip within the frame's width, and moves it down by the frame's `origin.y` |
| VideoCompositing.ClipFillsFrameHeight | Sources/Core/QuickVideoEditorCore.swift:148-157 | the clip's top edge lands at the frame's `origin.y` and its bottom edge one frame height lower |
| VideoCompositing.OriginXIgnored | Sources/Core/QuickVideoEditorCore.swift:150-156 | two frames differing only in `origin.x` give the same transform |
| VideoCompositing.SameSizeIsIdentity | Sources/Core/QuickVideoEditorCore.swift:148-157 | a clip already the size of a frame at the origin is not moved |
| VideoCompositing.CreateVideoComposition | Sources/Core/QuickVideoEditorCore.swift:134-170 | render size, 1/30 s frame duration and the two layers as given; one instruction per video track, in order, each covering the track's time range and placing its clip with its transform on the i-th composition video track; it traps at the first video track with no natural size |
| Editor.AddOverlay | Sources/Core/QuickVideoEditorCore.swift:181-187 | one turn of the overlay loop: it succeeds exactly when the overlay renders; on success a new layer in its rendered state, with its fade ramps, is appended to the parent's sublayers; on failure the decoder's error and the sublayers unchanged |
| Editor.AddOverlays | Sources/Core/QuickVideoEditorCore.swift:181-187 | the overlay loop fails exactly when some overlay does not render, with the first one's error; otherwise the parent gets one new, distinct layer per overlay, in order, each drawn from its overlay with its ramps |
| Editor.CreateCALayers | Sources/Core/QuickVideoEditorCore.swift:175-191 | parent and video layers are new and distinct, both the canvas size at the origin; the parent's sublayers are one drawn layer per overlay in `getLayers` order, then the video layer last; it fails exactly when an image does not decode, with the first such error |
| Editor.DrawnLayerOpacity | Sources/Core/QuickVideoEditorCore.swift:181-187 | a layer drawn for an overlay shows that overlay's opacity curve at every time, so the fade lemmas hold of it |
| Editor.ComposeVideo | Sources/Core/QuickVideoEditorCore.swift:33-37 | on a composition holding every track: it traps exactly when some video file holds no video; otherwise the video composition holds the given video and parent layers, every natural size is the loaded one, and the i-th instruction uses track ID (number of audio tracks + i) |
| Editor.CreateVideo | Sources/Core/QuickVideoEditorCore.swift:30-39 | the outcome is the composition's error when a file throws, else the error of the first image that does not decode, else a trap when a video file holds no video, else ready to export; when ready, the composition holds all the tracks, the i-th instruction places the i-th clip at its loaded natural size on the track after all the audio tracks, and the layer tree is the one `createCALayers` builds: new parent and video layers of the canvas size, the drawn overlays in `getLayers` order under the parent, the video layer last |

## Left out

- `export` and `deleteFile` are left out. They are file-system deletion and
  `AVAssetExportSession` encoding, so the model ends where the composition
  and the video composition are handed to export. The audio mix that export
  passes through is left out with them.
- The actor and `async` structure is left out. The model is sequential,
  because only the order of the steps matters here.
- JSON decoding (`Codable`), the command line in `app-main.swift` and the
  package manifest are left out. Decoding is modelled only by its result,
  `Tracks.VideoTrack.constructor`, and by the `VideoData` record.
- `CMTime` at timescale 600 is left out. Times are real seconds, so its
  rounding to 1/600 s is not modelled.
- Floating point is left out: `CGFloat` and `Double` are real numbers, and
  colours are bytes before the division by 255.
- `CreateVideoComposition`, `CreateVideo`, `ComposeVideo`: a natural height of 0 is excluded
  by `requires`. Swift would divide by zero and build an infinite or NaN
  transform, which real numbers cannot represent.
- `CreateVideoComposition`: having fewer composition video tracks than video
  tracks is excluded by `requires`. Swift would trap indexing
  `videoTracks[index]`. `Composing.ComposedVideoIDs` shows that
  `createComposition` always builds exactly enough.
- `CreateVideo` requires every `naturalSize` to be unset on entry, which is
  what decoding leaves (`Tracks.VideoTrack.constructor`).
- Failures of `load(.naturalSize)` and `load(.timeRange)` are not modelled.
  The `MediaLibrary` answers the track together with its size and time range.
- A `nil` from `addMutableTrack` is not modelled. It would silently skip the
  insert through optional chaining.
- A throw from `insertTimeRange` is not modelled. Only loading the tracks
  throws.
- AVFoundation's own checks on the inserted ranges are not modelled.
- `setNeedsDisplay` and `displayIfNeeded` are left out. They only make
  `CAImageLayer.display` copy its image into `contents`, so the model puts
  the image into the layer's content when the layer is made.
- Rendering by Core Animation is left out: sorting by `zPosition`,
  compositing pixels, and the 0.25 s default length of an animation whose
  duration is 0. The model treats a zero-length ramp as instantaneous.
- The host's current time, which Core Animation puts in place of a literal
  begin time of 0, is not modelled as a number. The model takes it to lie
  after the end of the video, so such an animation never plays
  (`RenderTree.BeginTime`).
- `uppercased()` is modelled for ASCII letters only. Swift's full
  upper-casing can change a string's length ("ß" becomes "SS", "ﬀ" becomes
  "FF"), so `"#ABCDﬀ"` is a colour in the program but has 5 characters
  in the model and gives `.clear`.
- The length check counts `Character`s (grapheme clusters). The model counts
  code points, so the two differ on every grapheme cluster made of more than
  one code point: combining marks, `"\r\n"`, emoji joined by zero-width
  joiners, flag pairs. `"AB\r\nCD"` is a colour in the model but `nil` in the
  program.
- `ImageProcessingError.contextCreationFailed` is left out, because no code
  on this path throws it.
- CGImage decoding (`CGImage+Extension.swift`, `CAImageLayer.swift`) is
  modelled as the `ImageDecoder` parameter. Its two errors are the model's
  `ImageError`.
