/**
 * Overlay layers: the fields every layer declares (`VideoLayer`) and the two
 * kinds of overlay, text and image, as one closed datatype.
 */
module Layers {
  import opened Common
  import opened HexColor

  /** The fields `VideoLayer` declares; times in seconds. */
  datatype LayerBase = LayerBase(
    startTime: real,
    duration: real,
    fadeInDuration: real,
    fadeOutDuration: real,
    frame: Rect,
    zIndex: int)

  /** `TextLayer` and `ImageLayer`, each with the shared fields in `base`. */
  datatype Overlay =
    | Text(base: LayerBase, text: string, textColor: string, fontSize: real)
    | Image(base: LayerBase, imageURL: string, cornerRadius: real)

  const NoBase: LayerBase := LayerBase(0.0, 0.0, 0.0, 0.0, RectAtZero(Size(0.0, 0.0)), 0)

  type TextLayer = o: Overlay | o.Text? witness Text(NoBase, "", "", 0.0)

  type ImageLayer = o: Overlay | o.Image? witness Image(NoBase, "", 0.0)

  /** `layerEndTime`: the end of the layer's visibility window. */
  function LayerEndTime(b: LayerBase): real
  {
    b.startTime + b.duration
  }

  /**
   * The opacity `updateAttributes` gives the rendered layer before any
   * animation: opaque exactly when there is no fade-in at all.
   */
  function InitialOpacity(b: LayerBase): (o: real)
    ensures o == 1.0 <==> b.fadeInDuration == 0.0
    ensures o == 0.0 <==> b.fadeInDuration != 0.0
  {
    if b.fadeInDuration == 0.0 then 1.0 else 0.0
  }

  /** `toTextColor`: the parsed colour, or `.clear` when the string is not one. */
  function ToTextColor(textColor: string): Rgba
  {
    var parsed := FromHex(textColor);
    if parsed.Some? then parsed.value else Clear
  }

  /** A text colour of the wrong length renders fully transparent. */
  lemma WrongLengthIsClear(textColor: string)
    requires |Normalise(textColor)| != 6 && |Normalise(textColor)| != 8
    ensures ToTextColor(textColor) == Clear && ToTextColor(textColor).alpha == 0
  {
  }

  /** A colour written as "#RRGGBB" is the text colour, fully opaque. */
  lemma WrittenColorIsTextColor(r: Byte, g: Byte, b: Byte)
    ensures ToTextColor("#" + HexByte(r) + HexByte(g) + HexByte(b)) == Rgba(r, g, b, 255)
  {
    RgbRoundTrip(r, g, b);
  }

  /** Six characters that are not hex digits give opaque black, not `.clear`. */
  lemma NonHexTextIsOpaqueBlack(textColor: string)
    requires var s := Normalise(textColor);
      |s| == 6 && !IsHexDigit(s[0]) && !IsWhitespace(s[0])
    ensures ToTextColor(textColor) == Rgba(0, 0, 0, 255)
  {
    NonHexScansToZero(textColor);
  }
}
