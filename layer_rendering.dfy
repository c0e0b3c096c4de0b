/**
 * `toCAVideoLayer` and `updateAttributes(for:)`: turning a declared overlay
 * into the Core Animation layer that draws it.
 */
module LayerRendering {
  import opened Common
  import opened HexColor
  import opened Layers
  import opened RenderTree

  /** Why an image file gave no image (`ImageProcessingError`). */
  datatype ImageError = ImageLoadingFailed | ImageCreationFailed

  /** Opening and decoding the image file at a path, done outside the engine. */
  type ImageDecoder = string -> Result<Bitmap, ImageError>

  /**
   * `updateAttributes(for:)`: the declared frame, the z-index as z-position
   * and the initial opacity are copied onto the given layer, which is
   * returned; nothing else about it changes.
   */
  method UpdateAttributes(b: LayerBase, layer: RenderLayer) returns (r: RenderLayer)
    modifies layer`frame, layer`zPosition, layer`opacity
    ensures r == layer
    ensures layer.frame == b.frame && layer.zPosition == b.zIndex as real
    ensures layer.opacity == InitialOpacity(b)
  {
    layer.frame := b.frame;
    layer.zPosition := b.zIndex as real;
    layer.opacity := InitialOpacity(b);
    r := layer;
  }

  /** The base `toCAVideoLayer`: a new, plain layer. */
  method PlainLayer() returns (r: RenderLayer)
    ensures fresh(r) && r.content == Blank && r.opacity == 1.0
    ensures r.animations == [] && r.sublayers == []
  {
    r := new RenderLayer();
  }

  /**
   * The layer `toCAVideoLayer` makes for a renderable overlay: the declared
   * frame, the z-index as z-position and the initial opacity; for text, the
   * string centred in the declared size and parsed colour, with square
   * corners; for an image, the decoded image with the declared corner
   * radius. It has no sublayers and no animations yet.
   */
  function RenderedState(o: Overlay, decode: ImageDecoder): LayerState
    requires Renderable(o, decode)
  {
    LayerState(
      o.base.frame, o.base.zIndex as real, InitialOpacity(o.base),
      if o.Text? then 0.0 else o.cornerRadius,
      if o.Text? then TextContent(o.text, o.fontSize, ToTextColor(o.textColor), Center)
      else Picture(decode(o.imageURL).value),
      [], [])
  }

  /** `TextLayer.toCAVideoLayer`: never fails. */
  method TextToRenderLayer(o: TextLayer, decode: ImageDecoder) returns (r: RenderLayer)
    ensures fresh(r) && r.State() == RenderedState(o, decode)
  {
    var layer := new RenderLayer();
    // string, fontSize, foregroundColor and alignmentMode, set one after the other
    layer.content := TextContent(o.text, o.fontSize, ToTextColor(o.textColor), Center);
    r := UpdateAttributes(o.base, layer);
  }

  /** `ImageLayer.toCAVideoLayer`: throws when the image cannot be decoded. */
  method ImageToRenderLayer(o: ImageLayer, decode: ImageDecoder) returns (r: Result<RenderLayer, ImageError>)
    ensures decode(o.imageURL).Failure? ==> r == Failure(decode(o.imageURL).error)
    ensures decode(o.imageURL).Success? ==>
      r.Success? && fresh(r.value) && r.value.State() == RenderedState(o, decode)
  {
    match decode(o.imageURL)
    case Failure(e) =>
      r := Failure(e);
    case Success(image) =>
      var layer := new RenderLayer();
      layer.content := Picture(image);
      layer.cornerRadius := o.cornerRadius;
      var updated := UpdateAttributes(o.base, layer);
      r := Success(updated);
  }

  /** An overlay renders unless it is an image that cannot be decoded. */
  predicate Renderable(o: Overlay, decode: ImageDecoder)
  {
    o.Image? ==> decode(o.imageURL).Success?
  }

  /** `toCAVideoLayer`, dispatched on the kind of overlay. */
  method ToRenderLayer(o: Overlay, decode: ImageDecoder) returns (r: Result<RenderLayer, ImageError>)
    ensures r.Success? <==> Renderable(o, decode)
    ensures r.Failure? ==> r.error == decode(o.imageURL).error
    ensures r.Success? ==> fresh(r.value) && r.value.State() == RenderedState(o, decode)
  {
    match o
    case Text(_, _, _, _) =>
      var layer := TextToRenderLayer(o, decode);
      r := Success(layer);
    case Image(_, _, _) =>
      r := ImageToRenderLayer(o, decode);
  }
}
