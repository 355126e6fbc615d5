/**
 * The `Canvas2D` object itself: its fields are reassigned by the constructor,
 * `setSupersampling` and `clearBuffer`, and its buffer and scratch pixel are
 * written byte by byte.  Every method is proved to move `Model()` exactly as
 * the corresponding function of CanvasModel does, so the lemmas proved there
 * hold of the object.
 */
module Canvas {
  import CM = CanvasModel

  /** How a JavaScript result that may have been a throw ended. */
  function OutcomeOf<T>(res: CM.Result<T>): CM.Outcome
  {
    match res
    case Ok(_) => CM.Returned
    case Err(e) => CM.Threw(e)
  }

  /**
   * The host's `createImageData(w, h)` as far as its `data` array goes: a
   * fresh all-zero array of 4 * w * h bytes, or IndexSizeError for a zero side.
   */
  method AllocateImageData(w: nat, h: nat) returns (res: CM.Result<array<int>>)
    ensures res.Err? <==> CM.CreateImageData(w, h).Err?
    ensures res.Err? ==> CM.CreateImageData(w, h) == CM.Err(res.error)
    ensures res.Ok? ==> fresh(res.value) && CM.CreateImageData(w, h) == CM.Ok(CM.ImageData(w, h, res.value[..]))
  {
    if CM.CreateImageData(w, h).Err? {
      return CM.Err(CM.CreateImageData(w, h).error);
    }
    var data := new int[4 * w * h](_ => 0);
    assert data[..] == CM.Blank(4 * w * h);
    return CM.Ok(data);
  }

  /** One typed-array write `a[i] = v`; an index outside the array is dropped. */
  method StoreByte(a: array<int>, i: int, v: int)
    modifies a
    ensures a[..] == CM.StoreByte(old(a[..]), i, v)
  {
    if 0 <= i < a.Length {
      a[i] := v;
    }
  }

  class Canvas2D {
    var supersampling: nat
    /** The host rectangle read last (the container's, then the canvas's). */
    var rect: CM.Rect
    var width: nat
    var height: nat
    /** `canvas.width` and `canvas.height` of the visible canvas. */
    var canvasWidth: nat
    var canvasHeight: nat
    /** `bufferedImage.width` and `bufferedImage.height`: the offscreen canvas. */
    var offscreenWidth: nat
    var offscreenHeight: nat
    /** `buffer.width`, `buffer.height` and `buffer.data` of the ImageData buffer. */
    var bufferWidth: nat
    var bufferHeight: nat
    var buffer: array<int>
    /** `pixelImageData.data`: the 1x1 scratch pixel. */
    var pixelImageData: array<int>

    ghost function Model(): CM.State
      reads this, buffer, pixelImageData
    {
      CM.State(supersampling, rect, width, height, canvasWidth, canvasHeight,
               offscreenWidth, offscreenHeight,
               CM.ImageData(bufferWidth, bufferHeight, buffer[..]), pixelImageData[..])
    }

    ghost predicate Valid()
      reads this, buffer, pixelImageData
    {
      buffer != pixelImageData && CM.Valid(Model())
    }

    /**
     * `new Canvas2D(config)` on a host whose container rectangle is `r`.
     * A Dafny constructor cannot throw, so this one requires a non-empty
     * rectangle; `Create` covers the empty one.
     */
    constructor (config: CM.Config, r: CM.Rect)
      requires r.width > 0 && r.height > 0
      ensures Valid() && fresh(buffer) && fresh(pixelImageData)
      ensures CM.Init(config, r) == CM.Ok(Model())
    {
      if config.supersampling.Some? && config.supersampling.value != 0 {
        supersampling := config.supersampling.value;
      } else {
        supersampling := 1;
      }
      rect := r;
      canvasWidth, canvasHeight := r.width, r.height;
      width, height := r.width, r.height;
      offscreenWidth, offscreenHeight := CM.DefaultCanvasWidth, CM.DefaultCanvasHeight;
      var scratch := new int[4](_ => 0);
      assert scratch[..] == CM.Blank(4);
      pixelImageData := scratch;
      var data := new int[4 * r.width * r.height](_ => 0);
      assert data[..] == CM.Blank(4 * r.width * r.height);
      bufferWidth, bufferHeight := r.width, r.height;
      buffer := data;
    }

    /**
     * `new Canvas2D(config)`, including the IndexSizeError that the buffer's
     * `createImageData` raises for an empty rectangle.
     */
    static method Create(config: CM.Config, r: CM.Rect) returns (res: CM.Result<Canvas2D>)
      ensures res.Err? <==> CM.Init(config, r).Err?
      ensures res.Err? ==> CM.Init(config, r) == CM.Err(res.error)
      ensures res.Ok? ==>
        && fresh(res.value) && fresh(res.value.buffer) && fresh(res.value.pixelImageData)
        && res.value.Valid() && CM.Init(config, r) == CM.Ok(res.value.Model())
    {
      var img := CM.CreateImageData(r.width, r.height);
      if img.Err? {
        return CM.Err(img.error);
      }
      var c := new Canvas2D(config, r);
      return CM.Ok(c);
    }

    /** `getWidth()`: the width of the supersampled buffer space. */
    function GetWidth(): (w: nat)
      reads this, buffer, pixelImageData
      ensures w == CM.GetWidth(Model())
    {
      width * supersampling
    }

    /** `getHeight()`: the height of the supersampled buffer space. */
    function GetHeight(): (h: nat)
      reads this, buffer, pixelImageData
      ensures h == CM.GetHeight(Model())
    {
      height * supersampling
    }

    /**
     * `setSupersampling(f)` on a host whose canvas rectangle is now
     * `canvasRect`; returns this object, or the IndexSizeError thrown by
     * `createImageData` when the rectangle is empty.
     */
    method SetSupersampling(f: nat, canvasRect: CM.Rect) returns (res: CM.Result<Canvas2D>)
      requires Valid() && f >= 1
      modifies this
      ensures Valid()
      ensures pixelImageData == old(pixelImageData)
      ensures buffer == old(buffer) || fresh(buffer)
      ensures res.Ok? ==> res.value == this
      ensures CM.SetSupersampling(old(Model()), f, canvasRect) == CM.Step(OutcomeOf(res), Model())
    {
      ghost var step := CM.SetSupersampling(Model(), f, canvasRect);
      CM.SetSupersamplingEffect(Model(), f, canvasRect);
      supersampling := f;
      rect := canvasRect;
      canvasWidth, canvasHeight := rect.width, rect.height;
      width, height := rect.width, rect.height;
      var w, h := GetWidth(), GetHeight();
      var img := AllocateImageData(w, h);
      if img.Err? {
        assert Model() == step.post;
        return CM.Err(img.error);
      }
      bufferWidth, bufferHeight := w, h;
      buffer := img.value;
      offscreenWidth, offscreenHeight := rect.width * f, rect.height * f;
      assert Model() == step.post;
      return CM.Ok(this);
    }

    /** `drawPixel(p)`, up to the blit: fills the scratch pixel with r, g, b, a. */
    method DrawPixel(p: CM.Pixel)
      requires Valid() && CM.ChannelsInRange(p)
      modifies pixelImageData
      ensures Valid()
      ensures Model() == CM.DrawPixel(old(Model()), p)
    {
      StoreByte(pixelImageData, 0, p.r);
      StoreByte(pixelImageData, 1, p.g);
      StoreByte(pixelImageData, 2, p.b);
      StoreByte(pixelImageData, 3, p.a);
      CM.DrawPixelEffect(old(Model()), p);
    }

    /** `drawBufferedPixel(p)`: four byte writes at the computed offset. */
    method DrawBufferedPixel(p: CM.Pixel)
      requires Valid() && CM.ChannelsInRange(p)
      modifies buffer
      ensures Valid()
      ensures Model() == CM.DrawBufferedPixel(old(Model()), p)
    {
      var index := 4 * (p.x + p.y * GetWidth()) - 4;
      StoreByte(buffer, index, p.r);
      StoreByte(buffer, index + 1, p.g);
      StoreByte(buffer, index + 2, p.b);
      StoreByte(buffer, index + 3, p.a);
      CM.DrawBufferedPixelEffect(old(Model()), p);
    }

    /** `clearBuffer()`: a new blank buffer of getWidth() x getHeight() pixels. */
    method ClearBuffer() returns (outcome: CM.Outcome)
      requires Valid()
      modifies this
      ensures Valid()
      ensures pixelImageData == old(pixelImageData)
      ensures buffer == old(buffer) || fresh(buffer)
      ensures CM.ClearBuffer(old(Model())) == CM.Step(outcome, Model())
    {
      var img := AllocateImageData(GetWidth(), GetHeight());
      if img.Err? {
        return CM.Threw(img.error);
      }
      bufferWidth, bufferHeight := GetWidth(), GetHeight();
      buffer := img.value;
      return CM.Returned;
    }
  }
}
