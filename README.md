# Canvas2D supersampled pixel buffer, in Dafny

This project models the bookkeeping core of `Canvas2D`, a wrapper around an
HTML5 canvas that keeps a supersampled, off-screen RGBA pixel buffer. It covers:

- the dimension state: the logical `width`/`height` taken from the host's
  bounding rectangle, the `supersampling` factor, and the accessors
  `getWidth()`/`getHeight()` (logical size × factor);
- the buffer lifecycle: the buffer is a flat, row-major array of 4 bytes
  (R, G, B, A) per pixel, replaced wholesale and blank by the constructor,
  `setSupersampling` and `clearBuffer`;
- the in-place writes: `drawBufferedPixel` stores four bytes at the offset
  `4*(x + y*getWidth()) - 4`, and `drawPixel` fills the 1×1 scratch pixel.

It has two modules:

- `CanvasModel` (CanvasModel.dfy) is the value-level model. It holds the
  abstract `State` of one object and one transition function per operation
  (`Init`, `SetSupersampling`, `ClearBuffer`, `DrawBufferedPixel`,
  `DrawPixel`). It also has `DrawBufferedPixels` for a whole scene of
  buffered pixels drawn in order. The lemmas state what each operation
  promises.
- `Canvas` (Canvas.dfy) holds the class `Canvas2D`. It has the object's
  fields, an `array<int>` for `buffer.data` and one for `pixelImageData.data`.
  Each method is proved to move the ghost `Model()` exactly as the matching
  `CanvasModel` function does, and to keep `Valid()`. So every lemma of
  `CanvasModel` holds of the object.

Host behaviour the model relies on:

- `createImageData(w, h)` gives a transparent-black (all-zero) ImageData of
  `4*w*h` bytes. It throws an `IndexSizeError` when either side is zero. This
  follows the "Pixel manipulation" part of the canvas chapter of the WHATWG
  HTML Living Standard.
- A write to a typed array at an index outside `[0, length)` is dropped.
- A newly created `<canvas>` is 300 × 150 until its size is set.

Host rectangles are parameters. The constructor takes the container's
rectangle. `SetSupersampling` takes the canvas's rectangle, as the code asks
the canvas element, not the container, at `Canvas2D.js:80`.

Three behaviours of the code are kept as written:

- The index formula keeps its `- 4`, which looks like an off-by-one (the
  unshifted offset would be `4*(x + y*W)`). The model proves what the code
  as written does. Pixel (0, 0) maps to offset -4, so that write is
  dropped (`OriginWriteDropped`). On a buffer sized getWidth() ×
  getHeight() (after a setSupersampling or clearBuffer that returned, or
  after construction with factor 1), every other in-bounds pixel colours
  the pixel one place before it in row-major order. On such a buffer the
  last pixel is never reached by in-bounds coordinates
  (`DrawBufferedPixelShifted`). On the constructor's buffer with a factor
  above 1 neither holds (`ConstructorBufferOffsetsDiffer`).
- The constructor sizes the buffer to the logical rectangle, not to the
  supersampled one (`Canvas2D.js:70`). With a factor above 1, the first
  buffer is smaller than what `drawBufferedPixel` addresses
  (`InitBufferUndersized`). This lasts until the first `setSupersampling`
  or `clearBuffer` that returns: each of those leaves a buffer of exactly
  4·getWidth()·getHeight() bytes (`SetSupersamplingEffect`,
  `ClearBufferEffect`). A `setSupersampling` that throws keeps the old
  buffer.
- A missing or falsy `config.supersampling` silently becomes 1. It is not
  rejected.

## Model

| member | source | states |
|---|---|---|
| `CanvasModel.InitialFactorDefault` | Canvas2D.js:19-22 | The constructor's factor is at least 1. A missing or zero (falsy) `config.supersampling` gives 1, and any other value is kept. |
| `CanvasModel.InitEffect` | Canvas2D.js:63-70 | Construction succeeds exactly when the container rectangle is non-empty, and otherwise raises IndexSizeError. On success the factor is the constructor's factor. Logical and canvas sizes equal the rectangle, and the offscreen canvas is still 300 × 150. The buffer is blank, `rect.width × rect.height` pixels (4·w·h bytes), and the scratch pixel is `[0,0,0,0]`. The state is valid. |
| `CanvasModel.InitBufferUndersized` | Canvas2D.js:65-70 | With a factor above 1, the constructor's buffer has fewer than `4·getWidth()·getHeight()` bytes. |
| `Canvas.Canvas2D.constructor` | Canvas2D.js:19-70 | For a non-empty rectangle, the new object's fields and fresh arrays are exactly the state `Init(config, rect)`, and the object is valid. |
| `Canvas.Canvas2D.Create` | Canvas2D.js:63-70 | `new Canvas2D(config)`. It raises IndexSizeError exactly when `Init` does. Otherwise it returns a fresh, valid object whose state is `Init(config, rect)`. |
| `Canvas.Canvas2D.GetWidth` | Canvas2D.js:98-100 | Returns the physical width of the object's state, logical width × factor. As a function it changes no field. |
| `Canvas.Canvas2D.GetHeight` | Canvas2D.js:106-108 | Returns the physical height of the object's state, logical height × factor. As a function it changes no field. |
| `Canvas.AllocateImageData` | Canvas2D.js:88 | `createImageData(w, h)` gives a fresh array holding exactly the blank `4·w·h`-byte image. When a side is zero it raises IndexSizeError. |
| `Canvas.Canvas2D.SetSupersampling` | Canvas2D.js:77-92 | Keeps `Valid()` and does not touch the scratch pixel. It returns this object. The new state and the outcome are exactly `CanvasModel.SetSupersampling(old state, f, rect)`. |
| `CanvasModel.SetSupersamplingEffect` | Canvas2D.js:77-92 | After `setSupersampling(f)` with rectangle r, the factor is f and the logical and canvas sizes are r. The call returns exactly when r is non-empty. Then `getWidth() = r.width·f` and `getHeight() = r.height·f`. The buffer is blank, with 4·getWidth()·getHeight() bytes, and the offscreen canvas is (r.width·f) × (r.height·f). On a throw, the buffer and offscreen size are unchanged, but the factor and sizes are already updated. Validity is kept. |
| `CanvasModel.SetSupersamplingIdempotent` | Canvas2D.js:77-92 | Calling `setSupersampling(f)` again with an unchanged rectangle gives the same outcome and the same state as the first call. |
| `CanvasModel.SetSupersamplingLeavesClearBuffer` | Canvas2D.js:88 | After a `setSupersampling` that returned, `clearBuffer()` returns and changes nothing. |
| `Canvas.Canvas2D.ClearBuffer` | Canvas2D.js:145-147 | Keeps `Valid()` and does not touch the scratch pixel. The new state and the outcome are exactly `CanvasModel.ClearBuffer(old state)`. |
| `CanvasModel.ClearBufferEffect` | Canvas2D.js:145-147 | `clearBuffer()` returns exactly when getWidth() and getHeight() are non-zero. Then only the buffer changes: it becomes a blank getWidth() × getHeight() image with 4·getWidth()·getHeight() bytes. A throw changes nothing. |
| `CanvasModel.ClearBufferIdempotent` | Canvas2D.js:145-147 | Clearing twice has the same outcome and state as clearing once. |
| `CanvasModel.ClearBufferErasesDrawing` | Canvas2D.js:126-147 | A buffered pixel followed by a `clearBuffer()` that returns leaves the same state as the clear alone. |
| `Canvas.StoreByte` | Canvas2D.js:128-131 | One typed-array element write. It stores v at i when i is within the array, and otherwise leaves the array unchanged. |
| `Canvas.Canvas2D.DrawBufferedPixel` | Canvas2D.js:126-132 | Writes only the buffer array and keeps `Valid()`. The new state is exactly `CanvasModel.DrawBufferedPixel(old state, p)`. |
| `CanvasModel.DrawBufferedPixelEffect` | Canvas2D.js:126-132 | `drawBufferedPixel(p)` changes only the buffer's bytes and keeps its length and validity. If `index = 4*(x + y*getWidth()) - 4` falls in the buffer, bytes `index..index+3` become r, g, b, a and every other byte is unchanged. Otherwise the state is entirely unchanged. |
| `CanvasModel.PutPixelInRange` | Canvas2D.js:128-131 | Four writes at an offset whose four bytes lie in the array set exactly those bytes to r, g, b, a and keep the length. |
| `CanvasModel.PutPixelOutOfRange` | Canvas2D.js:128-131 | Four writes that all fall outside the array leave it unchanged. |
| `CanvasModel.AllOrNothing` | Canvas2D.js:127-131 | When the buffer length and the offset are both multiples of 4, the four writes are all in range or all out of range. |
| `CanvasModel.OriginWriteDropped` | Canvas2D.js:127 | Pixel (0, 0) gets offset -4, so drawing it leaves the state unchanged. |
| `CanvasModel.ByteIndexShifted` | Canvas2D.js:127 | For in-bounds (x, y) other than (0, 0), the offset is that of row-major pixel `x + y·w - 1`. It lies inside a `4·w·h`-byte buffer and stops short of its last pixel. |
| `CanvasModel.ByteIndexInjective` | Canvas2D.js:127 | Distinct coordinates with `0 <= x < w` get distinct offsets, for any rows, negative ones included. |
| `CanvasModel.ConstructorBufferOffsetsDiffer` | Canvas2D.js:63-70 | With factor 2 on a 2 × 2 rectangle, the constructor's buffer is 2 pixels wide (16 bytes) while getWidth() = 4. The in-bounds pixel (0, 1) gets offset 12 and lands on the buffer's last pixel, bytes 12..15. |
| `CanvasModel.DrawBufferedPixelShifted` | Canvas2D.js:126-132 | On a buffer sized getWidth() × getHeight(), an in-bounds pixel other than (0, 0) colours the pixel one place before it. The buffer's last pixel keeps its bytes. |
| `CanvasModel.PutPixelAt` | Canvas2D.js:128-131 | After the four writes at offset i, byte k is channel k - i when i <= k < i + 4, and otherwise is unchanged. The length is kept. |
| `CanvasModel.PutPixelsCommute` | Canvas2D.js:128-131 | Two four-byte writes at offsets at least four apart give the same array in either order. |
| `CanvasModel.PutPixelOverwrites` | Canvas2D.js:128-131 | A second four-byte write at the same offset replaces the first completely. |
| `CanvasModel.DrawBufferedPixelsCommute` | Canvas2D.js:126-132 | Two buffered pixels with different offsets give the same state in either order. |
| `CanvasModel.DrawBufferedPixelsCommuteInBounds` | Canvas2D.js:126-132 | Two buffered pixels at distinct coordinates with `0 <= x < getWidth()`, in any rows, give the same state in either order. |
| `CanvasModel.DrawBufferedPixelOverwrites` | Canvas2D.js:126-132 | Drawing at the same coordinates twice leaves only the second colour. |
| `CanvasModel.DrawBufferedPixelsEffect` | Canvas2D.js:126-132 | Any sequence of `drawBufferedPixel` calls with byte channels keeps validity and the buffer's length. It changes nothing but the buffer's bytes. |
| `CanvasModel.ClearBufferErasesScene` | Canvas2D.js:126-147 | A `clearBuffer()` that returns, after any sequence of buffered pixels, gives the same state as the clear alone. |
| `CanvasModel.SetSupersamplingErasesDrawing` | Canvas2D.js:77-132 | A buffered pixel followed by a `setSupersampling(f)` that returns gives the same outcome and state as the `setSupersampling(f)` alone. |
| `CanvasModel.SetSupersamplingErasesScene` | Canvas2D.js:51-92 | A resize, modelled as `setSupersampling(f)` with the new rectangle, that returns after any sequence of buffered pixels gives the same outcome and state as the resize alone. So a caller must redraw after a resize. |
| `Canvas.Canvas2D.DrawPixel` | Canvas2D.js:114-118 | Writes only the scratch array and keeps `Valid()`. The new state is exactly `CanvasModel.DrawPixel(old state, p)`. |
| `CanvasModel.DrawPixelEffect` | Canvas2D.js:114-118 | `drawPixel(p)` sets the scratch pixel's bytes 0..3 to r, g, b, a and keeps validity. The buffer, every size and the factor are unchanged. |
| `CanvasModel.DrawPathsCommute` | Canvas2D.js:114-132 | `drawPixel` and `drawBufferedPixel` do not interfere. Doing them in either order gives the same state. |
| `CanvasModel.ScenarioFactorTwo` | Canvas2D.js:77-131 | Construction with factor 2 on a 100 × 50 rectangle, followed by `setSupersampling(2)`, gives getWidth() = 200 and getHeight() = 100. A buffered red pixel at (10, 10) then sets bytes 8036..8039 to 255, 0, 0, 255. |

## Left out

- DOM creation, the style-copy loops, the default container style and appending to `document.body` (Canvas2D.js:14-16, 24-39, 46-47): host-page glue with no buffer logic.
- A missing `config` object: `config.canvasStyle` at Canvas2D.js:24 throws a TypeError before any buffer logic runs. The model always takes a `Config` value.
- The `resize`/`load` listeners and `resizeCB` (Canvas2D.js:51-62): event wiring. A resize is the call `SetSupersampling(supersampling, rect)` with the new rectangle.
- `context.scale(1/f, 1/f)` and the contexts themselves (Canvas2D.js:42-43, 85): opaque transforms on a foreign 2D context.
- `flushBuffer` (Canvas2D.js:137-140) and the `putImageData` blit in `drawPixel` (Canvas2D.js:119): foreign rendering with implicit resampling. The source marks the flush as not working. So no property about what the visible canvas shows is modelled. The scratch pixel's bytes are modelled, and so are the buffer's bytes.
- `drawLine` (Canvas2D.js:153-158): path and stroke calls on the native context only.
- Non-integer factors, fractional rectangle sizes (and the truncation when they are assigned to `canvas.width`), and the `x/supersampling` division in `drawPixel`: floating point. Factors, sizes and coordinates are integers here.
- Non-integer or NaN pixel coordinates: these are typed-array keys that are not array indices.
- `createImageData`'s RangeError for sizes too large to allocate: a host resource limit.
- A negative `config.supersampling`: it is truthy, so Canvas2D.js:18-19 keeps it as the factor. `Config` holds a natural number, so the model cannot represent it. It is left out with the negative factors of `setSupersampling` below, because it leads to negative canvas sizes.
- Canvas.Canvas2D.constructor: requires a non-empty rectangle, because a Dafny constructor cannot throw. `Canvas.Canvas2D.Create` and `CanvasModel.Init` model the IndexSizeError for an empty one.
- Canvas.Canvas2D.SetSupersampling: requires a factor of at least 1. A zero or negative factor (a division by zero in `context.scale`, negative canvas sizes) is left out with floating point.
- Canvas.Canvas2D.DrawBufferedPixel: requires channel values in 0..255, as the doc comment at Canvas2D.js:111 asks. The clamping and rounding of a `Uint8ClampedArray` are not modelled.
- Canvas.Canvas2D.DrawPixel: requires channel values in 0..255, for the same reason.
