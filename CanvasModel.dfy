/**
 * The value-level model of the supersampled pixel buffer kept by `Canvas2D`:
 * the data it holds, one state-transition function per operation, and the
 * lemmas that say what each operation promises.  The class in Canvas.dfy is
 * proved to follow these functions step by step.
 *
 * Modelling choices: host rectangles, factors and pixel coordinates are
 * integers; channel values are bytes (0..255); a typed-array write outside
 * the array is dropped, as the ECMAScript integer-indexed [[Set]] does.
 */
module CanvasModel {

  datatype Option<T> = None | Some(value: T)

  /** The one exception modelled: `createImageData` with a zero side. */
  datatype DomException = IndexSizeError

  datatype Result<T> = Ok(value: T) | Err(error: DomException)

  /** How a call that may throw ended. */
  datatype Outcome = Returned | Threw(error: DomException)

  /** A fresh <canvas> element is 300 x 150 until its size is set (HTML, section 4.12.5). */
  const DefaultCanvasWidth: nat := 300
  const DefaultCanvasHeight: nat := 150

  /** The part of `getBoundingClientRect()` the component reads. */
  datatype Rect = Rect(width: nat, height: nat)

  /** The constructor's `config`; `supersampling` is absent (None) or a number, 0 being falsy. */
  datatype Config = Config(supersampling: Option<nat>)

  datatype Pixel = Pixel(x: int, y: int, r: int, g: int, b: int, a: int)

  predicate IsByte(v: int) { 0 <= v < 256 }

  predicate ChannelsInRange(p: Pixel)
  {
    IsByte(p.r) && IsByte(p.g) && IsByte(p.b) && IsByte(p.a)
  }

  predicate AllBytes(d: seq<int>)
  {
    forall i | 0 <= i < |d| :: IsByte(d[i])
  }

  /** `n` transparent-black bytes. */
  function Blank(n: nat): seq<int>
  {
    seq(n, _ => 0)
  }

  predicate IsBlank(d: seq<int>)
  {
    d == Blank(|d|)
  }

  /** An ImageData: a width x height grid stored row-major, 4 bytes (R, G, B, A) per pixel. */
  datatype ImageData = ImageData(width: nat, height: nat, data: seq<int>)

  predicate WellFormed(img: ImageData)
  {
    |img.data| == 4 * img.width * img.height && AllBytes(img.data)
  }

  /**
   * The host's `createImageData(w, h)`: a transparent-black image, or an
   * IndexSizeError when either side is zero.
   */
  function CreateImageData(w: nat, h: nat): Result<ImageData>
  {
    if w == 0 || h == 0 then Err(IndexSizeError)
    else Ok(ImageData(w, h, Blank(4 * w * h)))
  }

  /**
   * Everything of a `Canvas2D` object that the buffer logic reads or writes:
   * the factor, the last host rectangle, the logical size, the width and
   * height attributes of the visible and the offscreen canvas, the pixel
   * buffer and the 1x1 scratch pixel's four bytes.
   */
  datatype State = State(
    supersampling: nat,
    rect: Rect,
    width: nat,
    height: nat,
    canvasWidth: nat,
    canvasHeight: nat,
    offscreenWidth: nat,
    offscreenHeight: nat,
    buffer: ImageData,
    scratch: seq<int>)

  predicate Valid(s: State)
  {
    && s.supersampling >= 1
    && WellFormed(s.buffer)
    && |s.scratch| == 4
    && AllBytes(s.scratch)
  }

  /** `getWidth()`: the supersampled (physical) width. */
  function GetWidth(s: State): nat
  {
    s.width * s.supersampling
  }

  /** `getHeight()`: the supersampled (physical) height. */
  function GetHeight(s: State): nat
  {
    s.height * s.supersampling
  }

  /** The constructor's factor: `config.supersampling` when truthy, otherwise 1. */
  function InitialFactor(c: Config): nat
  {
    match c.supersampling
    case Some(f) => if f != 0 then f else 1
    case None => 1
  }

  /** `new Canvas2D(config)` with the container's rectangle `r`. */
  function Init(c: Config, r: Rect): Result<State>
  {
    match CreateImageData(r.width, r.height)
    case Err(e) => Err(e)
    case Ok(img) =>
      Ok(State(InitialFactor(c), r, r.width, r.height, r.width, r.height,
               DefaultCanvasWidth, DefaultCanvasHeight, img, Blank(4)))
  }

  /** The state after an operation that may throw, and how it ended. */
  datatype Step = Step(outcome: Outcome, post: State)

  /**
   * `setSupersampling(f)` with the canvas's rectangle `r`.  The factor,
   * rectangle and sizes are assigned before `createImageData` runs, so a
   * throw leaves them updated and the buffer and offscreen size as they were.
   */
  function SetSupersampling(s: State, f: nat, r: Rect): Step
  {
    var sized := s.(supersampling := f, rect := r, canvasWidth := r.width,
                    canvasHeight := r.height, width := r.width, height := r.height);
    match CreateImageData(GetWidth(sized), GetHeight(sized))
    case Err(e) => Step(Threw(e), sized)
    case Ok(img) =>
      Step(Returned, sized.(buffer := img, offscreenWidth := r.width * f,
                            offscreenHeight := r.height * f))
  }

  /** `clearBuffer()`: a new blank buffer of the supersampled size. */
  function ClearBuffer(s: State): Step
  {
    match CreateImageData(GetWidth(s), GetHeight(s))
    case Err(e) => Step(Threw(e), s)
    case Ok(img) => Step(Returned, s.(buffer := img))
  }

  /** One typed-array element write `d[i] = v`: dropped when `i` is outside the array. */
  function StoreByte(d: seq<int>, i: int, v: int): seq<int>
  {
    if 0 <= i < |d| then d[i := v] else d
  }

  /** The four writes `d[i] .. d[i+3] = r, g, b, a`, in source order. */
  function PutPixel(d: seq<int>, i: int, p: Pixel): seq<int>
  {
    StoreByte(StoreByte(StoreByte(StoreByte(d, i, p.r), i + 1, p.g), i + 2, p.b), i + 3, p.a)
  }

  /** The byte offset `drawBufferedPixel` computes, including its `- 4`. */
  function ByteIndex(x: int, y: int, w: int): int
  {
    4 * (x + y * w) - 4
  }

  /** `drawBufferedPixel(p)`. */
  function DrawBufferedPixel(s: State, p: Pixel): State
  {
    s.(buffer := s.buffer.(data := PutPixel(s.buffer.data, ByteIndex(p.x, p.y, GetWidth(s)), p)))
  }

  /** The scratch-pixel part of `drawPixel(p)`; the blit is outside the model. */
  function DrawPixel(s: State, p: Pixel): State
  {
    s.(scratch := PutPixel(s.scratch, 0, p))
  }

  // ---------------------------------------------------------------------------
  // Arithmetic helpers

  lemma MulLeft(a: int, b: int, c: int)
    requires 0 <= c && a <= b
    ensures a * c <= b * c
  {
  }

  lemma MulStrict(a: nat, b: nat, c: nat, d: nat)
    requires a < b && c < d
    ensures a * c < b * d
  {
    MulLeft(a, b, c);
    MulLeft(c, d, b);
  }

  lemma AlignedBelow(i: int, n: int)
    requires i % 4 == 0 && n % 4 == 0 && i < n
    ensures i + 4 <= n
  {
  }

  lemma Mul4Aligned(a: nat, b: nat)
    ensures (4 * a * b) % 4 == 0
  {
    assert 4 * a * b == 4 * (a * b);
  }

  lemma Scale4(a: nat, b: nat, c: nat, d: nat)
    requires a * b < c * d
    ensures 4 * a * b < 4 * c * d
  {
    assert 4 * a * b == 4 * (a * b);
    assert 4 * c * d == 4 * (c * d);
  }

  lemma ProductGrows(w: nat, h: nat, f: nat)
    requires w > 0 && h > 0 && f > 1
    ensures w * h < (w * f) * (h * f)
  {
    MulLeft(2, f, w);
    MulLeft(2, f, h);
    MulStrict(w, w * f, h, h * f);
  }

  lemma ByteIndexAligned(x: int, y: int, w: int)
    ensures ByteIndex(x, y, w) % 4 == 0
  {
    assert ByteIndex(x, y, w) == 4 * (x + y * w - 1);
  }

  // ---------------------------------------------------------------------------
  // Construction

  /** A missing or falsy `supersampling` gives 1; any other value is kept. */
  lemma InitialFactorDefault(c: Config)
    ensures InitialFactor(c) >= 1
    ensures c.supersampling == None || c.supersampling == Some(0) ==> InitialFactor(c) == 1
    ensures c.supersampling.Some? && c.supersampling.value != 0 ==>
              InitialFactor(c) == c.supersampling.value
  {
  }

  /**
   * The constructor succeeds exactly for a non-empty rectangle; its buffer is
   * blank and sized to the LOGICAL rectangle, not to getWidth() x getHeight().
   */
  lemma InitEffect(c: Config, r: Rect)
    ensures Init(c, r).Ok? <==> r.width > 0 && r.height > 0
    ensures Init(c, r).Err? ==> Init(c, r).error == IndexSizeError
    ensures Init(c, r).Ok? ==>
      var s := Init(c, r).value;
      && Valid(s)
      && s.supersampling == InitialFactor(c)
      && s.rect == r && s.width == r.width && s.height == r.height
      && s.canvasWidth == r.width && s.canvasHeight == r.height
      && s.offscreenWidth == DefaultCanvasWidth && s.offscreenHeight == DefaultCanvasHeight
      && s.buffer.width == r.width && s.buffer.height == r.height
      && |s.buffer.data| == 4 * r.width * r.height && IsBlank(s.buffer.data)
      && s.scratch == [0, 0, 0, 0]
  {
  }

  /**
   * With a factor above 1, the constructor's buffer is smaller than the
   * 4 * getWidth() * getHeight() bytes that `drawBufferedPixel` addresses.
   */
  lemma InitBufferUndersized(c: Config, r: Rect)
    requires Init(c, r).Ok? && InitialFactor(c) > 1
    ensures |Init(c, r).value.buffer.data| < 4 * GetWidth(Init(c, r).value) * GetHeight(Init(c, r).value)
  {
    var s := Init(c, r).value;
    var f := InitialFactor(c);
    var w, h := r.width, r.height;
    assert |s.buffer.data| == 4 * w * h;
    assert GetWidth(s) == w * f && GetHeight(s) == h * f;
    ProductGrows(w, h, f);
    Scale4(w, h, w * f, h * f);
  }

  // ---------------------------------------------------------------------------
  // setSupersampling

  /**
   * After `setSupersampling(f)` with rectangle r: factor f and logical size r;
   * it returns exactly when r is non-empty, and then getWidth() = r.width * f,
   * getHeight() = r.height * f, the buffer is blank with 4 * getWidth() *
   * getHeight() bytes and the offscreen canvas is (r.width * f) x (r.height * f).
   * When it throws, buffer and offscreen size are those of before.
   */
  lemma SetSupersamplingEffect(s: State, f: nat, r: Rect)
    requires Valid(s) && f >= 1
    ensures var st := SetSupersampling(s, f, r);
      var t := st.post;
      && Valid(t)
      && t.supersampling == f && t.rect == r
      && t.width == r.width && t.height == r.height
      && t.canvasWidth == r.width && t.canvasHeight == r.height
      && t.scratch == s.scratch
      && (st.outcome == Returned <==> r.width > 0 && r.height > 0)
      && (st.outcome == Returned ==>
            && GetWidth(t) == r.width * f && GetHeight(t) == r.height * f
            && t.buffer.width == GetWidth(t) && t.buffer.height == GetHeight(t)
            && |t.buffer.data| == 4 * GetWidth(t) * GetHeight(t) && IsBlank(t.buffer.data)
            && t.offscreenWidth == r.width * f && t.offscreenHeight == r.height * f)
      && (st.outcome != Returned ==>
            && st.outcome == Threw(IndexSizeError)
            && t.buffer == s.buffer
            && t.offscreenWidth == s.offscreenWidth && t.offscreenHeight == s.offscreenHeight)
  {
    if r.width > 0 && r.height > 0 {
      MulStrict(0, r.width, 0, f);
      MulStrict(0, r.height, 0, f);
    }
  }

  /** A second `setSupersampling(f)` with an unchanged rectangle repeats the first exactly. */
  lemma SetSupersamplingIdempotent(s: State, f: nat, r: Rect)
    ensures var once := SetSupersampling(s, f, r);
      SetSupersampling(once.post, f, r) == once
  {
  }

  /** A returning `setSupersampling` leaves nothing for `clearBuffer` to clear. */
  lemma SetSupersamplingLeavesClearBuffer(s: State, f: nat, r: Rect)
    requires SetSupersampling(s, f, r).outcome == Returned
    ensures ClearBuffer(SetSupersampling(s, f, r).post) == SetSupersampling(s, f, r)
  {
  }

  // ---------------------------------------------------------------------------
  // clearBuffer

  /**
   * `clearBuffer()` returns exactly when getWidth() and getHeight() are
   * non-zero, and then replaces the buffer by a blank getWidth() x getHeight()
   * one; nothing else changes, and a throw changes nothing at all.
   */
  lemma ClearBufferEffect(s: State)
    requires Valid(s)
    ensures var st := ClearBuffer(s);
      var t := st.post;
      && Valid(t)
      && (st.outcome == Returned <==> GetWidth(s) > 0 && GetHeight(s) > 0)
      && (st.outcome == Returned ==>
            && t == s.(buffer := t.buffer)
            && t.buffer.width == GetWidth(s) && t.buffer.height == GetHeight(s)
            && |t.buffer.data| == 4 * GetWidth(s) * GetHeight(s) && IsBlank(t.buffer.data))
      && (st.outcome != Returned ==> st.outcome == Threw(IndexSizeError) && t == s)
  {
  }

  /** Clearing twice is clearing once. */
  lemma ClearBufferIdempotent(s: State)
    ensures ClearBuffer(ClearBuffer(s).post) == ClearBuffer(s)
  {
  }

  /** A buffered pixel is erased by the next `clearBuffer()`. */
  lemma ClearBufferErasesDrawing(s: State, p: Pixel)
    ensures ClearBuffer(DrawBufferedPixel(s, p)).outcome == Returned ==>
              ClearBuffer(DrawBufferedPixel(s, p)) == ClearBuffer(s)
  {
  }

  // ---------------------------------------------------------------------------
  // drawBufferedPixel

  /** Four writes starting at an in-range offset set exactly those four bytes. */
  lemma PutPixelInRange(d: seq<int>, i: int, p: Pixel)
    requires 0 <= i && i + 4 <= |d|
    ensures |PutPixel(d, i, p)| == |d|
    ensures PutPixel(d, i, p)[i..i + 4] == [p.r, p.g, p.b, p.a]
    ensures forall j | 0 <= j < |d| && !(i <= j < i + 4) :: PutPixel(d, i, p)[j] == d[j]
  {
  }

  /** Four writes that all fall outside the array change nothing. */
  lemma PutPixelOutOfRange(d: seq<int>, i: int, p: Pixel)
    requires i + 4 <= 0 || |d| <= i
    ensures PutPixel(d, i, p) == d
  {
  }

  /** Byte writes of byte values keep every element a byte. */
  lemma PutPixelKeepsBytes(d: seq<int>, i: int, p: Pixel)
    requires AllBytes(d) && ChannelsInRange(p)
    ensures AllBytes(PutPixel(d, i, p))
  {
    var d1 := StoreByte(d, i, p.r);
    var d2 := StoreByte(d1, i + 1, p.g);
    var d3 := StoreByte(d2, i + 2, p.b);
    assert AllBytes(d1) && AllBytes(d2) && AllBytes(d3);
  }

  /**
   * When the buffer length and the offset are both multiples of 4 (as they
   * always are here), the four writes are all in range or all dropped.
   */
  lemma AllOrNothing(n: int, i: int)
    requires n % 4 == 0 && i % 4 == 0
    ensures (0 <= i < n) <==> (0 <= i && i + 4 <= n)
    ensures !(0 <= i < n) ==> i + 4 <= 0 || n <= i
  {
    if 0 <= i < n {
      AlignedBelow(i, n);
    }
  }

  /**
   * `drawBufferedPixel(p)` changes only the buffer's bytes, keeps the state
   * valid, and either sets the four bytes at ByteIndex to r, g, b, a and keeps
   * every other byte, or, when that offset is outside the buffer, changes nothing.
   */
  lemma DrawBufferedPixelEffect(s: State, p: Pixel)
    requires Valid(s) && ChannelsInRange(p)
    ensures var t := DrawBufferedPixel(s, p);
      var i := ByteIndex(p.x, p.y, GetWidth(s));
      var d := s.buffer.data;
      && Valid(t)
      && t == s.(buffer := s.buffer.(data := t.buffer.data))
      && |t.buffer.data| == |d|
      && (0 <= i < |d| ==>
            && i + 4 <= |d|
            && t.buffer.data[i..i + 4] == [p.r, p.g, p.b, p.a]
            && forall j | 0 <= j < |d| && !(i <= j < i + 4) :: t.buffer.data[j] == d[j])
      && (!(0 <= i < |d|) ==> t == s)
  {
    var w := GetWidth(s);
    var i := ByteIndex(p.x, p.y, w);
    var d := s.buffer.data;
    ByteIndexAligned(p.x, p.y, w);
    Mul4Aligned(s.buffer.width, s.buffer.height);
    AllOrNothing(|d|, i);
    PutPixelKeepsBytes(d, i, p);
    if 0 <= i < |d| {
      PutPixelInRange(d, i, p);
    } else {
      PutPixelOutOfRange(d, i, p);
    }
  }

  /** Channel n (0 = R .. 3 = A) of a pixel, as `PutPixel` stores it at offset i + n. */
  function Channel(p: Pixel, n: int): int
    requires 0 <= n < 4
  {
    [p.r, p.g, p.b, p.a][n]
  }

  /** Byte k after the four writes at i: channel k - i when k is one of them, else unchanged. */
  lemma PutPixelAt(d: seq<int>, i: int, p: Pixel, k: int)
    requires 0 <= k < |d|
    ensures |PutPixel(d, i, p)| == |d|
    ensures PutPixel(d, i, p)[k] == if i <= k < i + 4 then Channel(p, k - i) else d[k]
  {
  }

  /** Four-byte writes at offsets at least four apart can be done in either order. */
  lemma PutPixelsCommute(d: seq<int>, i: int, p: Pixel, j: int, q: Pixel)
    requires i + 4 <= j || j + 4 <= i
    ensures PutPixel(PutPixel(d, i, p), j, q) == PutPixel(PutPixel(d, j, q), i, p)
  {
    var a := PutPixel(PutPixel(d, i, p), j, q);
    var b := PutPixel(PutPixel(d, j, q), i, p);
    forall k | 0 <= k < |d| ensures a[k] == b[k] {
      PutPixelAt(d, i, p, k);
      PutPixelAt(d, j, q, k);
      PutPixelAt(PutPixel(d, i, p), j, q, k);
      PutPixelAt(PutPixel(d, j, q), i, p, k);
    }
  }

  /** A second four-byte write at the same offset overwrites the first entirely. */
  lemma PutPixelOverwrites(d: seq<int>, i: int, p: Pixel, q: Pixel)
    ensures PutPixel(PutPixel(d, i, p), i, q) == PutPixel(d, i, q)
  {
    var a := PutPixel(PutPixel(d, i, p), i, q);
    var b := PutPixel(d, i, q);
    forall k | 0 <= k < |d| ensures a[k] == b[k] {
      PutPixelAt(d, i, p, k);
      PutPixelAt(d, i, q, k);
      PutPixelAt(PutPixel(d, i, p), i, q, k);
    }
  }

  /**
   * Buffered pixels whose offsets differ can be drawn in either order with
   * the same result; the offsets are multiples of 4, so differing offsets
   * never share a byte.
   */
  lemma DrawBufferedPixelsCommute(s: State, p: Pixel, q: Pixel)
    requires ByteIndex(p.x, p.y, GetWidth(s)) != ByteIndex(q.x, q.y, GetWidth(s))
    ensures DrawBufferedPixel(DrawBufferedPixel(s, p), q) == DrawBufferedPixel(DrawBufferedPixel(s, q), p)
  {
    var w := GetWidth(s);
    var i, j := ByteIndex(p.x, p.y, w), ByteIndex(q.x, q.y, w);
    ByteIndexAligned(p.x, p.y, w);
    ByteIndexAligned(q.x, q.y, w);
    PutPixelsCommute(s.buffer.data, i, p, j, q);
  }

  /** Drawing a buffered pixel twice at the same place leaves only the second colour. */
  lemma DrawBufferedPixelOverwrites(s: State, p: Pixel, q: Pixel)
    requires p.x == q.x && p.y == q.y
    ensures DrawBufferedPixel(DrawBufferedPixel(s, p), q) == DrawBufferedPixel(s, q)
  {
    PutPixelOverwrites(s.buffer.data, ByteIndex(p.x, p.y, GetWidth(s)), p, q);
  }

  /** Buffered pixels at distinct in-bounds coordinates can be drawn in either order. */
  lemma DrawBufferedPixelsCommuteInBounds(s: State, p: Pixel, q: Pixel)
    requires 0 <= p.x < GetWidth(s) && 0 <= q.x < GetWidth(s)
    requires (p.x, p.y) != (q.x, q.y)
    ensures DrawBufferedPixel(DrawBufferedPixel(s, p), q) == DrawBufferedPixel(DrawBufferedPixel(s, q), p)
  {
    if ByteIndex(p.x, p.y, GetWidth(s)) == ByteIndex(q.x, q.y, GetWidth(s)) {
      ByteIndexInjective(p.x, p.y, q.x, q.y, GetWidth(s));
    }
    DrawBufferedPixelsCommute(s, p, q);
  }

  /** The pixel at (0, 0) maps to offset -4, so drawing it leaves the state as it was. */
  lemma OriginWriteDropped(s: State, p: Pixel)
    requires p.x == 0 && p.y == 0
    ensures ByteIndex(p.x, p.y, GetWidth(s)) == -4
    ensures DrawBufferedPixel(s, p) == s
  {
  }

  /**
   * For 0 <= x < w, 0 <= y < h other than (0, 0), the offset is that of the
   * pixel one place before (x, y) in row-major order, and it lies in a
   * 4 * w * h byte buffer short of its last pixel.
   */
  lemma ByteIndexShifted(x: int, y: int, w: nat, h: nat)
    requires 0 <= x < w && 0 <= y < h && (x, y) != (0, 0)
    ensures ByteIndex(x, y, w) == 4 * (x + y * w - 1)
    ensures 0 <= x + y * w - 1 < w * h - 1
    ensures 0 <= ByteIndex(x, y, w) && ByteIndex(x, y, w) + 4 <= 4 * w * h - 4
  {
    MulLeft(y, h - 1, w);
    assert (h - 1) * w == h * w - w;
    if y > 0 {
      MulLeft(1, y, w);
    }
  }

  /** Distinct coordinates whose columns lie in [0, w) get distinct offsets, whatever their rows. */
  lemma ByteIndexInjective(x1: int, y1: int, x2: int, y2: int, w: nat)
    requires 0 <= x1 < w && 0 <= x2 < w
    requires ByteIndex(x1, y1, w) == ByteIndex(x2, y2, w)
    ensures x1 == x2 && y1 == y2
  {
    assert x1 + y1 * w == x2 + y2 * w;
    if y1 < y2 {
      MulLeft(y1 + 1, y2, w);
      assert false;
    } else if y2 < y1 {
      MulLeft(y2 + 1, y1, w);
      assert false;
    }
  }

  /**
   * On a buffer sized getWidth() x getHeight() (as after setSupersampling or
   * clearBuffer), drawing an in-bounds pixel other than (0, 0) colours the
   * pixel one place before it, and the buffer's last pixel is never written.
   */
  lemma DrawBufferedPixelShifted(s: State, p: Pixel)
    requires Valid(s) && ChannelsInRange(p)
    requires s.buffer.width == GetWidth(s) && s.buffer.height == GetHeight(s)
    requires 0 <= p.x < GetWidth(s) && 0 <= p.y < GetHeight(s) && (p.x, p.y) != (0, 0)
    ensures var t := DrawBufferedPixel(s, p).buffer.data;
      var k := p.x + p.y * GetWidth(s) - 1;
      var n := |s.buffer.data|;
      && 0 <= k && 4 * k + 4 <= n - 4
      && t[4 * k..4 * k + 4] == [p.r, p.g, p.b, p.a]
      && t[n - 4..] == s.buffer.data[n - 4..]
  {
    var w, h := GetWidth(s), GetHeight(s);
    ByteIndexShifted(p.x, p.y, w, h);
    var i := ByteIndex(p.x, p.y, w);
    var d := s.buffer.data;
    assert |d| == 4 * w * h;
    PutPixelInRange(d, i, p);
    var t := DrawBufferedPixel(s, p).buffer.data;
    assert t[|d| - 4..] == d[|d| - 4..] by {
      forall j | |d| - 4 <= j < |d| ensures t[j] == d[j] { }
    }
  }

  /** A caller drawing a scene: `drawBufferedPixel` on each pixel of `ps`, in order. */
  function DrawBufferedPixels(s: State, ps: seq<Pixel>): State
    decreases |ps|
  {
    if ps == [] then s else DrawBufferedPixels(DrawBufferedPixel(s, ps[0]), ps[1..])
  }

  /**
   * Any sequence of buffered draws changes only the buffer's bytes: the buffer
   * keeps its length, every size and the factor stay, and the state stays valid.
   */
  lemma {:induction false} DrawBufferedPixelsEffect(s: State, ps: seq<Pixel>)
    requires Valid(s)
    requires forall k | 0 <= k < |ps| :: ChannelsInRange(ps[k])
    ensures var t := DrawBufferedPixels(s, ps);
      && Valid(t)
      && t == s.(buffer := s.buffer.(data := t.buffer.data))
      && |t.buffer.data| == |s.buffer.data|
    decreases |ps|
  {
    if ps != [] {
      DrawBufferedPixelEffect(s, ps[0]);
      DrawBufferedPixelsEffect(DrawBufferedPixel(s, ps[0]), ps[1..]);
    }
  }

  /** A `clearBuffer()` that returns erases every buffered pixel drawn before it. */
  lemma {:induction false} ClearBufferErasesScene(s: State, ps: seq<Pixel>)
    requires ClearBuffer(s).outcome == Returned
    ensures ClearBuffer(DrawBufferedPixels(s, ps)) == ClearBuffer(s)
    decreases |ps|
  {
    if ps != [] {
      var s1 := DrawBufferedPixel(s, ps[0]);
      ClearBufferErasesDrawing(s, ps[0]);
      ClearBufferErasesScene(s1, ps[1..]);
    }
  }

  /** A `setSupersampling` that returns discards a buffered pixel drawn before it. */
  lemma SetSupersamplingErasesDrawing(s: State, p: Pixel, f: nat, r: Rect)
    requires SetSupersampling(s, f, r).outcome == Returned
    ensures SetSupersampling(DrawBufferedPixel(s, p), f, r) == SetSupersampling(s, f, r)
  {
  }

  /**
   * A resize (`setSupersampling` with the new rectangle) that returns discards
   * every buffered pixel drawn before it, which is why a caller must redraw.
   */
  lemma {:induction false} SetSupersamplingErasesScene(s: State, ps: seq<Pixel>, f: nat, r: Rect)
    requires SetSupersampling(s, f, r).outcome == Returned
    ensures SetSupersampling(DrawBufferedPixels(s, ps), f, r) == SetSupersampling(s, f, r)
    decreases |ps|
  {
    if ps != [] {
      var s1 := DrawBufferedPixel(s, ps[0]);
      SetSupersamplingErasesDrawing(s, ps[0], f, r);
      SetSupersamplingErasesScene(s1, ps[1..], f, r);
    }
  }

  /**
   * Before the first setSupersampling, with factor 2 on a 2 x 2 rectangle,
   * the buffer is 2 pixels wide while the offset uses getWidth() = 4: the
   * in-bounds pixel (0, 1) lands on bytes 12..15, the buffer's last pixel,
   * which is pixel (1, 1) of the buffer rather than the one before (0, 1).
   */
  lemma ConstructorBufferOffsetsDiffer(p: Pixel)
    requires p.x == 0 && p.y == 1
    ensures Init(Config(Some(2)), Rect(2, 2)).Ok?
    ensures var s := Init(Config(Some(2)), Rect(2, 2)).value;
      var t := DrawBufferedPixel(s, p).buffer.data;
      && GetWidth(s) == 4 && GetHeight(s) == 4
      && s.buffer.width == 2 && |s.buffer.data| == 16
      && ByteIndex(p.x, p.y, GetWidth(s)) == 12
      && t[12..16] == [p.r, p.g, p.b, p.a]
  {
    var s := Init(Config(Some(2)), Rect(2, 2)).value;
    PutPixelInRange(s.buffer.data, 12, p);
  }

  // ---------------------------------------------------------------------------
  // drawPixel

  /**
   * `drawPixel(p)` sets the scratch pixel to r, g, b, a, keeps the state
   * valid, and touches neither the buffer nor any size.
   */
  lemma DrawPixelEffect(s: State, p: Pixel)
    requires Valid(s) && ChannelsInRange(p)
    ensures var t := DrawPixel(s, p);
      && Valid(t)
      && t.scratch == [p.r, p.g, p.b, p.a]
      && t == s.(scratch := t.scratch)
  {
    var e := PutPixel(s.scratch, 0, p);
    PutPixelInRange(s.scratch, 0, p);
    PutPixelKeepsBytes(s.scratch, 0, p);
    assert e == e[0..4];
    assert DrawPixel(s, p).buffer == s.buffer;
  }

  /** The immediate and the buffered path do not interfere: they commute. */
  lemma DrawPathsCommute(s: State, p: Pixel, q: Pixel)
    ensures DrawPixel(DrawBufferedPixel(s, p), q) == DrawBufferedPixel(DrawPixel(s, q), p)
  {
  }

  // ---------------------------------------------------------------------------
  // A worked scenario

  /**
   * Factor 2 on a 100 x 50 rectangle: getWidth() = 200, getHeight() = 100,
   * and the buffered pixel (10, 10) in red lands at byte 8036, the pixel
   * before (10, 10).
   */
  lemma ScenarioFactorTwo(p: Pixel)
    requires p == Pixel(10, 10, 255, 0, 0, 255)
    ensures Init(Config(Some(2)), Rect(100, 50)).Ok?
    ensures var s0 := Init(Config(Some(2)), Rect(100, 50)).value;
      var st := SetSupersampling(s0, 2, Rect(100, 50));
      var t := DrawBufferedPixel(st.post, p);
      && st.outcome == Returned
      && GetWidth(st.post) == 200 && GetHeight(st.post) == 100
      && ByteIndex(p.x, p.y, GetWidth(st.post)) == 8036
      && t.buffer.data[8036..8040] == [255, 0, 0, 255]
  {
    var s0 := Init(Config(Some(2)), Rect(100, 50)).value;
    InitEffect(Config(Some(2)), Rect(100, 50));
    SetSupersamplingEffect(s0, 2, Rect(100, 50));
    var s1 := SetSupersampling(s0, 2, Rect(100, 50)).post;
    PutPixelInRange(s1.buffer.data, 8036, p);
  }
}
