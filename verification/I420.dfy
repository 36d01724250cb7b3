/** Packing an I420 frame into one buffer, copying it to the renderer, and reading it back as textures. */
module I420 {

  type Byte = x: int | 0 <= x < 256

  // ---- the layout --------------------------------------------------------------------------------

  const MAX_VIDEO_W: nat := 1920
  const MAX_VIDEO_H: nat := 1280
  const CAPACITY: nat := MAX_VIDEO_W * MAX_VIDEO_H
  const INT_MAX: int := 0x7fff_ffff

  function BufferSize(w: nat, h: nat): nat { w * h * 3 / 2 }

  function ChromaBytes(w: nat, h: nat): nat { w * h / 4 }

  /** Where the packer puts V, and where the renderer looks for it. */
  function WriterV(w: nat, h: nat): nat { w * h + w * h / 4 }

  function ReaderV(w: nat, h: nat): nat { w * h * 5 / 4 }

  /** Width and height of a source chroma plane: rounded up. */
  function Half(n: nat): nat { (n + 1) / 2 }

  /** OpenGL reads texture rows at a stride rounded up to 4 bytes, the default unpack alignment. */
  function RowStride(width: nat): nat { (width + 3) / 4 * 4 }

  datatype Plane = Y | U | V

  function PlaneOffset(p: Plane, w: nat, h: nat): nat {
    match p
    case Y => 0
    case U => w * h
    case V => ReaderV(w, h)
  }

  function PlaneWidth(p: Plane, w: nat): nat { if p.Y? then w else w / 2 }

  function PlaneHeight(p: Plane, h: nat): nat { if p.Y? then h else h / 2 }

  /** The byte the renderer takes for a texel. */
  function TexelIndex(p: Plane, w: nat, h: nat, r: nat, c: nat): nat {
    PlaneOffset(p, w, h) + r * RowStride(PlaneWidth(p, w)) + c
  }

  lemma MulMonotone(a: nat, b: nat, c: nat, d: nat)
    requires a <= c && b <= d
    ensures a * b <= c * d
  {
    assert a * b <= c * b;
    assert c * b <= c * d;
  }

  lemma HalvesProduct(w: nat, h: nat)
    ensures 4 * ((w / 2) * (h / 2)) <= w * h <= 4 * (Half(w) * Half(h))
  {
    MulMonotone(2 * (w / 2), 2 * (h / 2), w, h);
    MulMonotone(w, h, 2 * Half(w), 2 * Half(h));
    assert (2 * (w / 2)) * (2 * (h / 2)) == 4 * ((w / 2) * (h / 2));
    assert (2 * Half(w)) * (2 * Half(h)) == 4 * (Half(w) * Half(h));
  }

  lemma Quarters(n: nat, inner: nat, outer: nat)
    requires 4 * inner <= n <= 4 * outer
    ensures inner <= n / 4 <= outer
    ensures n * 5 / 4 == n + n / 4
    ensures n + n / 4 + n / 4 <= n * 3 / 2 <= n + n / 4 + n / 4 + 1
  {
  }

  /** For every frame the renderer has room for: the packed planes follow each other without overlap inside
      the buffer, the chroma copies stay inside tight source planes, the reader's V is the writer's, a tight
      chroma plane is inside the bytes written, and no intermediate leaves the range of int. */
  lemma LayoutAgrees(w: nat, h: nat)
    requires w * h <= CAPACITY
    ensures WriterV(w, h) + ChromaBytes(w, h) <= BufferSize(w, h) <= BufferSize(MAX_VIDEO_W, MAX_VIDEO_H)
    ensures BufferSize(w, h) - (WriterV(w, h) + ChromaBytes(w, h)) <= 1
    ensures ChromaBytes(w, h) <= Half(w) * Half(h)
    ensures ReaderV(w, h) == WriterV(w, h)
    ensures (w / 2) * (h / 2) <= ChromaBytes(w, h)
    ensures w * h * 5 <= INT_MAX && w * h * 3 <= INT_MAX
  {
    HalvesProduct(w, h);
    Quarters(w * h, (w / 2) * (h / 2), Half(w) * Half(h));
  }

  /** The renderer's buffer holds exactly the frames of at most 1920 * 1280 samples. */
  lemma FitsExactly(w: nat, h: nat)
    ensures BufferSize(w, h) <= BufferSize(MAX_VIDEO_W, MAX_VIDEO_H) <==> w * h <= CAPACITY
  {
    TripledHalves(w * h);
  }

  lemma TripledHalves(n: nat)
    ensures n * 3 / 2 <= CAPACITY * 3 / 2 <==> n <= CAPACITY
  {
  }

  // ---- frames ------------------------------------------------------------------------------------

  /** A frame with tight strides: width for Y, half the width rounded up for U and V. */
  datatype Frame = Frame(w: nat, h: nat, y: seq<Byte>, u: seq<Byte>, v: seq<Byte>) {
    predicate Tight() {
      |y| == w * h && |u| == Half(w) * Half(h) && |v| == Half(w) * Half(h)
    }

    function Samples(p: Plane): seq<Byte> {
      match p
      case Y => y
      case U => u
      case V => v
    }

    function SampleIndex(p: Plane, r: nat, c: nat): nat {
      r * (if p.Y? then w else Half(w)) + c
    }
  }

  /** The bytes OnFrame writes. */
  function Packed(f: Frame): (r: seq<Byte>)
    requires f.Tight()
    ensures |r| == WriterV(f.w, f.h) + ChromaBytes(f.w, f.h)
  {
    HalvesProduct(f.w, f.h);
    f.y + f.u[..ChromaBytes(f.w, f.h)] + f.v[..ChromaBytes(f.w, f.h)]
  }

  lemma InPlane(r: nat, c: nat, width: nat, height: nat)
    requires r < height && c < width
    ensures r * width + c < width * height
  {
    MulMonotone(r + 1, width, height, width);
    assert (r + 1) * width == r * width + width;
  }

  // ---- what the renderer shows -------------------------------------------------------------------

  /** Every texel of the packed frame is the sample it stands for. */
  ghost predicate ShownExactly(f: Frame)
    requires f.Tight()
  {
    forall p: Plane, r: nat, c: nat :: r < PlaneHeight(p, f.h) && c < PlaneWidth(p, f.w) ==> TexelIsSample(f, p, r, c)
  }

  ghost predicate TexelIsSample(f: Frame, p: Plane, r: nat, c: nat)
    requires f.Tight()
  {
    var i, j := TexelIndex(p, f.w, f.h, r, c), f.SampleIndex(p, r, c);
    i < |Packed(f)| && j < |f.Samples(p)| && Packed(f)[i] == f.Samples(p)[j]
  }

  ghost predicate FrameOf(f: Frame, w: nat, h: nat) { f.w == w && f.h == h && f.Tight() }

  function Spot(n: nat, k: nat): (s: seq<Byte>)
    ensures |s| == n && forall i :: 0 <= i < n ==> s[i] == if i == k then 1 else 0
  {
    seq(n, i => if i == k then 1 else 0)
  }

  lemma PackedAt(f: Frame, i: nat)
    requires f.Tight() && i < |Packed(f)|
    ensures var size, q := f.w * f.h, ChromaBytes(f.w, f.h);
      && q <= |f.u| && q <= |f.v|
      && Packed(f)[i] == if i < size then f.y[i] else if i < size + q then f.u[i - size] else f.v[i - size - q]
  {
    HalvesProduct(f.w, f.h);
  }

  lemma StrideIsTight(w: nat)
    requires w % 4 == 0
    ensures RowStride(w) == w && Half(w) == w / 2
  {
    var k := w / 4;
    assert w == 4 * k && w / 2 == 2 * k;
    assert (4 * k + 3) / 4 == k && (4 * k + 1) / 2 == 2 * k;
  }

  /** The byte at a texel's index is the sample's: `k` is the position inside the plane. */
  lemma PlaneAt(f: Frame, p: Plane, k: nat)
    requires f.Tight() && k < if p.Y? then f.w * f.h else ChromaBytes(f.w, f.h)
    ensures var i := PlaneOffset(p, f.w, f.h) + k;
      i < |Packed(f)| && k < |f.Samples(p)| && Packed(f)[i] == f.Samples(p)[k]
  {
    HalvesProduct(f.w, f.h);
    Quarters(f.w * f.h, (f.w / 2) * (f.h / 2), Half(f.w) * Half(f.h));
    PackedAt(f, PlaneOffset(p, f.w, f.h) + k);
  }

  /** Every plane has tight texture rows, or no second row. */
  predicate Aligned(w: nat, h: nat) { h <= 1 || (w % 4 == 0 && h <= 3) || w % 8 == 0 }

  lemma InsidePlane(p: Plane, w: nat, h: nat, r: nat, c: nat)
    requires r < PlaneHeight(p, h) && c < PlaneWidth(p, w)
    ensures r * PlaneWidth(p, w) + c < if p.Y? then w * h else ChromaBytes(w, h)
  {
    InPlane(r, c, PlaneWidth(p, w), PlaneHeight(p, h));
    HalvesProduct(w, h);
  }

  /** Where a row is not the first, the texture stride and the source stride are both the plane's width. */
  lemma RowsAreTight(p: Plane, w: nat, h: nat)
    requires Aligned(w, h) && PlaneHeight(p, h) >= 2
    ensures RowStride(PlaneWidth(p, w)) == PlaneWidth(p, w) && (p.Y? || Half(w) == PlaneWidth(p, w))
  {
    var k := w / 8;
    if w % 8 == 0 {
      assert w == 4 * (2 * k) && w / 2 == 4 * k;
      StrideIsTight(4 * (2 * k));
      StrideIsTight(4 * k);
    } else {
      StrideIsTight(w);
    }
  }

  lemma AlignedTexel(f: Frame, p: Plane, r: nat, c: nat)
    requires f.Tight() && Aligned(f.w, f.h) && r < PlaneHeight(p, f.h) && c < PlaneWidth(p, f.w)
    ensures TexelIsSample(f, p, r, c)
  {
    var k := r * PlaneWidth(p, f.w) + c;
    assert f.SampleIndex(p, r, c) == k && TexelIndex(p, f.w, f.h, r, c) == PlaneOffset(p, f.w, f.h) + k by {
      if r > 0 {
        RowsAreTight(p, f.w, f.h);
      }
    }
    InsidePlane(p, f.w, f.h, r, c);
    PlaneAt(f, p, k);
  }

  lemma StrideIsPadded(w: nat)
    requires w % 4 != 0
    ensures w < RowStride(w) <= w + 3
  {
  }

  lemma HalfStrideIsPadded(w: nat)
    requires w % 8 == 4
    ensures RowStride(w / 2) == w / 2 + 2 && Half(w) == w / 2 >= 2
  {
    var k := w / 8;
    assert w == 8 * k + 4 && w / 2 == 4 * k + 2;
    assert (4 * k + 5) / 4 == k + 1 && (8 * k + 5) / 2 == 4 * k + 2;
  }

  lemma RoomForRows(w: nat, h: nat)
    requires h >= 4
    ensures w <= ChromaBytes(w, h) <= Half(w) * Half(h)
  {
    MulMonotone(w, 4, w, h);
    HalvesProduct(w, h);
  }

  /** A frame that is black but for the first sample of its second row is not shown as it is when the
      rows are padded. */
  lemma MisalignedY(w: nat, h: nat) returns (f: Frame)
    requires w % 4 != 0 && h >= 2
    ensures FrameOf(f, w, h) && !ShownExactly(f)
  {
    MulMonotone(w, 2, w, h);
    StrideIsPadded(w);
    var n, size, stride := Half(w) * Half(h), w * h, RowStride(w);
    f := Frame(w, h, Spot(size, w), Spot(n, n), Spot(n, n));
    assert TexelIndex(Y, w, h, 1, 0) == stride && f.SampleIndex(Y, 1, 0) == w;
    if stride < |Packed(f)| {
      PackedAt(f, stride);
    }
    assert !TexelIsSample(f, Y, 1, 0);
  }

  lemma MisalignedU(w: nat, h: nat) returns (f: Frame)
    requires w % 8 == 4 && h >= 4
    ensures FrameOf(f, w, h) && !ShownExactly(f)
  {
    RoomForRows(w, h);
    HalfStrideIsPadded(w);
    var n, size, k := Half(w) * Half(h), w * h, w / 2;
    f := Frame(w, h, Spot(size, size), Spot(n, k), Spot(n, n));
    assert TexelIndex(U, w, h, 1, 0) == size + k + 2 && f.SampleIndex(U, 1, 0) == k;
    PackedAt(f, size + k + 2);
    assert !TexelIsSample(f, U, 1, 0);
  }

  /** Every frame of a size is shown as it is exactly when no texture row after the first is padded: a
      width that is a multiple of 8, or of 4 below four rows, or at most one row. In any other size the
      padding skews some frame. */
  lemma ShownExactlyWhenAligned(w: nat, h: nat)
    ensures (forall f | FrameOf(f, w, h) :: ShownExactly(f)) <==> Aligned(w, h)
  {
    if Aligned(w, h) {
      forall f | FrameOf(f, w, h) ensures ShownExactly(f) {
        forall p: Plane, r: nat, c: nat | r < PlaneHeight(p, h)
            && c < PlaneWidth(p, w) ensures TexelIsSample(f, p, r, c) {
          AlignedTexel(f, p, r, c);
        }
      }
    } else {
      var f: Frame;
      if w % 4 != 0 {
        f := MisalignedY(w, h);
      } else {
        f := MisalignedU(w, h);
      }
    }
  }

  // ---- the camera side ---------------------------------------------------------------------------

  /** Copying a plane row by row, as I420Buffer::Copy does. */
  function CopyRows(s: seq<Byte>, offset: nat, stride: nat, width: nat, rows: nat): (r: seq<Byte>)
    requires width <= stride && offset + rows * stride <= |s|
    ensures |r| == rows * width
  {
    if rows == 0 then []
    else
      assert rows * stride == (rows - 1) * stride + stride && rows * width == (rows - 1) * width + width;
      CopyRows(s, offset, stride, width, rows - 1)
      + s[offset + (rows - 1) * stride..offset + (rows - 1) * stride + width]
  }

  lemma {:induction false} TightRowsAreContiguous(s: seq<Byte>, offset: nat, width: nat, rows: nat)
    requires offset + rows * width <= |s|
    ensures CopyRows(s, offset, width, width, rows) == s[offset..offset + rows * width]
    decreases rows
  {
    if rows > 0 {
      assert rows * width == (rows - 1) * width + width;
      TightRowsAreContiguous(s, offset, width, rows - 1);
      assert s[offset..offset + rows * width]
          == s[offset..offset + (rows - 1) * width] + s[offset + (rows - 1) * width..offset + rows * width];
    }
  }

  lemma PlaneIsSlice(s: seq<Byte>, offset: nat, width: nat, rows: nat, size: nat)
    requires width * rows == size && offset + size <= |s|
    ensures rows * width == size && CopyRows(s, offset, width, width, rows) == s[offset..offset + size]
  {
    assert rows * width == size;
    TightRowsAreContiguous(s, offset, width, rows);
  }

  /** The planes the camera thread cuts its buffer into, for even dimensions. */
  function Split(s: seq<Byte>, w: nat, h: nat): (f: Frame)
    requires w % 2 == 0 && h % 2 == 0 && |s| == BufferSize(w, h)
    ensures FrameOf(f, w, h)
  {
    EvenSizes(w, h);
    var size := w * h;
    assert h * w == w * h && (h / 2) * (w / 2) == (w / 2) * (h / 2);
    Frame(w, h, CopyRows(s, 0, w, w, h),
          CopyRows(s, size, w / 2, Half(w), Half(h)),
          CopyRows(s, size + size / 4, w / 2, Half(w), Half(h)))
  }

  lemma EvenSizes(w: nat, h: nat)
    requires w % 2 == 0 && h % 2 == 0
    ensures Half(w) == w / 2 && Half(h) == h / 2
    ensures ChromaBytes(w, h) == (w / 2) * (h / 2)
    ensures BufferSize(w, h) == w * h + 2 * ((w / 2) * (h / 2))
  {
    assert w * h == (2 * (w / 2)) * (2 * (h / 2)) == 4 * ((w / 2) * (h / 2));
  }

  lemma SplitIsSlices(s: seq<Byte>, w: nat, h: nat)
    requires w % 2 == 0 && h % 2 == 0 && |s| == BufferSize(w, h)
    ensures var n, q := w * h, w * h / 4; Split(s, w, h) == Frame(w, h, s[..n], s[n..n + q], s[n + q..])
  {
    EvenSizes(w, h);
    var n, q := w * h, w * h / 4;
    PlaneIsSlice(s, 0, w, h, n);
    PlaneIsSlice(s, n, w / 2, h / 2, q);
    PlaneIsSlice(s, n + q, w / 2, h / 2, q);
  }

  /** Splitting a camera buffer and packing the planes gives the buffer back, and packing a frame and
      splitting the bytes gives the frame back. */
  lemma PackAndSplitAreInverse(s: seq<Byte>, f: Frame, w: nat, h: nat)
    requires w % 2 == 0 && h % 2 == 0 && |s| == BufferSize(w, h) && FrameOf(f, w, h)
    ensures Packed(Split(s, w, h)) == s
    ensures |Packed(f)| == BufferSize(w, h) && Split(Packed(f), w, h) == f
  {
    EvenSizes(w, h);
    SplitIsSlices(s, w, h);
    SplitIsSlices(Packed(f), w, h);
  }

  // ---- the code ----------------------------------------------------------------------------------

  method Memcpy(dst: array<Byte>, offset: nat, src: seq<Byte>, n: nat)
    requires offset + n <= dst.Length && n <= |src|
    modifies dst
    ensures dst[..] == old(dst[..offset]) + src[..n] + old(dst[offset + n..])
  {
    forall i | 0 <= i < n {
      dst[offset + i] := src[i];
    }
  }

  class VideoRender {
    var mVideoW: nat
    var mVideoH: nat
    const pBufYuv420p: array<Byte>
    var viewFlag: bool

    constructor ()
      ensures pBufYuv420p.Length == BufferSize(MAX_VIDEO_W, MAX_VIDEO_H) && fresh(pBufYuv420p)
      ensures mVideoW == mVideoH == 0 && !viewFlag
    {
      mVideoW, mVideoH, viewFlag := 0, 0, false;
      pBufYuv420p := new Byte[BufferSize(MAX_VIDEO_W, MAX_VIDEO_H)];
    }

    method SetVideoSize(width: nat, height: nat)
      modifies this`mVideoW, this`mVideoH
      ensures mVideoW == width && mVideoH == height
    {
      mVideoW, mVideoH := width, height;
    }

    method SetYUVData(yuvData: array<Byte>)
      requires BufferSize(mVideoW, mVideoH) <= yuvData.Length && BufferSize(mVideoW, mVideoH) <= pBufYuv420p.Length
      modifies pBufYuv420p
      ensures var n := BufferSize(mVideoW, mVideoH);
        pBufYuv420p[..] == old(yuvData[..n]) + old(pBufYuv420p[n..])
    {
      Memcpy(pBufYuv420p, 0, yuvData[..], BufferSize(mVideoW, mVideoH));
    }

    method SetViewStated(flag: bool)
      modifies this`viewFlag
      ensures viewFlag == flag
    {
      viewFlag := flag;
    }

    /** The texel paintGL hands to OpenGL, once a frame is there. */
    function Texel(p: Plane, r: nat, c: nat): Byte
      reads this, pBufYuv420p
      requires TexelIndex(p, mVideoW, mVideoH, r, c) < pBufYuv420p.Length
    {
      pBufYuv420p[TexelIndex(p, mVideoW, mVideoH, r, c)]
    }
  }

  /** The buffer OnFrame fills: an odd size may leave its last byte as it was allocated. */
  method Pack(f: Frame) returns (yuvBuffer: array<Byte>)
    requires f.Tight()
    ensures fresh(yuvBuffer) && yuvBuffer.Length == BufferSize(f.w, f.h) >= |Packed(f)|
    ensures yuvBuffer[..|Packed(f)|] == Packed(f)
  {
    HalvesProduct(f.w, f.h);
    var size := f.w * f.h;
    yuvBuffer := new Byte[BufferSize(f.w, f.h)];
    Memcpy(yuvBuffer, 0, f.y, size);
    assert yuvBuffer[..size] == f.y;
    Memcpy(yuvBuffer, size, f.u, size / 4);
    assert yuvBuffer[..size + size / 4] == f.y + f.u[..size / 4];
    Memcpy(yuvBuffer, size + size / 4, f.v, size / 4);
  }

  /** WebrtcVideoFrame::OnFrame, and the same code in VcmCapture::OnFrame. A widget that is not found
      makes the frame be dropped. */
  method OnFrame(f: Frame, paintWidget: VideoRender?)
    requires f.Tight()
    requires paintWidget != null ==> BufferSize(f.w, f.h) <= paintWidget.pBufYuv420p.Length
    modifies if paintWidget == null then {} else {paintWidget, paintWidget.pBufYuv420p}
    ensures paintWidget != null ==>
      && paintWidget.mVideoW == f.w && paintWidget.mVideoH == f.h && paintWidget.viewFlag
      && |Packed(f)| <= paintWidget.pBufYuv420p.Length
      && paintWidget.pBufYuv420p[..|Packed(f)|] == Packed(f)
      && paintWidget.pBufYuv420p[BufferSize(f.w, f.h)..] == old(paintWidget.pBufYuv420p[BufferSize(f.w, f.h)..])
  {
    if paintWidget != null {
      var yuvBuffer := Pack(f);
      var n := |Packed(f)|;
      paintWidget.SetVideoSize(f.w, f.h);
      paintWidget.SetYUVData(yuvBuffer);
      paintWidget.SetViewStated(true);
      assert paintWidget.pBufYuv420p[..][..n] == yuvBuffer[..][..n];
      assert paintWidget.pBufYuv420p[..n] == paintWidget.pBufYuv420p[..][..n];
      assert yuvBuffer[..n] == yuvBuffer[..][..n];
    }
  }

  /** After OnFrame, a frame of an aligned size is what the renderer paints. */
  lemma PaintsTheFrame(f: Frame, widget: VideoRender, p: Plane, r: nat, c: nat)
    requires f.Tight() && Aligned(f.w, f.h) && r < PlaneHeight(p, f.h) && c < PlaneWidth(p, f.w)
    requires widget.mVideoW == f.w && widget.mVideoH == f.h
    requires |Packed(f)| <= widget.pBufYuv420p.Length && widget.pBufYuv420p[..|Packed(f)|] == Packed(f)
    ensures f.SampleIndex(p, r, c) < |f.Samples(p)| && TexelIndex(p, f.w, f.h, r, c) < widget.pBufYuv420p.Length
    ensures widget.Texel(p, r, c) == f.Samples(p)[f.SampleIndex(p, r, c)]
  {
    AlignedTexel(f, p, r, c);
    assert Packed(f)[TexelIndex(p, f.w, f.h, r, c)] == widget.pBufYuv420p[TexelIndex(p, f.w, f.h, r, c)];
  }

  /** One round of the camera thread: the renderer ends up with the camera's bytes. */
  method SendFrame(camera: array<Byte>, w: nat, h: nat, paintWidget: VideoRender)
    requires w % 2 == 0 && h % 2 == 0 && camera.Length == BufferSize(w, h) <= paintWidget.pBufYuv420p.Length
    requires camera != paintWidget.pBufYuv420p
    modifies paintWidget, paintWidget.pBufYuv420p
    ensures paintWidget.mVideoW == w && paintWidget.mVideoH == h && paintWidget.viewFlag
    ensures paintWidget.pBufYuv420p[..BufferSize(w, h)] == camera[..]
  {
    var f := Split(camera[..], w, h);
    PackAndSplitAreInverse(camera[..], f, w, h);
    OnFrame(f, paintWidget);
  }
}
