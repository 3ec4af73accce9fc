/** The OpenCV surface the bridge uses: matrix types, the colour conversion codes named in the
    conversion table, conversion plans, a pixel matrix value, and the library calls
    (cvtColor, convertTo, imencode, imdecode, ...) as an injected `Backend` of functions whose
    pixel semantics the model leaves open. */
module OpenCv {
  import opened Wrappers
  import opened JavaLang

  type byte = b: int | 0 <= b < 256

  /** A Java `int` matrix dimension. */
  type Dim = d: int | 0 <= d <= IntMax

  /** Element depths of a CvType. */
  datatype Depth = CV_8U | CV_8S | CV_16U | CV_16S | CV_32S | CV_32F | CV_64F

  /** A channel count: OpenCV encodes it as `(type >> 3) + 1` with at most CV_CN_MAX = 512
      channels, so it is never zero. */
  type Channels = c: int | 1 <= c <= 512 witness 1

  /** A matrix type CV_<depth>C<channels>. */
  datatype CvType = CvType(depth: Depth, channels: Channels)

  const CV_8UC1 := CvType(CV_8U, 1)
  const CV_8UC2 := CvType(CV_8U, 2)
  const CV_8UC3 := CvType(CV_8U, 3)
  const CV_8UC4 := CvType(CV_8U, 4)
  const CV_16UC1 := CvType(CV_16U, 1)
  const CV_16UC3 := CvType(CV_16U, 3)
  const CV_16UC4 := CvType(CV_16U, 4)

  /** The colour spaces OpenCV's conversion codes are named after (COLOR_<from>2<to>). */
  datatype ColorSpace = GraySpace | RgbSpace | BgrSpace | RgbaSpace | BgraSpace | YuvUyvySpace
                      | BayerBGSpace | BayerGBSpace | BayerRGSpace | BayerGRSpace

  /** The Imgproc colour conversion codes that occur in the conversion tables. */
  datatype ColorCode =
    | COLOR_GRAY2RGB | COLOR_GRAY2BGR | COLOR_GRAY2RGBA | COLOR_GRAY2BGRA
    | COLOR_RGB2GRAY | COLOR_RGB2BGR | COLOR_RGB2RGBA | COLOR_RGB2BGRA
    | COLOR_BGR2GRAY | COLOR_BGR2RGB | COLOR_BGR2RGBA | COLOR_BGR2BGRA
    | COLOR_RGBA2GRAY | COLOR_RGBA2RGB | COLOR_RGBA2BGR | COLOR_RGBA2BGRA
    | COLOR_BGRA2GRAY | COLOR_BGRA2RGB | COLOR_BGRA2BGR | COLOR_BGRA2RGBA
    | COLOR_YUV2GRAY_UYVY | COLOR_YUV2RGB_UYVY | COLOR_YUV2BGR_UYVY
    | COLOR_YUV2RGBA_UYVY | COLOR_YUV2BGRA_UYVY
    | COLOR_BayerBG2GRAY | COLOR_BayerBG2RGB | COLOR_BayerBG2BGR
    | COLOR_BayerRG2GRAY | COLOR_BayerRG2RGB | COLOR_BayerRG2BGR
    | COLOR_BayerGR2GRAY | COLOR_BayerGR2RGB | COLOR_BayerGR2BGR
    | COLOR_BayerGB2GRAY | COLOR_BayerGB2RGB | COLOR_BayerGB2BGR
  {
    /** The colour space a code converts from, as its name says. */
    function From(): ColorSpace {
      match this
      case COLOR_GRAY2RGB | COLOR_GRAY2BGR | COLOR_GRAY2RGBA | COLOR_GRAY2BGRA => GraySpace
      case COLOR_RGB2GRAY | COLOR_RGB2BGR | COLOR_RGB2RGBA | COLOR_RGB2BGRA => RgbSpace
      case COLOR_BGR2GRAY | COLOR_BGR2RGB | COLOR_BGR2RGBA | COLOR_BGR2BGRA => BgrSpace
      case COLOR_RGBA2GRAY | COLOR_RGBA2RGB | COLOR_RGBA2BGR | COLOR_RGBA2BGRA => RgbaSpace
      case COLOR_BGRA2GRAY | COLOR_BGRA2RGB | COLOR_BGRA2BGR | COLOR_BGRA2RGBA => BgraSpace
      case COLOR_YUV2GRAY_UYVY | COLOR_YUV2RGB_UYVY | COLOR_YUV2BGR_UYVY
         | COLOR_YUV2RGBA_UYVY | COLOR_YUV2BGRA_UYVY => YuvUyvySpace
      case COLOR_BayerBG2GRAY | COLOR_BayerBG2RGB | COLOR_BayerBG2BGR => BayerBGSpace
      case COLOR_BayerRG2GRAY | COLOR_BayerRG2RGB | COLOR_BayerRG2BGR => BayerRGSpace
      case COLOR_BayerGR2GRAY | COLOR_BayerGR2RGB | COLOR_BayerGR2BGR => BayerGRSpace
      case COLOR_BayerGB2GRAY | COLOR_BayerGB2RGB | COLOR_BayerGB2BGR => BayerGBSpace
    }

    /** The colour space a code converts to, as its name says. */
    function To(): ColorSpace {
      match this
      case COLOR_RGB2GRAY | COLOR_BGR2GRAY | COLOR_RGBA2GRAY | COLOR_BGRA2GRAY
         | COLOR_YUV2GRAY_UYVY | COLOR_BayerBG2GRAY | COLOR_BayerRG2GRAY
         | COLOR_BayerGR2GRAY | COLOR_BayerGB2GRAY => GraySpace
      case COLOR_GRAY2RGB | COLOR_BGR2RGB | COLOR_RGBA2RGB | COLOR_BGRA2RGB
         | COLOR_YUV2RGB_UYVY | COLOR_BayerBG2RGB | COLOR_BayerRG2RGB
         | COLOR_BayerGR2RGB | COLOR_BayerGB2RGB => RgbSpace
      case COLOR_GRAY2BGR | COLOR_RGB2BGR | COLOR_RGBA2BGR | COLOR_BGRA2BGR
         | COLOR_YUV2BGR_UYVY | COLOR_BayerBG2BGR | COLOR_BayerRG2BGR
         | COLOR_BayerGR2BGR | COLOR_BayerGB2BGR => BgrSpace
      case COLOR_GRAY2RGBA | COLOR_RGB2RGBA | COLOR_BGR2RGBA | COLOR_BGRA2RGBA
         | COLOR_YUV2RGBA_UYVY => RgbaSpace
      case COLOR_GRAY2BGRA | COLOR_RGB2BGRA | COLOR_BGR2BGRA | COLOR_RGBA2BGRA
         | COLOR_YUV2BGRA_UYVY => BgraSpace
    }
  }

  /** One entry of a conversion plan: SAME_FORMAT (the int -1 in the source) or an OpenCV
      colour code (OpenCV's codes are non-negative ints, so never equal to SAME_FORMAT). */
  datatype Step = SameFormat | Color(code: ColorCode)

  /** Which scale factor a depth conversion hands to convertTo: none, 65535/255 or 255/65535. */
  datatype Scale = Unscaled | Scale8To16 | Scale16To8

  /** A pixel matrix: its size, its type and its bytes in row-major order. */
  datatype Mat = Mat(rows: Dim, cols: Dim, cvType: CvType, data: seq<byte>) {

    /** `Mat.total()`: the number of elements. */
    function Total(): (n: nat)
      ensures IsLong(n)
    {
      TotalFitsLong(rows, cols);
      rows * cols
    }

    function Width(): Dim { cols }

    function Height(): Dim { rows }

    function Channels(): int { cvType.channels }

    /** `Mat.get(0, 0, byte[n])`: a fresh zero-filled array of length n into which the
        matrix's leading bytes are copied. */
    function GetBytes(n: nat): (b: seq<byte>)
      ensures |b| == n
      ensures forall i :: 0 <= i < n ==> b[i] == if i < |data| then data[i] else 0
    {
      if n <= |data| then data[..n] else data + seq(n - |data|, _ => 0)
    }
  }

  lemma TotalFitsLong(rows: Dim, cols: Dim)
    ensures IsLong(rows * cols)
  {
    MulMonotone(rows, IntMax, cols);
    MulMonotone(cols, IntMax, IntMax);
    assert rows * cols <= IntMax * IntMax;
  }

  lemma {:induction false} MulMonotone(a: nat, b: nat, c: nat)
    requires a <= b
    ensures a * c <= b * c
  {
    if c > 0 {
      MulMonotone(a, b, c - 1);
      assert a * c == a * (c - 1) + a;
      assert b * c == b * (c - 1) + b;
    }
  }

  /** `new Mat()`: no rows, no columns, type CV_8UC1. */
  const EmptyMat := Mat(0, 0, CV_8UC1, [])

  /** The library calls the bridge makes, as functions of their inputs.
      - cvtColor(src, dst, code): the converted matrix;
      - convertTo(dst, type, scale): the matrix converted to `type` with the selected scale;
      - imencode(ext, img, buf): the bytes written into buf (empty when encoding fails);
      - imdecode(buf, IMREAD_COLOR): the decoded matrix (empty on malformed input);
      - matFromBytes(height, width, type, bytes): the matrix `new Mat(height, width, type)`
        followed by `put(height, width, bytes)` leaves, once `put` has accepted its arguments
        (see `MatFromBytes`);
      - decodeBitmap(bytes): `BitmapFactory.decodeByteArray`, None when it returns null. */
  datatype Backend = Backend(
    cvtColor: (Mat, Step) -> Mat,
    convertTo: (Mat, CvType, Scale) -> Mat,
    imencode: (string, Mat) -> seq<byte>,
    imdecode: seq<byte> -> Mat,
    matFromBytes: (int, int, CvType, seq<byte>) -> Mat,
    decodeBitmap: seq<byte> -> Option<Bitmap>)

  /** An Android bitmap: its size and the buffer `copyPixelsToBuffer` fills, of
      `getRowBytes() * getHeight()` bytes. */
  datatype Bitmap = Bitmap(height: int, width: int, pixels: seq<byte>)

  /** The argument checks `Mat.get(row, col, byte[])` and `Mat.put(row, col, byte[])` of the
      OpenCV Java API make before they touch the matrix: the array's length must be a multiple
      of the channel count and the depth must be 8U or 8S; otherwise they throw
      UnsupportedOperationException. */
  function ByteAccessCheck(t: CvType, n: nat): (r: Option<Exception>)
    ensures r.None? <==> n % t.channels == 0 && (t.depth == CV_8U || t.depth == CV_8S)
    ensures r.Some? ==> r.value == UnsupportedOperation
  {
    if n % t.channels != 0 then Some(UnsupportedOperation)
    else if t.depth != CV_8U && t.depth != CV_8S then Some(UnsupportedOperation)
    else None
  }

  /** `new Mat(rows, cols, type)` followed by `put(rows, cols, bytes)`: the exception of the
      argument checks, or the backend's filled matrix. */
  function MatFromBytes(b: Backend, rows: int, cols: int, t: CvType, bytes: seq<byte>): (r: Result<Mat, Exception>)
    ensures r.Success? <==> ByteAccessCheck(t, |bytes|).None?
    ensures r.Failure? ==> r.error == ByteAccessCheck(t, |bytes|).value
    ensures r.Success? ==> r.value == b.matFromBytes(rows, cols, t, bytes)
  {
    match ByteAccessCheck(t, |bytes|)
    case Some(e) => Failure(e)
    case None => Success(b.matFromBytes(rows, cols, t, bytes))
  }
}
