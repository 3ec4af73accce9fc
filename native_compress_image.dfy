/** `CvCompressImage` of the cv_bridge_native variant: an OpenCV matrix with its ROS header and
    encoding (bgr8 by default), packed into a `sensor_msgs/CompressedImage` in one of the `Format`
    containers after a conversion to bgr8, and built from one by decoding. `toCvCopyImpl` plans
    a conversion with `ImEncode.getConversionCode` and runs the plan step by step. */
module NativeCompressImage {
  import opened Wrappers
  import opened JavaLang
  import opened OpenCv
  import opened Formats
  import opened ImageEncodings
  import opened Messages
  import NativeEncode

  // ---------------------------------------------------------------------------------------
  // The container dispatch of toImageMsg

  /** The format name `toImageMsg` sets and the extension it hands to `imencode` for each
      `Format`; INVALID matches none of the five comparisons. */
  function Container(f: Format): Option<(string, string)> {
    match f
    case JPG => Some(("jpg", ".jpg"))
    case PNG => Some(("png", ".png"))
    case JP2 => Some(("jp2", ".jp2"))
    case BMP => Some(("bmp", ".bmp"))
    case TIF => Some(("tif", ".tif"))
    case INVALID => None
  }

  /** Every valid format selects a container whose extension is its name after a dot, and no
      two formats select the same one, so at most one of the five branches fires. */
  lemma ContainerExact(f: Format, g: Format)
    ensures Container(f).Some? <==> f != INVALID
    ensures Container(f).Some? ==> Container(f).value.1 == "." + Container(f).value.0
    ensures Container(f).Some? && Container(g).Some? && Container(f).value.0 == Container(g).value.0 ==> f == g
  {
  }

  /** The bytes `toImageMsg` appends to the stream: the encoded matrix, or the untouched empty
      buffer when no branch fires. */
  function Payload(b: Backend, f: Format, image: Mat): seq<byte> {
    match Container(f)
    case Some(c) => b.imencode(c.1, image)
    case None => []
  }

  // ---------------------------------------------------------------------------------------
  // The plan loop of toCvCopyImpl

  /** The scale a SAME_FORMAT step hands to `convertTo`: 65535/255 from 8 to 16 bits, 255/65535
      from 16 to 8 bits, none for any other pair of depths. */
  function DepthScale(srcDepth: int, dstDepth: int): (s: Scale)
    ensures s == Scale8To16 <==> srcDepth == 8 && dstDepth == 16
    ensures s == Scale16To8 <==> srcDepth == 16 && dstDepth == 8
  {
    if srcDepth == 8 && dstDepth == 16 then Scale8To16
    else if srcDepth == 16 && dstDepth == 8 then Scale16To8
    else Unscaled
  }

  /** `(image1, image2)` after the loop has run the first k steps of `plan`, or the exception
      the loop has thrown. A SAME_FORMAT step converts image1 to the destination type
      `dstType` (the outcome of `getCvType(dst)`, which throws when it is a failure) with the
      depth scale `scale`; a colour step converts image1 by the plan's FIRST code. After each
      step image1 is image2. */
  function Steps(b: Backend, source: Mat, plan: seq<Step>, scale: Scale, dstType: Result<CvType, Exception>, k: nat)
    : Result<(Mat, Mat), Exception>
    requires k <= |plan|
  {
    if k == 0 then Success((source, EmptyMat))
    else
      match Steps(b, source, plan, scale, dstType, k - 1)
      case Failure(e) => Failure(e)
      case Success(prev) =>
        if plan[k - 1] == SameFormat then
          match dstType
          case Failure(e) => Failure(e)
          case Success(t) =>
            var image2 := b.convertTo(prev.0, t, scale);
            Success((image2, image2))
        else
          var image2 := b.cvtColor(prev.0, plan[0]);
          Success((image2, image2))
  }

  /** The image the loop leaves in image2, or the exception it throws. */
  function Converted(b: Backend, source: Mat, plan: seq<Step>, scale: Scale, dstType: Result<CvType, Exception>)
    : Result<Mat, Exception>
  {
    match Steps(b, source, plan, scale, dstType, |plan|)
    case Failure(e) => Failure(e)
    case Success(p) => Success(p.1)
  }

  /** The encoding the convert branch plans from: "bgr8" stands in for an empty one. */
  function Planned(src: string): (p: string)
    ensures p != ""
    ensures src != "" ==> p == src
  {
    if src == "" then BGR8 else src
  }

  /** The scale of every depth step: chosen from the bit depths of `src` as the caller passed
      it, not of the substituted "bgr8". */
  function LoopScale(o: Oracle, src: string, dst: string): Scale {
    DepthScale(o.bitDepth(src), o.bitDepth(dst))
  }

  /** What the convert branch of `toCvCopyImpl` computes: the plan for the substituted source
      encoding, then the loop over it. */
  function Conversion(b: Backend, o: Oracle, source: Mat, src: string, dst: string): Result<Mat, Exception> {
    match NativeEncode.Plan(o, Planned(src), dst)
    case Failure(e) => Failure(e)
    case Success(plan) => Converted(b, source, plan, LoopScale(o, src, dst), NativeEncode.GetCvType(dst))
  }

  /** The loop, with image2 starting as `new Mat()`. Each SAME_FORMAT step asks for the bit
      depths of both encodings and for `getCvType(dst)`, whose outcome `dstType` is: that call
      is pure, so the loop throws its exception at the first SAME_FORMAT step. */
  method RunPlan(b: Backend, o: Oracle, source: Mat, plan: seq<Step>, src: string, dst: string,
                 dstType: Result<CvType, Exception>)
    returns (r: Result<Mat, Exception>)
    ensures r == Converted(b, source, plan, LoopScale(o, src, dst), dstType)
  {
    ghost var scale := LoopScale(o, src, dst);
    var image1 := source;
    var image2 := EmptyMat;
    for i := 0 to |plan|
      invariant Steps(b, source, plan, scale, dstType, i) == Success((image1, image2))
    {
      var code := plan[i];
      if code == SameFormat {
        var srcDepth := o.bitDepth(src);
        var dstDepth := o.bitDepth(dst);
        if dstType.Failure? {
          StepsFailurePersists(b, source, plan, scale, dstType, i + 1, |plan|);
          return Failure(dstType.error);
        }
        if srcDepth == 8 && dstDepth == 16 {
          image2 := b.convertTo(image1, dstType.value, Scale8To16);
        } else if srcDepth == 16 && dstDepth == 8 {
          image2 := b.convertTo(image1, dstType.value, Scale16To8);
        } else {
          image2 := b.convertTo(image1, dstType.value, Unscaled);
        }
      } else {
        image2 := b.cvtColor(image1, plan[0]);
      }
      image1 := image2;
    }
    return Success(image2);
  }

  /** Once the loop has thrown, later steps do not change the outcome. */
  lemma {:induction false} StepsFailurePersists(b: Backend, source: Mat, plan: seq<Step>, scale: Scale,
                                                dstType: Result<CvType, Exception>, k: nat, j: nat)
    requires k <= j <= |plan|
    requires Steps(b, source, plan, scale, dstType, k).Failure?
    ensures Steps(b, source, plan, scale, dstType, j) == Steps(b, source, plan, scale, dstType, k)
  {
    if k < j {
      StepsFailurePersists(b, source, plan, scale, dstType, k, j - 1);
    }
  }

  /** The loop throws exactly when it meets a SAME_FORMAT step and the destination type is a
      failure, and then it throws that failure. */
  lemma {:induction false} StepsFail(b: Backend, source: Mat, plan: seq<Step>, scale: Scale,
                                     dstType: Result<CvType, Exception>, k: nat)
    requires k <= |plan|
    ensures Steps(b, source, plan, scale, dstType, k).Failure? <==>
      dstType.Failure? && exists i :: 0 <= i < k && plan[i] == SameFormat
    ensures Steps(b, source, plan, scale, dstType, k).Failure? ==>
      Steps(b, source, plan, scale, dstType, k).error == dstType.error
  {
    if k > 0 {
      StepsFail(b, source, plan, scale, dstType, k - 1);
      if plan[k - 1] == SameFormat && dstType.Failure? {
        assert 0 <= k - 1 < k && plan[k - 1] == SameFormat;
      }
      if exists i :: 0 <= i < k && plan[i] == SameFormat {
        var i :| 0 <= i < k && plan[i] == SameFormat;
        if i < k - 1 {
          assert 0 <= i < k - 1 && plan[i] == SameFormat;
        }
      }
    }
  }

  /** The plans the native planner returns, run: the empty plan leaves the empty `new Mat()`;
      a lone colour step converts the source by its code; a lone SAME_FORMAT step converts the
      source to the destination type; a trailing SAME_FORMAT step converts the result of the
      first step the same way. */
  lemma ConvertedShapes(b: Backend, source: Mat, plan: seq<Step>, scale: Scale, dstType: Result<CvType, Exception>)
    ensures plan == [] ==> Converted(b, source, plan, scale, dstType) == Success(EmptyMat)
    ensures |plan| == 1 && plan[0].Color? ==>
      Converted(b, source, plan, scale, dstType) == Success(b.cvtColor(source, plan[0]))
    ensures |plan| == 1 && plan[0] == SameFormat && dstType.Success? ==>
      Converted(b, source, plan, scale, dstType) == Success(b.convertTo(source, dstType.value, scale))
    ensures |plan| == 2 && plan[1] == SameFormat && dstType.Success? ==>
      && Converted(b, source, plan[..1], scale, dstType).Success?
      && Converted(b, source, plan, scale, dstType) ==
           Success(b.convertTo(Converted(b, source, plan[..1], scale, dstType).value, dstType.value, scale))
  {
    if 1 <= |plan| {
      assert Steps(b, source, plan, scale, dstType, 0) == Success((source, EmptyMat));
    }
    if |plan| == 2 && plan[1] == SameFormat && dstType.Success? {
      var q := plan[..1];
      assert Steps(b, source, q, scale, dstType, 0) == Success((source, EmptyMat));
      assert Steps(b, source, plan, scale, dstType, 1) == Steps(b, source, q, scale, dstType, 1);
    }
  }

  /** When a side is not a colour format the planner's empty plan leaves the empty matrix. */
  lemma ConversionNonColour(b: Backend, o: Oracle, source: Mat, src: string, dst: string)
    requires NativeEncode.Plan(o, Planned(src), dst).Success?
    requires !(NativeEncode.IsColorFormat(o, Planned(src)) && NativeEncode.IsColorFormat(o, dst))
    ensures Conversion(b, o, source, src, dst) == Success(EmptyMat)
  {
    NativeEncode.PlanShape(o, Planned(src), dst);
    ConvertedShapes(b, source, NativeEncode.Plan(o, Planned(src), dst).value, LoopScale(o, src, dst),
                    NativeEncode.GetCvType(dst));
  }

  /** When the bit depths of the planned encodings differ, the conversion ends with a depth
      step: it throws when the destination type does, and otherwise converts the result of the
      table's step to the destination type. */
  lemma ConvertedDepthStep(b: Backend, o: Oracle, source: Mat, src: string, dst: string,
                           plan: seq<Step>, scale: Scale, t: Result<CvType, Exception>)
    requires NativeEncode.Plan(o, Planned(src), dst) == Success(plan)
    requires NativeEncode.IsColorFormat(o, Planned(src)) && NativeEncode.IsColorFormat(o, dst)
    requires o.bitDepth(Planned(src)) != o.bitDepth(dst)
    ensures var c := Converted(b, source, plan, scale, t);
      && |plan| == 2 && plan[1] == SameFormat
      && (c.Success? <==> t.Success?)
      && (c.Failure? ==> c.error == t.error)
      && (c.Success? ==>
            && Converted(b, source, plan[..1], scale, t).Success?
            && c.value == b.convertTo(Converted(b, source, plan[..1], scale, t).value, t.value, scale))
  {
    NativeEncode.PlanShape(o, Planned(src), dst);
    StepsFail(b, source, plan, scale, t, 2);
    assert 0 <= 1 < 2 && plan[1] == SameFormat;
    ConvertedShapes(b, source, plan, scale, t);
  }

  /** The matrix `toImageMsg` encodes: the object's own when its encoding is bgr8, otherwise its
      conversion from that encoding to bgr8, which can throw. */
  function Normalised(b: Backend, o: Oracle, image: Mat, encoding: string): Result<Mat, Exception> {
    if encoding == BGR8 then Success(image) else Conversion(b, o, image, encoding, BGR8)
  }

  // ---------------------------------------------------------------------------------------
  // The class

  class CvCompressImage {
    var header: Header
    var image: Mat
    var encoding: string
    /** The bytes written so far to the object's output stream, which is never reset. */
    var stream: seq<byte>

    /** `CvCompressImage()`: null header, `new Mat()`, encoding bgr8, empty stream. */
    constructor ()
      ensures header == NullHeader && image == EmptyMat && encoding == BGR8 && stream == []
    {
      header := NullHeader;
      image := EmptyMat;
      encoding := BGR8;
      stream := [];
    }

    /** `CvCompressImage(header, encoding)`: the encoding is stored as given. */
    constructor WithEncoding(h: Header, enc: string)
      ensures header == h && encoding == enc && image == EmptyMat && stream == []
    {
      header := h;
      encoding := enc;
      image := EmptyMat;
      stream := [];
    }

    /** `CvCompressImage(header, encoding, image)`: the encoding is stored as given. */
    constructor WithImage(h: Header, enc: string, img: Mat)
      ensures header == h && encoding == enc && image == img && stream == []
    {
      header := h;
      encoding := enc;
      image := img;
      stream := [];
    }

    /** The first part of `toImageMsg`: an object whose encoding is not bgr8 replaces its own
        matrix by the bgr8 conversion `cvtColor(this, bgr8)` makes of it, and keeps its
        encoding. */
    method NormaliseToBgr8(b: Backend, o: Oracle) returns (r: Result<Mat, Exception>)
      modifies this
      ensures header == old(header) && encoding == old(encoding) && stream == old(stream)
      ensures r == Normalised(b, o, old(image), encoding)
      ensures image == if r.Success? then r.value else old(image)
    {
      if encoding != BGR8 {
        var temp := CvtColor(b, o, this, BGR8);
        match temp
        case Failure(e) => return Failure(e);
        case Success(t) => image := t.image;
      }
      return Success(image);
    }

    /** `toImageMsg(ros_image, dst_format)`: the header goes into the message; the matrix is
        normalised to bgr8; then the container of `dst_format` names the format and encodes the
        matrix, the bytes are appended to the stream and the message receives the whole
        stream. */
    method ToImageMsg(b: Backend, o: Oracle, msg: CompressedImageMsg?, f: Format)
      returns (r: Result<CompressedImageMsg, Exception>)
      modifies this, msg
      ensures header == old(header) && encoding == old(encoding)
      ensures msg == null ==> r == Failure(NullPointer) && image == old(image) && stream == old(stream)
      ensures msg != null ==> msg.header == header
      ensures msg != null ==> (r.Success? <==> Normalised(b, o, old(image), encoding).Success?)
      ensures msg != null && r.Failure? ==>
        && r.error == Normalised(b, o, old(image), encoding).error
        && image == old(image) && stream == old(stream)
        && msg.format == old(msg.format) && msg.data == old(msg.data)
      ensures msg != null && r.Success? ==>
        && r.value == msg
        && image == Normalised(b, o, old(image), encoding).value
        && msg.format == (if f == INVALID then old(msg.format) else Container(f).value.0)
        && stream == old(stream) + Payload(b, f, image)
        && msg.data == stream
    {
      if msg == null {
        return Failure(NullPointer);
      }
      msg.header := header;
      var normalised := NormaliseToBgr8(b, o);
      if normalised.Failure? {
        return Failure(normalised.error);
      }
      var buf: seq<byte> := [];
      if f == JPG {
        msg.format := "jpg";
        buf := b.imencode(".jpg", image);
      }
      if f == PNG {
        msg.format := "png";
        buf := b.imencode(".png", image);
      }
      if f == JP2 {
        msg.format := "jp2";
        buf := b.imencode(".jp2", image);
      }
      if f == BMP {
        msg.format := "bmp";
        buf := b.imencode(".bmp", image);
      }
      if f == TIF {
        msg.format := "tif";
        buf := b.imencode(".tif", image);
      }
      stream := stream + buf;
      msg.data := stream;
      return Success(msg);
    }

    /** `toCvCopyImpl(source, header, src, dst)`: an empty destination or one equal to the source
        copies the matrix and keeps bgr8 unless a source encoding is given; any other destination
        is planned from the source encoding ("bgr8" when empty) and the plan is run. */
    static method ToCvCopyImpl(b: Backend, o: Oracle, source: Mat, h: Header, src: string, dst: string)
      returns (r: Result<CvCompressImage, Exception>)
      ensures r.Success? ==> fresh(r.value) && r.value.header == h && r.value.stream == []
      ensures dst == "" || dst == src ==>
        && r.Success?
        && r.value.encoding == (if src == "" then BGR8 else src)
        && r.value.image == source
      ensures dst != "" && dst != src ==>
        && (r.Success? <==> Conversion(b, o, source, src, dst).Success?)
        && (r.Failure? ==> r.error == Conversion(b, o, source, src, dst).error)
        && (r.Success? ==> r.value.encoding == dst && r.value.image == Conversion(b, o, source, src, dst).value)
    {
      var img := new CvCompressImage();
      img.header := h;
      if dst == "" || dst == src {
        if src != "" {
          img.encoding := src;
        }
        img.image := source;
      } else {
        var planned := src;
        if src == "" {
          planned := BGR8;
        }
        var codes := NativeEncode.GetConversionCode(o, planned, dst);
        if codes.Failure? {
          return Failure(codes.error);
        }
        var image2 := RunPlan(b, o, source, codes.value, src, dst, NativeEncode.GetCvType(dst));
        if image2.Failure? {
          return Failure(image2.error);
        }
        img.image := image2.value;
        img.encoding := dst;
      }
      return Success(img);
    }

    /** `matFromImage(source)`: the payload as a 1 x n CV_8UC1 matrix handed to
        `imdecode(..., IMREAD_COLOR)`. */
    static function MatFromImage(b: Backend, source: CompressedImageMsg): Mat
      reads source
    {
      b.imdecode(source.data)
    }

    /** `toCvCopy(source)`: empty source and destination encodings, so always a copy of the
        decoded matrix, with encoding bgr8. */
    static method ToCvCopy(b: Backend, o: Oracle, source: CompressedImageMsg) returns (r: Result<CvCompressImage, Exception>)
      ensures r.Success?
      ensures fresh(r.value) && r.value.header == source.header && r.value.stream == []
      ensures r.value.encoding == BGR8 && r.value.image == b.imdecode(source.data)
    {
      r := ToCvCopyImpl(b, o, MatFromImage(b, source), source.header, "", "");
    }

    /** `toCvCopy(source, dst)`: an empty source encoding and the destination upper-cased, so a
        non-empty destination always converts, from "bgr8", and the result carries the
        upper-cased destination. */
    static method ToCvCopyTo(b: Backend, o: Oracle, source: CompressedImageMsg, dst: string)
      returns (r: Result<CvCompressImage, Exception>)
      ensures r.Success? ==> fresh(r.value) && r.value.header == source.header && r.value.stream == []
      ensures dst == "" ==> r.Success? && r.value.encoding == BGR8 && r.value.image == b.imdecode(source.data)
      ensures dst != "" ==>
        var c := Conversion(b, o, b.imdecode(source.data), "", ToUpper(dst));
        && (r.Success? <==> c.Success?)
        && (r.Failure? ==> r.error == c.error)
        && (r.Success? ==> r.value.encoding == ToUpper(dst) && r.value.image == c.value)
    {
      r := ToCvCopyImpl(b, o, MatFromImage(b, source), source.header, "", ToUpper(dst));
    }

    /** `cvtColor(source, dst)`: `toCvCopyImpl` on the object's own matrix, header and encoding. */
    static method CvtColor(b: Backend, o: Oracle, source: CvCompressImage, dst: string)
      returns (r: Result<CvCompressImage, Exception>)
      ensures r.Success? ==> fresh(r.value) && r.value.header == source.header && r.value.stream == []
      ensures dst == "" || dst == source.encoding ==>
        && r.Success?
        && r.value.encoding == (if source.encoding == "" then BGR8 else source.encoding)
        && r.value.image == source.image
      ensures dst != "" && dst != source.encoding ==>
        && (r.Success? <==> Conversion(b, o, source.image, source.encoding, dst).Success?)
        && (r.Failure? ==> r.error == Conversion(b, o, source.image, source.encoding, dst).error)
        && (r.Success? ==> r.value.encoding == dst && r.value.image == Conversion(b, o, source.image, source.encoding, dst).value)
    {
      r := ToCvCopyImpl(b, o, source.image, source.header, source.encoding, dst);
    }
  }

  // ---------------------------------------------------------------------------------------
  // Properties across calls

  /** An empty encoding is planned as "bgr8", but its own bit depth picks the scale: converting
      from "" and from "bgr8" runs the same plan and throws in the same cases, and gives the
      same matrix when the two depths agree. */
  lemma EmptySourcePlannedAsBgr8(b: Backend, o: Oracle, source: Mat, dst: string)
    ensures NativeEncode.Plan(o, Planned(""), dst) == NativeEncode.Plan(o, BGR8, dst)
    ensures Conversion(b, o, source, "", dst).Failure? <==> Conversion(b, o, source, BGR8, dst).Failure?
    ensures o.bitDepth("") == o.bitDepth(BGR8) ==> Conversion(b, o, source, "", dst) == Conversion(b, o, source, BGR8, dst)
  {
    match NativeEncode.Plan(o, BGR8, dst)
    case Failure(e) =>
    case Success(p) =>
      var t := NativeEncode.GetCvType(dst);
      StepsFail(b, source, p, LoopScale(o, "", dst), t, |p|);
      StepsFail(b, source, p, LoopScale(o, BGR8, dst), t, |p|);
  }
}
