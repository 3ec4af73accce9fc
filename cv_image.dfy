/** `CvImage` of the cv_bridge variant: an OpenCV matrix with its ROS header and encoding,
    packed into a `sensor_msgs/Image` by `toImageMsg` and built from one by `toCvCopy`. Its
    catalogue matches upper-case names exactly, and its own conversion table cannot be built,
    so every request that needs a conversion throws. */
module CvImageBridge {
  import opened Wrappers
  import opened JavaLang
  import opened OpenCv
  import opened Families
  import opened ImageEncodings
  import opened ConversionTable
  import opened Messages
  import CvBridgeEncode

  /** The int the source stores for a depth-only step, and hands to `new Vector<Integer>(...)`. */
  const SAME_FORMAT: int := -1

  // ---------------------------------------------------------------------------------------
  // The arithmetic of toImageMsg

  /** The width, height, step and payload length `toImageMsg` writes. */
  datatype Layout = Layout(width: int, height: int, step: int, length: nat)

  /** `safeLongToInt(total())`, then `total / height()` in int division, then
      `new byte[total * channels()]` with the product in int arithmetic, then `Mat.get` into
      that array; each can throw. */
  function MessageLayout(m: Mat): Result<Layout, Exception> {
    match SafeLongToInt(m.Total())
    case Failure(e) => Failure(e)
    case Success(total) =>
      if m.Height() == 0 then Failure(DivisionByZero)
      else
        var n := WrapInt(total * m.Channels());
        if n < 0 then Failure(NegativeArraySize(n))
        else match ByteAccessCheck(m.cvType, n)
          case Some(e) => Failure(e)
          case None => Success(Layout(m.Width(), m.Height(), total / m.Height(), n))
  }

  /** The four ways `toImageMsg` throws, in the order it meets them: an element count beyond
      the int range, no rows (which includes the empty `new Mat()`), a negative wrapped
      payload length, and `Mat.get` refusing the array; in particular a matrix that is not
      8-bit is never packed. */
  lemma LayoutOutcome(m: Mat)
    ensures MessageLayout(m).Failure? <==>
      || !IsInt(m.rows * m.cols) || m.rows == 0 || WrapInt(m.rows * m.cols * m.cvType.channels) < 0
      || ByteAccessCheck(m.cvType, WrapInt(m.rows * m.cols * m.cvType.channels)).Some?
    ensures !IsInt(m.rows * m.cols) ==> MessageLayout(m) == Failure(CannotCastToInt(m.rows * m.cols))
    ensures IsInt(m.rows * m.cols) && m.rows == 0 ==> MessageLayout(m) == Failure(DivisionByZero)
    ensures IsInt(m.rows * m.cols) && m.rows > 0 && WrapInt(m.rows * m.cols * m.cvType.channels) < 0 ==>
      MessageLayout(m) == Failure(NegativeArraySize(WrapInt(m.rows * m.cols * m.cvType.channels)))
    ensures var n := WrapInt(m.rows * m.cols * m.cvType.channels);
      IsInt(m.rows * m.cols) && m.rows > 0 && n >= 0 && ByteAccessCheck(m.cvType, n).Some? ==>
        MessageLayout(m) == Failure(ByteAccessCheck(m.cvType, n).value)
    ensures m.cvType.depth != CV_8U && m.cvType.depth != CV_8S ==> MessageLayout(m).Failure?
    ensures MessageLayout(EmptyMat) == Failure(DivisionByZero)
  {
  }

  lemma MulMonotoneWhen(x: nat, y: nat, c: nat)
    ensures x <= y ==> x * c <= y * c
  {
    if x <= y {
      MulMonotone(x, y, c);
    }
  }

  lemma DivMulCancel(a: nat, b: nat)
    requires a > 0
    ensures (a * b) / a == b
  {
    var q := (a * b) / a;
    assert a * b == q * a + (a * b) % a;
    MulMonotoneWhen(q + 1, b, a);
    MulMonotoneWhen(b + 1, q, a);
    assert (q + 1) * a == q * a + a;
    assert (b + 1) * a == b * a + a;
  }

  /** A packed message's step is the matrix width: `total / height` divides rows * cols by rows;
      its length is `total * channels` exactly when that product fits an int. */
  lemma LayoutValues(m: Mat)
    requires MessageLayout(m).Success?
    ensures var l := MessageLayout(m).value;
      && l.width == m.cols && l.height == m.rows && l.height > 0
      && l.step == m.cols
      && (l.length == m.rows * m.cols * m.cvType.channels <==> IsInt(m.rows * m.cols * m.cvType.channels))
  {
    DivMulCancel(m.rows, m.cols);
  }

  // ---------------------------------------------------------------------------------------
  // The plan loop of toCvCopyImpl

  /** `(image1, image2)` after the loop has run the first k steps: a SAME_FORMAT step changes
      nothing, a colour step stores the conversion of image1 by the plan's FIRST code in
      image2; after each step image1 is image2. */
  function Images(b: Backend, source: Mat, plan: seq<Step>, k: nat): (Mat, Mat)
    requires k <= |plan|
  {
    if k == 0 then (source, EmptyMat)
    else
      var prev := Images(b, source, plan, k - 1);
      var image2 := if plan[k - 1] == SameFormat then prev.1 else b.cvtColor(prev.0, plan[0]);
      (image2, image2)
  }

  /** The image the loop leaves in image2. */
  function Converted(b: Backend, source: Mat, plan: seq<Step>): Mat {
    Images(b, source, plan, |plan|).1
  }

  /** The loop, with image2 starting as `new Mat()`. */
  method RunPlan(b: Backend, source: Mat, plan: seq<Step>) returns (image2: Mat)
    ensures image2 == Converted(b, source, plan)
  {
    var image1 := source;
    image2 := EmptyMat;
    for i := 0 to |plan|
      invariant (image1, image2) == Images(b, source, plan, i)
    {
      var code := plan[i];
      if code != SameFormat {
        image2 := b.cvtColor(image1, plan[0]);
      }
      image1 := image2;
    }
  }

  /** Only the first code and the positions of SAME_FORMAT matter: two plans that agree on those
      give the same images after every step. */
  lemma {:induction false} ImagesUseFirstCode(b: Backend, source: Mat, p: seq<Step>, q: seq<Step>, k: nat)
    requires |p| == |q| && k <= |p| && (|p| > 0 ==> p[0] == q[0])
    requires forall i :: 0 <= i < |p| ==> (p[i] == SameFormat <==> q[i] == SameFormat)
    ensures Images(b, source, p, k) == Images(b, source, q, k)
  {
    if k > 0 {
      ImagesUseFirstCode(b, source, p, q, k - 1);
    }
  }

  lemma ConvertedUsesFirstCode(b: Backend, source: Mat, p: seq<Step>, q: seq<Step>)
    requires |p| == |q| && (|p| > 0 ==> p[0] == q[0])
    requires forall i :: 0 <= i < |p| ==> (p[i] == SameFormat <==> q[i] == SameFormat)
    ensures Converted(b, source, p) == Converted(b, source, q)
  {
    ImagesUseFirstCode(b, source, p, q, |p|);
  }

  /** Until a colour step runs, image2 is still the empty `new Mat()`, and image1 is too once a
      SAME_FORMAT step has run. */
  lemma {:induction false} ImagesBeforeColour(b: Backend, source: Mat, plan: seq<Step>, k: nat)
    requires k <= |plan|
    requires forall i :: 0 <= i < k ==> plan[i] == SameFormat
    ensures Images(b, source, plan, k).1 == EmptyMat
    ensures k > 0 ==> Images(b, source, plan, k).0 == EmptyMat
  {
    if k > 0 {
      ImagesBeforeColour(b, source, plan, k - 1);
    }
  }

  /** A plan without a colour step, the empty plan included, leaves the empty matrix; a single
      colour step converts the source. */
  lemma ConvertedShape(b: Backend, source: Mat, plan: seq<Step>)
    ensures (forall i :: 0 <= i < |plan| ==> plan[i] == SameFormat) ==> Converted(b, source, plan) == EmptyMat
    ensures |plan| == 1 && plan[0].Color? ==> Converted(b, source, plan) == b.cvtColor(source, plan[0])
  {
    if forall i :: 0 <= i < |plan| ==> plan[i] == SameFormat {
      ImagesBeforeColour(b, source, plan, |plan|);
    }
    if |plan| == 1 {
      assert Images(b, source, plan, 0) == (source, EmptyMat);
    }
  }

  // ---------------------------------------------------------------------------------------
  // The class

  class CvImage {
    var header: Header
    var image: Mat
    var encoding: string
    /** The bytes written so far to the object's output stream, which is never reset. */
    var stream: seq<byte>

    /** `CvImage()`: null header, `new Mat()`, empty encoding, empty stream. */
    constructor ()
      ensures header == NullHeader && image == EmptyMat && encoding == "" && stream == []
    {
      header := NullHeader;
      image := EmptyMat;
      encoding := "";
      stream := [];
    }

    /** `CvImage(header, encoding)`: the encoding is stored upper-cased. */
    constructor WithEncoding(h: Header, enc: string)
      ensures header == h && encoding == ToUpper(enc) && image == EmptyMat && stream == []
    {
      header := h;
      encoding := ToUpper(enc);
      image := EmptyMat;
      stream := [];
    }

    /** `CvImage(header, encoding, image)`: the encoding is stored upper-cased. */
    constructor WithImage(h: Header, enc: string, img: Mat)
      ensures header == h && encoding == ToUpper(enc) && image == img && stream == []
    {
      header := h;
      encoding := ToUpper(enc);
      image := img;
      stream := [];
    }

    /** `toImageMsg()`: hands a null message to `toImageMsg(Image)`, which throws at once. */
    method ToBlankImageMsg() returns (r: Result<ImageMsg, Exception>)
      modifies this
      ensures r == Failure(NullPointer)
      ensures header == old(header) && image == old(image) && encoding == old(encoding)
      ensures stream == old(stream)
    {
      r := ToImageMsg(null);
    }

    /** `toImageMsg(ros_image)`: header and lower-cased encoding first, then width and height
        once the element count fits an int, the step once the division succeeds, and the payload
        last: the matrix's leading bytes are appended to the stream and the message receives the
        whole stream. */
    method ToImageMsg(msg: ImageMsg?) returns (r: Result<ImageMsg, Exception>)
      modifies this, msg
      ensures header == old(header) && image == old(image) && encoding == old(encoding)
      ensures msg == null ==> r == Failure(NullPointer) && stream == old(stream)
      ensures msg != null ==> msg.header == header && msg.encoding == ToLower(encoding)
      ensures msg != null ==> (r.Success? <==> MessageLayout(image).Success?)
      ensures msg != null && r.Failure? ==>
        && r.error == MessageLayout(image).error
        && stream == old(stream) && msg.data == old(msg.data)
      ensures msg != null ==>
        if IsInt(image.Total()) then msg.width == image.Width() && msg.height == image.Height()
        else msg.width == old(msg.width) && msg.height == old(msg.height)
      ensures msg != null ==>
        msg.step == if IsInt(image.Total()) && image.Height() != 0 then image.Total() / image.Height()
                    else old(msg.step)
      ensures msg != null && r.Success? ==>
        var l := MessageLayout(image).value;
        && r.value == msg
        && msg.width == l.width && msg.height == l.height && msg.step == l.step
        && stream == old(stream) + image.GetBytes(l.length)
        && msg.data == stream
    {
      if msg == null {
        return Failure(NullPointer);
      }
      msg.header := header;
      msg.encoding := ToLower(encoding);
      var total := SafeLongToInt(image.Total());
      if total.Failure? {
        return Failure(total.error);
      }
      var totalByteFrame := total.value;
      msg.width := image.Width();
      msg.height := image.Height();
      if image.Height() == 0 {
        return Failure(DivisionByZero);
      }
      msg.step := totalByteFrame / image.Height();
      var n := WrapInt(totalByteFrame * image.Channels());
      if n < 0 {
        return Failure(NegativeArraySize(n));
      }
      var check := ByteAccessCheck(image.cvType, n);
      if check.Some? {
        return Failure(check.value);
      }
      var imageInBytes := image.GetBytes(n);
      stream := stream + imageInBytes;
      msg.data := stream;
      return Success(msg);
    }

    /** `getCvType(encoding)`: exact comparison with the upper-case semantic names; there is no
        TYPE_ branch, and the exception names the string. */
    static function GetCvType(enc: string): Result<CvType, Exception> {
      match UpperSemanticMatch(enc)
      case Some(p) => Success(p.1)
      case None => Failure(UnrecognizedImageEncoding(enc))
    }

    /** `getFormat(encoding)`: exact comparison with the upper-case names of the families. */
    static function GetFormat(enc: string): Encode {
      UpperFamilyMatch(enc)
    }

    /** `getConversionCodes()`: the first identity entry is `new Vector<Integer>(SAME_FORMAT)`,
        a vector of initial capacity -1, which throws; nothing after it runs. Each colour
        entry would be `new Vector<Integer>(code)`, an empty vector of capacity `code`. */
    static method GetConversionCodes() returns (r: Result<map<(Encode, Encode), seq<Step>>, Exception>)
      ensures r == Failure(IllegalCapacity(SAME_FORMAT))
    {
      var res: map<(Encode, Encode), seq<Step>> := map[];
      // The loop never gets past i == 0: its first `new Vector` throws. The invariant only
      // records that, and the colour rows after the loop are never reached.
      for i := 0 to 6
        invariant i == 0
      {
        var key := ValueOf(i);
        var codes := NewVector<Step>(SAME_FORMAT);
        match codes
        case Failure(e) => return Failure(e);
        case Success(v) =>
          match key
          case Some(f) => res := res[(f, f) := v];
          case None =>
      }
      res := res + CapacityRows;
      return Success(res);
    }

    /** `getConversionCode(src, dst)`: the flags are constant `true`, so every call builds the
        table, and that throws. */
    static method GetConversionCode(src: string, dst: string) returns (r: Result<seq<Step>, Exception>)
      ensures r == Failure(IllegalCapacity(SAME_FORMAT))
    {
      var srcEncode := GetFormat(src);
      var dstEncode := GetFormat(dst);
      var srcColor := true;
      var dstColor := true;
      var sameChannels := true;
      if !srcColor {
        if dstColor {
          return Failure(NotAColorFormat(src, dst));
        }
        if !sameChannels {
          return Failure(ChannelCountMismatch(src, dst));
        }
        return Success([]);
      }
      if !dstColor {
        if !sameChannels {
          return Failure(ColorToNonColorMismatch(src, dst));
        }
        return Success([]);
      }
      var table := GetConversionCodes();
      match table
      case Failure(e) => return Failure(e);
      case Success(t) =>
        match Lookup(t, (srcEncode, dstEncode))
        case None => return Failure(UnsupportedConversion(src, dst));
        case Some(v) => return Success(v);
    }

    /** `toCvCopyImpl(source, header, src, dst)`: an empty destination or one equal to the source
        copies; any other destination asks for a plan, which throws. */
    static method ToCvCopyImpl(b: Backend, source: Mat, h: Header, src: string, dst: string)
      returns (r: Result<CvImage, Exception>)
      ensures r.Success? <==> dst == "" || dst == src
      ensures r.Success? ==>
        && fresh(r.value)
        && r.value.header == h && r.value.encoding == src && r.value.image == source
        && r.value.stream == []
      ensures r.Failure? ==> r.error == IllegalCapacity(SAME_FORMAT)
    {
      var img := new CvImage();
      img.header := h;
      var encoding: string;
      var image: Mat;
      if dst == "" || dst == src {
        encoding := src;
        image := source;
      } else {
        var codes := GetConversionCode(src, dst);
        match codes
        case Failure(e) => return Failure(e);
        case Success(plan) =>
          image := RunPlan(b, source, plan);
          encoding := dst;
      }
      img.encoding := encoding;
      img.image := image;
      return Success(img);
    }

    /** `matFromImage(source)`: a matrix of the message's height, width and `getCvType` of its
        encoding, filled from its payload by `Mat.put`; throws when the encoding is not
        recognised or when `put` refuses the payload. */
    static function MatFromImage(b: Backend, source: ImageMsg): (r: Result<Mat, Exception>)
      reads source
      ensures GetCvType(source.encoding).Failure? ==> r == Failure(UnrecognizedImageEncoding(source.encoding))
      ensures r.Success? <==>
        GetCvType(source.encoding).Success? && ByteAccessCheck(GetCvType(source.encoding).value, |source.data|).None?
    {
      match GetCvType(source.encoding)
      case Failure(e) => Failure(e)
      case Success(t) => MatFromBytes(b, source.height, source.width, t, source.data)
    }

    /** `toCvCopy(source)`: the source encoding upper-cased, no destination: a copy. */
    static method ToCvCopy(b: Backend, source: ImageMsg) returns (r: Result<CvImage, Exception>)
      ensures r.Success? <==> MatFromImage(b, source).Success?
      ensures r.Failure? ==> r.error == MatFromImage(b, source).error
      ensures r.Success? ==>
        && fresh(r.value)
        && r.value.header == source.header
        && r.value.encoding == ToUpper(source.encoding) == source.encoding
        && r.value.image == MatFromImage(b, source).value
        && r.value.stream == []
    {
      var mat := MatFromImage(b, source);
      match mat
      case Failure(e) => return Failure(e);
      case Success(m) =>
        var e := AcceptedIsUpperName(source.encoding);
        r := ToCvCopyImpl(b, m, source.header, ToUpper(source.encoding), "");
    }

    /** `toCvCopy(source, encoding)`: the destination lower-cased. A message whose encoding is
        recognised carries an upper-case name, which no lower-cased destination equals, so only
        the empty destination copies; any other throws. */
    static method ToCvCopyTo(b: Backend, source: ImageMsg, enc: string) returns (r: Result<CvImage, Exception>)
      ensures r.Success? <==> MatFromImage(b, source).Success? && enc == ""
      ensures r.Failure? ==>
        r.error == if MatFromImage(b, source).Failure? then MatFromImage(b, source).error
                   else IllegalCapacity(SAME_FORMAT)
      ensures r.Success? ==>
        && fresh(r.value)
        && r.value.header == source.header
        && r.value.encoding == source.encoding
        && r.value.image == MatFromImage(b, source).value
        && r.value.stream == []
    {
      var mat := MatFromImage(b, source);
      match mat
      case Failure(e) => return Failure(e);
      case Success(m) =>
        var e := AcceptedIsUpperName(source.encoding);
        LowerIsNoUpperName(enc, e);
        r := ToCvCopyImpl(b, m, source.header, ToUpper(source.encoding), ToLower(enc));
    }

    /** `cvtColor(source, encoding)`: `toCvCopyImpl` on the object's own matrix, header and
        encoding; it succeeds only as a copy. */
    static method CvtColor(b: Backend, source: CvImage, enc: string) returns (r: Result<CvImage, Exception>)
      ensures r.Success? <==> enc == "" || enc == source.encoding
      ensures r.Failure? ==> r.error == IllegalCapacity(SAME_FORMAT)
      ensures r.Success? ==>
        && fresh(r.value)
        && r.value.header == source.header && r.value.encoding == source.encoding
        && r.value.image == source.image && r.value.stream == []
    {
      r := ToCvCopyImpl(b, source.image, source.header, source.encoding, enc);
    }
  }

  /** The colour rows of `getConversionCodes`, each an empty vector, keyed as the table is. */
  const CapacityRows: map<(Encode, Encode), seq<Step>> :=
    map k | k in (set f <- AllEncodes, g <- AllEncodes | f != g && Code(f, g).Some? :: (f, g)) :: []

  // ---------------------------------------------------------------------------------------
  // The catalogue

  /** `getCvType` accepts each upper-case semantic name as the type its encoding needs ... */
  lemma GetCvTypeExact(e: Semantic)
    ensures CvImage.GetCvType(e.UpperName()) == Success(e.StorageType())
  {
    UpperSemanticMatchIff(e.UpperName(), e);
  }

  /** ... and nothing else: any other string throws, naming the string. */
  lemma GetCvTypeFails(enc: string)
    ensures CvImage.GetCvType(enc).Failure? <==> forall e: Semantic :: e.UpperName() != enc
    ensures CvImage.GetCvType(enc).Failure? ==> CvImage.GetCvType(enc).error == UnrecognizedImageEncoding(enc)
  {
    UpperSemanticMatchNone(enc);
  }

  /** A string `getCvType` accepts is an upper-case name, hence its own upper-case form. */
  lemma AcceptedIsUpperName(enc: string) returns (e: Semantic)
    requires CvImage.GetCvType(enc).Success?
    ensures enc == e.UpperName() && ToUpper(enc) == enc
    ensures CvImage.GetCvType(enc) == Success(e.StorageType())
  {
    var p := UpperSemanticMatch(enc).value;
    e := p.0;
    SemanticChainExact(p.0, p.1);
    UpperIdempotent(e.Name());
  }

  /** What this `getCvType` accepts, the `ImEncode` one maps to the same type; it also rejects
      what `ImEncode` accepts in lower or mixed case, and every TYPE_ name. */
  lemma GetCvTypeStricter(enc: string, t: CvType)
    ensures CvImage.GetCvType(enc).Success? ==> CvBridgeEncode.GetCvType(enc) == CvImage.GetCvType(enc)
    ensures HasStorageName(t) ==> CvImage.GetCvType(StorageName(t)).Failure?
  {
    if CvImage.GetCvType(enc).Success? {
      var e := AcceptedIsUpperName(enc);
      CvBridgeEncode.GetCvTypeSemantic(enc, e);
    }
    if HasStorageName(t) {
      forall e: Semantic
        ensures e.UpperName() != StorageName(t)
      {
        StorageNameNotSemantic(t, e);
      }
      GetCvTypeFails(StorageName(t));
    }
  }

  /** The encoding `toImageMsg` writes is lower-cased, and `matFromImage` rejects every
      lower-cased string: a packed message does not convert back. */
  lemma PackedEncodingRejected(s: string)
    ensures CvImage.GetCvType(ToLower(s)) == Failure(UnrecognizedImageEncoding(ToLower(s)))
    ensures CvImage.GetFormat(ToLower(s)) == INVALID
  {
    forall e: Semantic
      ensures e.UpperName() != ToLower(s)
    {
      LowerIsNoUpperName(s, e);
    }
    GetCvTypeFails(ToLower(s));
    UpperFamilyMatchNotName(ToLower(s));
  }

  /** `getFormat` gives an upper-case name its family and any other string INVALID. */
  lemma GetFormatExact(enc: string, e: Semantic)
    ensures CvImage.GetFormat(e.UpperName()) == e.Family()
    ensures (forall f: Semantic :: f.UpperName() != enc) ==> CvImage.GetFormat(enc) == INVALID
  {
    UpperFamilyMatchName(e);
  }

  /** `matFromImage` of a message carrying an upper-case name: `Mat.put` accepts the payload
      exactly when the name is 8-bit (or yuv422) and the payload length is a multiple of its
      channel count, so a 16-bit image (MONO16, BGR16, ...) is never read back. */
  lemma MatFromImageOfName(b: Backend, source: ImageMsg, e: Semantic)
    requires source.encoding == e.UpperName()
    ensures CvImage.MatFromImage(b, source).Success? <==>
      !(e.Pixel? && e.bits == Bits16) && |source.data| % e.StorageType().channels == 0
    ensures e.Pixel? && e.bits == Bits16 ==> CvImage.MatFromImage(b, source) == Failure(UnsupportedOperation)
  {
    GetCvTypeExact(e);
    if e.Pixel? {
      StorageTypeChannels(e.model, e.bits);
    }
  }
}
