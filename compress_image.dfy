/** `CvCompressImage` of the cv_bridge variant: an OpenCV matrix with its ROS header and a
    container format string, packed into a `sensor_msgs/CompressedImage` by `toImageMsg`. Its
    `toCvCopyImpl` copies only the metadata: the matrix it is given is dropped. */
module CompressImageBridge {
  import opened Wrappers
  import opened JavaLang
  import opened OpenCv
  import opened Messages
  import Formats
  import NativeCompressImage

  // ---------------------------------------------------------------------------------------
  // The container dispatch of toImageMsg

  /** The format name `toImageMsg` sets and the extension it hands to `imencode` for a format
      string: the empty string and "jpg" pick jpg; "png", "jp2", "bmp" and "tif" pick
      themselves; any other string picks nothing. */
  function Container(format: string): Option<(string, string)> {
    if format == "" || format == "jpg" then Some(("jpg", ".jpg"))
    else if format == "png" then Some(("png", ".png"))
    else if format == "jp2" then Some(("jp2", ".jp2"))
    else if format == "bmp" then Some(("bmp", ".bmp"))
    else if format == "tif" then Some(("tif", ".tif"))
    else None
  }

  /** The six strings that select a container, each selecting its own name (the empty string
      selecting jpg), with the extension its name after a dot. */
  lemma ContainerChoice(format: string)
    ensures Container(format).Some? <==> format in ["", "jpg", "png", "jp2", "bmp", "tif"]
    ensures Container(format).Some? ==>
      && Container(format).value.1 == "." + Container(format).value.0
      && Container(format).value.0 == (if format == "" then "jpg" else format)
  {
  }

  /** The name a message receives selects the same container again, and is already lower case,
      so a `CvCompressImage` built from it packs the same way. */
  lemma ContainerOfName(format: string)
    requires Container(format).Some?
    ensures var name := Container(format).value.0;
      && ToLower(name) == name
      && Container(name) == Container(format)
  {
  }

  /** The containers are those the native variant selects by `Format`: the name of each valid
      `Format`'s container selects that container here. */
  lemma ContainerAgrees(f: Formats.Format)
    ensures NativeCompressImage.Container(f).Some? ==>
      Container(NativeCompressImage.Container(f).value.0) == NativeCompressImage.Container(f)
    ensures NativeCompressImage.Container(f).None? <==> f == Formats.INVALID
  {
  }

  /** The bytes `toImageMsg` appends to the stream: the encoded matrix, or the untouched empty
      buffer when no branch fires. */
  function Payload(b: Backend, format: string, image: Mat): seq<byte> {
    match Container(format)
    case Some(c) => b.imencode(c.1, image)
    case None => []
  }

  // ---------------------------------------------------------------------------------------
  // The class

  class CvCompressImage {
    var header: Header
    var image: Mat
    var format: string
    /** The bytes written so far to the object's output stream, which is never reset. */
    var stream: seq<byte>

    /** `CvCompressImage()`: null header, `new Mat()`, empty format, empty stream. */
    constructor ()
      ensures header == NullHeader && image == EmptyMat && format == "" && stream == []
    {
      header := NullHeader;
      image := EmptyMat;
      format := "";
      stream := [];
    }

    /** `CvCompressImage(header, format)`: the format is stored lower-cased. */
    constructor WithFormat(h: Header, fmt: string)
      ensures header == h && format == ToLower(fmt) && image == EmptyMat && stream == []
    {
      header := h;
      format := ToLower(fmt);
      image := EmptyMat;
      stream := [];
    }

    /** `CvCompressImage(header, format, image)`: the format is stored lower-cased. */
    constructor WithImage(h: Header, fmt: string, img: Mat)
      ensures header == h && format == ToLower(fmt) && image == img && stream == []
    {
      header := h;
      format := ToLower(fmt);
      image := img;
      stream := [];
    }

    /** `toImageMsg()`: hands a null message to `toImageMsg(CompressedImage)`, which throws at
        once. */
    method ToBlankImageMsg(b: Backend) returns (r: Result<CompressedImageMsg, Exception>)
      modifies this
      ensures r == Failure(NullPointer)
      ensures header == old(header) && image == old(image) && format == old(format)
      ensures stream == old(stream)
    {
      r := ToImageMsg(b, null);
    }

    /** `toImageMsg(ros_image)`: the header goes into the message; the container the format
        string selects names the message's format and encodes the matrix; the bytes are
        appended to the stream and the message receives the whole stream. */
    method ToImageMsg(b: Backend, msg: CompressedImageMsg?) returns (r: Result<CompressedImageMsg, Exception>)
      modifies this, msg
      ensures header == old(header) && image == old(image) && format == old(format)
      ensures msg == null ==> r == Failure(NullPointer) && stream == old(stream)
      ensures msg != null ==>
        && r == Success(msg)
        && msg.header == header
        && msg.format == (if Container(format).Some? then Container(format).value.0 else old(msg.format))
        && stream == old(stream) + Payload(b, format, image)
        && msg.data == stream
    {
      if msg == null {
        return Failure(NullPointer);
      }
      msg.header := header;
      var buf: seq<byte> := [];
      if format == "" || format == "jpg" {
        msg.format := "jpg";
        buf := b.imencode(".jpg", image);
      }
      if format == "png" {
        msg.format := "png";
        buf := b.imencode(".png", image);
      }
      if format == "jp2" {
        msg.format := "jp2";
        buf := b.imencode(".jp2", image);
      }
      if format == "bmp" {
        msg.format := "bmp";
        buf := b.imencode(".bmp", image);
      }
      if format == "tif" {
        msg.format := "tif";
        buf := b.imencode(".tif", image);
      }
      stream := stream + buf;
      msg.data := stream;
      return Success(msg);
    }

    /** `toCvCopyImpl(source, header, format)`: a new object with the header and the format;
        the matrix given is not used, so the image is the new object's `new Mat()`. */
    static method ToCvCopyImpl(source: Mat, h: Header, dst: string) returns (r: CvCompressImage)
      ensures fresh(r)
      ensures r.header == h && r.format == dst && r.image == EmptyMat && r.stream == []
    {
      r := new CvCompressImage();
      r.header := h;
      r.format := dst;
    }

    /** `matFromImage(source)`: BitmapFactory decodes the payload and the bitmap's pixel buffer
        is put into a CV_8UC3 matrix of its size. An undecodable payload gives a null bitmap,
        on which the first call throws; `Mat.put` throws unless the buffer's length is a
        multiple of the three channels. */
    static function MatFromImage(b: Backend, source: CompressedImageMsg): (r: Result<Mat, Exception>)
      reads source
      ensures b.decodeBitmap(source.data).None? ==> r == Failure(NullPointer)
      ensures b.decodeBitmap(source.data).Some? ==>
        var bm := b.decodeBitmap(source.data).value;
        && (r.Success? <==> |bm.pixels| % 3 == 0)
        && (r.Failure? ==> r.error == UnsupportedOperation)
        && (r.Success? ==> r.value == b.matFromBytes(bm.height, bm.width, CV_8UC3, bm.pixels))
    {
      match b.decodeBitmap(source.data)
      case None => Failure(NullPointer)
      case Some(bm) => MatFromBytes(b, bm.height, bm.width, CV_8UC3, bm.pixels)
    }

    /** `toCvCopy(source)`: the decoded matrix, the message header and the empty format. */
    static method ToCvCopy(b: Backend, source: CompressedImageMsg) returns (r: Result<CvCompressImage, Exception>)
      ensures r.Success? <==> MatFromImage(b, source).Success?
      ensures r.Failure? ==> r.error == MatFromImage(b, source).error
      ensures r.Success? ==>
        && fresh(r.value)
        && r.value.header == source.header && r.value.format == ""
        && r.value.image == EmptyMat && r.value.stream == []
    {
      var mat := MatFromImage(b, source);
      if mat.Failure? {
        return Failure(mat.error);
      }
      var img := ToCvCopyImpl(mat.value, source.header, "");
      return Success(img);
    }

    /** `toCvCopy(source, format)`: as `toCvCopy(source)`, with the format lower-cased. */
    static method ToCvCopyTo(b: Backend, source: CompressedImageMsg, fmt: string)
      returns (r: Result<CvCompressImage, Exception>)
      ensures r.Success? <==> MatFromImage(b, source).Success?
      ensures r.Failure? ==> r.error == MatFromImage(b, source).error
      ensures r.Success? ==>
        && fresh(r.value)
        && r.value.header == source.header && r.value.format == ToLower(fmt)
        && r.value.image == EmptyMat && r.value.stream == []
    {
      var mat := MatFromImage(b, source);
      if mat.Failure? {
        return Failure(mat.error);
      }
      var img := ToCvCopyImpl(mat.value, source.header, ToLower(fmt));
      return Success(img);
    }

    /** `cvtColor(source)`: `toCvCopyImpl` on the object's own matrix, header and format. */
    static method CvtColor(source: CvCompressImage) returns (r: CvCompressImage)
      ensures fresh(r)
      ensures r.header == source.header && r.format == source.format
      ensures r.image == EmptyMat && r.stream == []
    {
      r := ToCvCopyImpl(source.image, source.header, source.format);
    }
  }
}
