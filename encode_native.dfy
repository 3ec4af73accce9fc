/** `ImEncode` of the cv_bridge_native variant: the case-insensitive encoding catalogue
    (`getCvType`, `getEncode`) and the conversion planner `getConversionCode`, which consults the
    `imageEncodings` predicates before it looks the pair of families up in the table and
    appends a depth step when the bit depths differ. */
module NativeEncode {
  import opened Wrappers
  import opened JavaLang
  import opened OpenCv
  import opened Families
  import opened ImageEncodings
  import opened ConversionTable

  // ---------------------------------------------------------------------------------------
  // getCvType

  /** `getCvType(enc)`: the lower-cased string against the semantic names, then its upper-cased
      form against the TYPE_ names; otherwise the exception names the upper-cased string. */
  function GetCvType(enc: string): Result<CvType, Exception> {
    var l := ToLower(enc);
    match SemanticMatch(l)
    case Some(p) => Success(p.1)
    case None =>
      var u := ToUpper(l);
      match NamedStorageType(u)
      case Some(t) => Success(t)
      case None => Failure(UnrecognizedImageEncoding(u))
  }

  /** A semantic name in any letter case gives the storage type its encoding needs. */
  lemma GetCvTypeSemantic(enc: string, e: Semantic)
    requires ToLower(enc) == e.Name()
    ensures GetCvType(enc) == Success(e.StorageType())
  {
    SemanticMatchIff(ToLower(enc), e);
  }

  /** A TYPE_ name in any letter case gives its storage type. */
  lemma GetCvTypeStorage(enc: string, t: CvType)
    requires HasStorageName(t) && ToUpper(enc) == StorageName(t)
    ensures GetCvType(enc) == Success(t)
  {
    var l := ToLower(enc);
    LowerOfUpper(enc);
    UpperOfLower(enc);
    forall e: Semantic
      ensures e.Name() != l
    {
      StorageNameNotSemantic(t, e);
    }
    SemanticMatchNone(l);
    NamedStorageTypeIff(ToUpper(l), t);
  }

  /** A string in neither vocabulary throws, naming the string in upper case. */
  lemma GetCvTypeUnrecognised(enc: string)
    requires forall e: Semantic :: e.Name() != ToLower(enc)
    requires forall t: CvType :: HasStorageName(t) ==> StorageName(t) != ToUpper(enc)
    ensures GetCvType(enc) == Failure(UnrecognizedImageEncoding(ToUpper(enc)))
  {
    var l := ToLower(enc);
    UpperOfLower(enc);
    SemanticMatchNone(l);
    match NamedStorageType(ToUpper(l))
    case Some(t) =>
      NamedStorageTypeIff(ToUpper(l), t);
    case None =>
  }

  /** Conversely, a string that gives a type is a name of one of the two vocabularies. */
  lemma GetCvTypeRecognised(enc: string)
    requires GetCvType(enc).Success?
    ensures || (exists e: Semantic :: e.Name() == ToLower(enc))
            || (exists t: CvType :: HasStorageName(t) && StorageName(t) == ToUpper(enc))
  {
    var l := ToLower(enc);
    UpperOfLower(enc);
    match SemanticMatch(l)
    case Some(p) =>
      assert p.0.Name() == l;
    case None =>
      var t := NamedStorageType(ToUpper(l)).value;
      NamedStorageTypeIff(ToUpper(l), t);
  }

  /** The result depends only on the string's lower-case form. */
  lemma GetCvTypeCaseInsensitive(a: string, b: string)
    requires ToLower(a) == ToLower(b)
    ensures GetCvType(a) == GetCvType(b)
  {
  }

  // ---------------------------------------------------------------------------------------
  // getEncode

  /** `getEncode(enc)`: the family of the lower-cased string, INVALID when it has none. */
  function GetEncode(enc: string): Encode {
    FamilyMatch(ToLower(enc))
  }

  /** A semantic name in any letter case gets its encoding's family: one for mono8, bgr8, rgb8,
      bgra8, rgba8, yuv422 and the bayer_*8 names, INVALID for every 16-bit name. */
  lemma GetEncodeName(enc: string, e: Semantic)
    requires ToLower(enc) == e.Name()
    ensures GetEncode(enc) == e.Family()
    ensures GetEncode(enc) == INVALID <==> e.Pixel? && e.bits == Bits16
  {
    FamilyMatchName(e);
  }

  /** Any other string gets INVALID. */
  lemma GetEncodeNotName(enc: string)
    requires forall e: Semantic :: e.Name() != ToLower(enc)
    ensures GetEncode(enc) == INVALID
  {
    FamilyMatchNotName(ToLower(enc));
  }

  // ---------------------------------------------------------------------------------------
  // getConversionCode

  /** `is_*_color_format`: isColor, isMono or isBayer, or the string is yuv422 in any case. */
  predicate IsColorFormat(o: Oracle, s: string) {
    o.isColor(s) || o.isMono(s) || o.isBayer(s) || ToLower(s) == YUV422_NAME
  }

  /** The plan `getConversionCode(src, dst)` returns, or the exception it throws. A non-colour
      side yields `new Vector(1, SAME_FORMAT)`, i.e. initial capacity 1 and capacity increment
      SAME_FORMAT: an empty list. */
  function Plan(o: Oracle, src: string, dst: string): Result<seq<Step>, Exception> {
    var sameChannels := o.numChannels(src) == o.numChannels(dst);
    if !IsColorFormat(o, src) then
      if IsColorFormat(o, dst) then Failure(NotAColorFormat(src, dst))
      else if !sameChannels then Failure(ChannelCountMismatch(src, dst))
      else Success([])
    else if !IsColorFormat(o, dst) then
      if !sameChannels then Failure(ColorToNonColorMismatch(src, dst))
      else Success([])
    else
      match Entry(GetEncode(src), GetEncode(dst))
      case None => Failure(UnsupportedConversion(src, dst))
      case Some(v) =>
        Success(if o.bitDepth(src) != o.bitDepth(dst) then v + [SameFormat] else v)
  }

  /** `getConversionCode(src, dst)`: builds the table, looks the pair of families up and
      appends SAME_FORMAT to the list it finds when the bit depths differ. */
  method GetConversionCode(o: Oracle, src: string, dst: string) returns (r: Result<seq<Step>, Exception>)
    ensures r == Plan(o, src, dst)
  {
    var srcEncode := GetEncode(src);
    var dstEncode := GetEncode(dst);
    var srcColor := IsColorFormat(o, src);
    var dstColor := IsColorFormat(o, dst);
    var sameChannels := o.numChannels(src) == o.numChannels(dst);
    if !srcColor {
      if dstColor {
        return Failure(NotAColorFormat(src, dst));
      }
      if !sameChannels {
        return Failure(ChannelCountMismatch(src, dst));
      }
      return Success([]);
    }
    if !dstColor {
      if !sameChannels {
        return Failure(ColorToNonColorMismatch(src, dst));
      }
      return Success([]);
    }
    var table := BuildConversionCodes();
    var val := Lookup(table, (srcEncode, dstEncode));
    if val.None? {
      return Failure(UnsupportedConversion(src, dst));
    }
    var v := val.value;
    if o.bitDepth(src) != o.bitDepth(dst) {
      v := v + [SameFormat];
    }
    return Success(v);
  }

  /** When the planner throws, and what it throws. */
  lemma PlanFails(o: Oracle, src: string, dst: string)
    ensures Plan(o, src, dst).Failure? <==>
      || (!IsColorFormat(o, src) && IsColorFormat(o, dst))
      || (IsColorFormat(o, src) != IsColorFormat(o, dst) && o.numChannels(src) != o.numChannels(dst))
      || (!IsColorFormat(o, src) && o.numChannels(src) != o.numChannels(dst))
      || (IsColorFormat(o, src) && IsColorFormat(o, dst) && !Supported(GetEncode(src), GetEncode(dst)))
    ensures Plan(o, src, dst).Failure? && !IsColorFormat(o, src) && IsColorFormat(o, dst) ==>
      Plan(o, src, dst).error == NotAColorFormat(src, dst)
    ensures Plan(o, src, dst).Failure? && !IsColorFormat(o, src) && !IsColorFormat(o, dst) ==>
      Plan(o, src, dst).error == ChannelCountMismatch(src, dst)
    ensures Plan(o, src, dst).Failure? && IsColorFormat(o, src) && !IsColorFormat(o, dst) ==>
      Plan(o, src, dst).error == ColorToNonColorMismatch(src, dst)
    ensures Plan(o, src, dst).Failure? && IsColorFormat(o, src) && IsColorFormat(o, dst) ==>
      Plan(o, src, dst).error == UnsupportedConversion(src, dst)
  {
    EntryIffSupported(GetEncode(src), GetEncode(dst));
  }

  /** A plan is empty exactly when a side is not a colour format; otherwise it is the table
      entry, with a single SAME_FORMAT after it exactly when the bit depths differ. */
  lemma PlanShape(o: Oracle, src: string, dst: string)
    requires Plan(o, src, dst).Success?
    ensures var p := Plan(o, src, dst).value;
      && (p == [] <==> !(IsColorFormat(o, src) && IsColorFormat(o, dst)))
      && (p != [] ==>
            && Entry(GetEncode(src), GetEncode(dst)).Some?
            && p[..1] == Entry(GetEncode(src), GetEncode(dst)).value
            && (|p| == 2 <==> o.bitDepth(src) != o.bitDepth(dst))
            && |p| <= 2
            && (|p| == 2 ==> p[1] == SameFormat))
  {
    EntryShape(GetEncode(src), GetEncode(dst));
  }

  /** With both sides colour formats, no two Bayer names convert into each other and no 16-bit
      name converts at all: its family is INVALID, which has no table entry. */
  lemma PlanUnsupported(o: Oracle, src: string, dst: string, e: Semantic, f: Semantic)
    requires IsColorFormat(o, src) && IsColorFormat(o, dst)
    requires ToLower(src) == e.Name() && ToLower(dst) == f.Name()
    requires (e.Pixel? && e.bits == Bits16) || (f.Pixel? && f.bits == Bits16)
          || (IsBayer(e.Family()) && IsBayer(f.Family()))
    ensures Plan(o, src, dst) == Failure(UnsupportedConversion(src, dst))
  {
    GetEncodeName(src, e);
    GetEncodeName(dst, f);
    Absences(e.Family(), f.Family());
  }

  /** Two colour names of one 8-bit family and equal bit depth plan the no-op [SAME_FORMAT]. */
  lemma PlanIdentity(o: Oracle, src: string, dst: string, e: Semantic)
    requires IsColorFormat(o, src) && IsColorFormat(o, dst)
    requires ToLower(src) == e.Name() && ToLower(dst) == e.Name()
    requires 0 <= e.Family().Number() <= 5
    requires o.bitDepth(src) == o.bitDepth(dst)
    ensures Plan(o, src, dst) == Success([SameFormat])
  {
    GetEncodeName(src, e);
    GetEncodeName(dst, e);
  }
}
