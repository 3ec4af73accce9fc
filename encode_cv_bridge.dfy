/** `ImEncode` of the cv_bridge variant: the upper-casing encoding catalogue (`getCvType`,
    `getFormat`) and the planner `getConversionCode`, whose colour and channel checks are
    hard-wired to `true` and which returns the table entry without a depth step. */
module CvBridgeEncode {
  import opened Wrappers
  import opened JavaLang
  import opened OpenCv
  import opened Families
  import opened ImageEncodings
  import opened ConversionTable
  import NativeEncode

  // ---------------------------------------------------------------------------------------
  // getCvType

  /** `getCvType(enc)`: the upper-cased string against the upper-case semantic names, then
      against the TYPE_ names; otherwise the exception names the string as passed. */
  function GetCvType(enc: string): Result<CvType, Exception> {
    var u := ToUpper(enc);
    match UpperSemanticMatch(u)
    case Some(p) => Success(p.1)
    case None =>
      match NamedStorageType(u)
      case Some(t) => Success(t)
      case None => Failure(UnrecognizedImageEncoding(enc))
  }

  /** Upper-casing and comparing with the upper-case name accepts exactly the strings that
      lower-casing and comparing with the name accepts. */
  lemma UpperNameMatch(enc: string, e: Semantic)
    ensures ToUpper(enc) == e.UpperName() <==> ToLower(enc) == e.Name()
  {
    NameLowerCase(e);
    LowerMatchIffUpperMatch(enc, e.Name());
  }

  /** The two variants recognise the same strings as the same storage types; only the
      exception's text differs: here it names the string as passed, not upper-cased. */
  lemma GetCvTypeAgrees(enc: string)
    ensures GetCvType(enc).Success? <==> NativeEncode.GetCvType(enc).Success?
    ensures GetCvType(enc).Success? ==> GetCvType(enc).value == NativeEncode.GetCvType(enc).value
    ensures GetCvType(enc).Failure? ==> GetCvType(enc).error == UnrecognizedImageEncoding(enc)
  {
    var u := ToUpper(enc);
    UpperOfLower(enc);
    match UpperSemanticMatch(u)
    case Some(p) =>
      var e := p.0;
      SemanticChainExact(e, p.1);
      UpperNameMatch(enc, e);
      NativeEncode.GetCvTypeSemantic(enc, e);
    case None =>
      UpperSemanticMatchNone(u);
      forall e: Semantic
        ensures e.Name() != ToLower(enc)
      {
        UpperNameMatch(enc, e);
      }
      SemanticMatchNone(ToLower(enc));
  }

  /** Hence a semantic name in any letter case gives the storage type its encoding needs... */
  lemma GetCvTypeSemantic(enc: string, e: Semantic)
    requires ToUpper(enc) == e.UpperName()
    ensures GetCvType(enc) == Success(e.StorageType())
  {
    UpperNameMatch(enc, e);
    NativeEncode.GetCvTypeSemantic(enc, e);
    GetCvTypeAgrees(enc);
  }

  /** ... a TYPE_ name in any letter case gives its storage type ... */
  lemma GetCvTypeStorage(enc: string, t: CvType)
    requires HasStorageName(t) && ToUpper(enc) == StorageName(t)
    ensures GetCvType(enc) == Success(t)
  {
    NativeEncode.GetCvTypeStorage(enc, t);
    GetCvTypeAgrees(enc);
  }

  /** ... and any other string throws, naming the string as passed. */
  lemma GetCvTypeUnrecognised(enc: string)
    requires forall e: Semantic :: e.Name() != ToLower(enc)
    requires forall t: CvType :: HasStorageName(t) ==> StorageName(t) != ToUpper(enc)
    ensures GetCvType(enc) == Failure(UnrecognizedImageEncoding(enc))
  {
    NativeEncode.GetCvTypeUnrecognised(enc);
    GetCvTypeAgrees(enc);
  }

  // ---------------------------------------------------------------------------------------
  // getFormat

  /** `getFormat(enc)`: the family of the upper-cased string, INVALID when it has none. */
  function GetFormat(enc: string): Encode {
    UpperFamilyMatch(ToUpper(enc))
  }

  /** `getFormat` assigns every string the family the native `getEncode` assigns it. */
  lemma GetFormatAgrees(enc: string)
    ensures GetFormat(enc) == NativeEncode.GetEncode(enc)
  {
    if e: Semantic :| e.Name() == ToLower(enc) {
      NativeEncode.GetEncodeName(enc, e);
      UpperNameMatch(enc, e);
      UpperFamilyMatchName(e);
    } else {
      NativeEncode.GetEncodeNotName(enc);
      forall e: Semantic
        ensures e.UpperName() != ToUpper(enc)
      {
        UpperNameMatch(enc, e);
      }
      UpperFamilyMatchNotName(ToUpper(enc));
    }
  }

  /** So a family comes only from the 8-bit names, yuv422 and bayer_*8, in any letter case. */
  lemma GetFormatName(enc: string, e: Semantic)
    requires ToUpper(enc) == e.UpperName()
    ensures GetFormat(enc) == e.Family()
    ensures GetFormat(enc) == INVALID <==> e.Pixel? && e.bits == Bits16
  {
    UpperNameMatch(enc, e);
    NativeEncode.GetEncodeName(enc, e);
    GetFormatAgrees(enc);
  }

  lemma GetFormatNotName(enc: string)
    requires forall e: Semantic :: e.UpperName() != ToUpper(enc)
    ensures GetFormat(enc) == INVALID
  {
    UpperFamilyMatchNotName(ToUpper(enc));
  }

  // ---------------------------------------------------------------------------------------
  // getConversionCode

  /** The plan `getConversionCode(src, dst)` returns: the table entry of the two families,
      unchanged, or "Unsupported conversion" when the pair has none. */
  function Plan(src: string, dst: string): Result<seq<Step>, Exception> {
    match Entry(GetFormat(src), GetFormat(dst))
    case None => Failure(UnsupportedConversion(src, dst))
    case Some(v) => Success(v)
  }

  /** `getConversionCode(src, dst)`. The three flags are constant `true`, so the non-colour
      branches are kept as written but never taken. */
  method GetConversionCode(src: string, dst: string) returns (r: Result<seq<Step>, Exception>)
    ensures r == Plan(src, dst)
  {
    var srcEncode := GetFormat(src);
    var dstEncode := GetFormat(dst);
    var srcColor := true;
    var dstColor := true;
    var sameChannels := true;
    if !srcColor {
      if dstColor {
        return Failure(NotAColorFormat(src, dst));
      }
      if !sameChannels {
        return Failure(ChannelCountMismatch(src, dst));
      }
      return Success([]);
    }
    if !dstColor {
      if !sameChannels {
        return Failure(ColorToNonColorMismatch(src, dst));
      }
      return Success([]);
    }
    var table := BuildConversionCodes();
    var val := Lookup(table, (srcEncode, dstEncode));
    match val
    case None => return Failure(UnsupportedConversion(src, dst));
    case Some(v) => return Success(v);
  }

  /** Every request reaches the table: it succeeds exactly for the supported pairs of families,
      with a one-element plan that is SAME_FORMAT exactly for a family and itself. */
  lemma PlanIffSupported(src: string, dst: string)
    ensures Plan(src, dst).Success? <==> Supported(GetFormat(src), GetFormat(dst))
    ensures Plan(src, dst).Failure? ==> Plan(src, dst).error == UnsupportedConversion(src, dst)
    ensures Plan(src, dst).Success? ==>
      && |Plan(src, dst).value| == 1
      && (Plan(src, dst).value[0] == SameFormat <==> GetFormat(src) == GetFormat(dst))
  {
    EntryIffSupported(GetFormat(src), GetFormat(dst));
    if Plan(src, dst).Success? {
      EntryShape(GetFormat(src), GetFormat(dst));
    }
  }

  /** A string without a family (any 16-bit name, any unknown string) converts to nothing and
      from nothing. */
  lemma PlanInvalid(src: string, dst: string)
    requires GetFormat(src) == INVALID || GetFormat(dst) == INVALID
    ensures Plan(src, dst) == Failure(UnsupportedConversion(src, dst))
  {
    Absences(GetFormat(src), GetFormat(dst));
  }

  /** Where the native planner checks the colour formats and finds both, the two planners agree
      up to the native depth step: equal bit depths give the same plan, different ones give the
      native plan with one SAME_FORMAT more. */
  lemma PlanAgreesWithNative(o: Oracle, src: string, dst: string)
    requires NativeEncode.IsColorFormat(o, src) && NativeEncode.IsColorFormat(o, dst)
    ensures Plan(src, dst).Failure? <==> NativeEncode.Plan(o, src, dst).Failure?
    ensures Plan(src, dst).Success? && o.bitDepth(src) == o.bitDepth(dst) ==>
      NativeEncode.Plan(o, src, dst) == Plan(src, dst)
    ensures Plan(src, dst).Success? && o.bitDepth(src) != o.bitDepth(dst) ==>
      NativeEncode.Plan(o, src, dst).value == Plan(src, dst).value + [SameFormat]
  {
    GetFormatAgrees(src);
    GetFormatAgrees(dst);
  }
}
