/** The (family, family) -> conversion-codes table `getConversionCodes` builds. Both `Encode`
    variants build the same table: an identity entry [SAME_FORMAT] for the family numbers 0..5,
    then one colour code for each supported pair of distinct families. */
module ConversionTable {
  import opened Wrappers
  import opened OpenCv
  import opened Families

  /** GRAY, RGB, BGR, RGBA and BGRA: the families every other colour family converts to. */
  predicate IsPlain(e: Encode) {
    e.GRAY? || e.RGB? || e.BGR? || e.RGBA? || e.BGRA?
  }

  predicate IsBayer(e: Encode) {
    e.BAYER_RGGB? || e.BAYER_BGGR? || e.BAYER_GBRG? || e.BAYER_GRBG?
  }

  /** The pairs the table is meant to support: the identity on the first six family numbers,
      any two distinct plain families, YUV 4:2:2 to a plain family, and a Bayer mosaic to
      grey, RGB or BGR. */
  predicate Supported(a: Encode, b: Encode) {
    || (a == b && 0 <= a.Number() <= 5)
    || (IsPlain(a) && IsPlain(b) && a != b)
    || (a == YUV422 && IsPlain(b))
    || (IsBayer(a) && (b == GRAY || b == RGB || b == BGR))
  }

  /** The OpenCV colour space a family's pixels are in. OpenCV names a Bayer mosaic after the
      second row's second and third samples, so RGGB is OpenCV's BayerBG, BGGR its BayerRG,
      GBRG its BayerGR and GRBG its BayerGB. */
  function SpaceOf(e: Encode): Option<ColorSpace> {
    match e
    case INVALID => None
    case GRAY => Some(GraySpace)
    case RGB => Some(RgbSpace)
    case BGR => Some(BgrSpace)
    case RGBA => Some(RgbaSpace)
    case BGRA => Some(BgraSpace)
    case YUV422 => Some(YuvUyvySpace)
    case BAYER_RGGB => Some(BayerBGSpace)
    case BAYER_BGGR => Some(BayerRGSpace)
    case BAYER_GBRG => Some(BayerGRSpace)
    case BAYER_GRBG => Some(BayerGBSpace)
  }

  /** The colour code the table stores for a pair of distinct families, if any. */
  function Code(a: Encode, b: Encode): Option<ColorCode> {
    match (a, b)
    case (GRAY, RGB) => Some(COLOR_GRAY2RGB)
    case (GRAY, BGR) => Some(COLOR_GRAY2BGR)
    case (GRAY, RGBA) => Some(COLOR_GRAY2RGBA)
    case (GRAY, BGRA) => Some(COLOR_GRAY2BGRA)
    case (RGB, GRAY) => Some(COLOR_RGB2GRAY)
    case (RGB, BGR) => Some(COLOR_RGB2BGR)
    case (RGB, RGBA) => Some(COLOR_RGB2RGBA)
    case (RGB, BGRA) => Some(COLOR_RGB2BGRA)
    case (BGR, GRAY) => Some(COLOR_BGR2GRAY)
    case (BGR, RGB) => Some(COLOR_BGR2RGB)
    case (BGR, RGBA) => Some(COLOR_BGR2RGBA)
    case (BGR, BGRA) => Some(COLOR_BGR2BGRA)
    case (RGBA, GRAY) => Some(COLOR_RGBA2GRAY)
    case (RGBA, RGB) => Some(COLOR_RGBA2RGB)
    case (RGBA, BGR) => Some(COLOR_RGBA2BGR)
    case (RGBA, BGRA) => Some(COLOR_RGBA2BGRA)
    case (BGRA, GRAY) => Some(COLOR_BGRA2GRAY)
    case (BGRA, RGB) => Some(COLOR_BGRA2RGB)
    case (BGRA, BGR) => Some(COLOR_BGRA2BGR)
    case (BGRA, RGBA) => Some(COLOR_BGRA2RGBA)
    case (YUV422, GRAY) => Some(COLOR_YUV2GRAY_UYVY)
    case (YUV422, RGB) => Some(COLOR_YUV2RGB_UYVY)
    case (YUV422, BGR) => Some(COLOR_YUV2BGR_UYVY)
    case (YUV422, RGBA) => Some(COLOR_YUV2RGBA_UYVY)
    case (YUV422, BGRA) => Some(COLOR_YUV2BGRA_UYVY)
    case (BAYER_RGGB, GRAY) => Some(COLOR_BayerBG2GRAY)
    case (BAYER_RGGB, RGB) => Some(COLOR_BayerBG2RGB)
    case (BAYER_RGGB, BGR) => Some(COLOR_BayerBG2BGR)
    case (BAYER_BGGR, GRAY) => Some(COLOR_BayerRG2GRAY)
    case (BAYER_BGGR, RGB) => Some(COLOR_BayerRG2RGB)
    case (BAYER_BGGR, BGR) => Some(COLOR_BayerRG2BGR)
    case (BAYER_GBRG, GRAY) => Some(COLOR_BayerGR2GRAY)
    case (BAYER_GBRG, RGB) => Some(COLOR_BayerGR2RGB)
    case (BAYER_GBRG, BGR) => Some(COLOR_BayerGR2BGR)
    case (BAYER_GRBG, GRAY) => Some(COLOR_BayerGB2GRAY)
    case (BAYER_GRBG, RGB) => Some(COLOR_BayerGB2RGB)
    case (BAYER_GRBG, BGR) => Some(COLOR_BayerGB2BGR)
    case _ => None
  }

  /** `CONVERSION_CODES.get(new Pair(a, b))`: the list stored under a key, None for null. */
  function Entry(a: Encode, b: Encode): Option<seq<Step>> {
    if a == b then
      if 0 <= a.Number() <= 5 then Some([SameFormat]) else None
    else
      match Code(a, b)
      case Some(c) => Some([Color(c)])
      case None => None
  }

  /** Position of a family among the table's explicit `put` groups (INVALID has none). */
  function GroupIndex(e: Encode): int {
    if e == INVALID then 11 else e.Number() + 1
  }

  /** The table with the identity entries and the `put` groups 1..k in place. */
  ghost predicate FilledUpTo(res: map<(Encode, Encode), seq<Step>>, k: int) {
    forall a, b :: Lookup(res, (a, b)) == if a == b || GroupIndex(a) <= k then Entry(a, b) else None
  }

  /** `getConversionCodes()`: the identity loop over `Encode.valueOf(0..5)` followed by the
      explicit `put`s, each storing a one-element list. */
  method BuildConversionCodes() returns (res: map<(Encode, Encode), seq<Step>>)
    ensures forall a, b :: Lookup(res, (a, b)) == Entry(a, b)
  {
    res := map[];
    for i := 0 to 6
      invariant forall a, b :: Lookup(res, (a, b))
                               == (if a == b && 0 <= a.Number() < i then Some([SameFormat]) else None)
    {
      var e := ValueOf(i);
      ValueOfRange(i);
      forall a: Encode | a.Number() == i
        ensures a == e.value
      {
        NumbersDistinct(a, e.value);
      }
      res := res[(e.value, e.value) := [SameFormat]];
    }
    assert FilledUpTo(res, 0);
    res := PutGrayRow(res);
    res := PutRgbRow(res);
    res := PutBgrRow(res);
    res := PutRgbaRow(res);
    res := PutBgraRow(res);
    res := PutYuv422Row(res);
    res := PutBayerRggbRow(res);
    res := PutBayerBggrRow(res);
    res := PutBayerGbrgRow(res);
    res := PutBayerGrbgRow(res);
  }

  /** The `put`s keyed on GRAY, in source order. */
  method PutGrayRow(before: map<(Encode, Encode), seq<Step>>) returns (res: map<(Encode, Encode), seq<Step>>)
    requires FilledUpTo(before, 0)
    ensures FilledUpTo(res, 1)
  {
    res := before;
    res := res[(GRAY, RGB) := [Color(COLOR_GRAY2RGB)]];
    res := res[(GRAY, BGR) := [Color(COLOR_GRAY2BGR)]];
    res := res[(GRAY, RGBA) := [Color(COLOR_GRAY2RGBA)]];
    res := res[(GRAY, BGRA) := [Color(COLOR_GRAY2BGRA)]];
  }

  /** The `put`s keyed on RGB, in source order. */
  method PutRgbRow(before: map<(Encode, Encode), seq<Step>>) returns (res: map<(Encode, Encode), seq<Step>>)
    requires FilledUpTo(before, 1)
    ensures FilledUpTo(res, 2)
  {
    res := before;
    res := res[(RGB, GRAY) := [Color(COLOR_RGB2GRAY)]];
    res := res[(RGB, BGR) := [Color(COLOR_RGB2BGR)]];
    res := res[(RGB, RGBA) := [Color(COLOR_RGB2RGBA)]];
    res := res[(RGB, BGRA) := [Color(COLOR_RGB2BGRA)]];
  }

  /** The `put`s keyed on BGR, in source order. */
  method PutBgrRow(before: map<(Encode, Encode), seq<Step>>) returns (res: map<(Encode, Encode), seq<Step>>)
    requires FilledUpTo(before, 2)
    ensures FilledUpTo(res, 3)
  {
    res := before;
    res := res[(BGR, GRAY) := [Color(COLOR_BGR2GRAY)]];
    res := res[(BGR, RGB) := [Color(COLOR_BGR2RGB)]];
    res := res[(BGR, RGBA) := [Color(COLOR_BGR2RGBA)]];
    res := res[(BGR, BGRA) := [Color(COLOR_BGR2BGRA)]];
  }

  /** The `put`s keyed on RGBA, in source order. */
  method PutRgbaRow(before: map<(Encode, Encode), seq<Step>>) returns (res: map<(Encode, Encode), seq<Step>>)
    requires FilledUpTo(before, 3)
    ensures FilledUpTo(res, 4)
  {
    res := before;
    res := res[(RGBA, GRAY) := [Color(COLOR_RGBA2GRAY)]];
    res := res[(RGBA, RGB) := [Color(COLOR_RGBA2RGB)]];
    res := res[(RGBA, BGR) := [Color(COLOR_RGBA2BGR)]];
    res := res[(RGBA, BGRA) := [Color(COLOR_RGBA2BGRA)]];
  }

  /** The `put`s keyed on BGRA, in source order. */
  method PutBgraRow(before: map<(Encode, Encode), seq<Step>>) returns (res: map<(Encode, Encode), seq<Step>>)
    requires FilledUpTo(before, 4)
    ensures FilledUpTo(res, 5)
  {
    res := before;
    res := res[(BGRA, GRAY) := [Color(COLOR_BGRA2GRAY)]];
    res := res[(BGRA, RGB) := [Color(COLOR_BGRA2RGB)]];
    res := res[(BGRA, BGR) := [Color(COLOR_BGRA2BGR)]];
    res := res[(BGRA, RGBA) := [Color(COLOR_BGRA2RGBA)]];
  }

  /** The `put`s keyed on YUV422, in source order. */
  method PutYuv422Row(before: map<(Encode, Encode), seq<Step>>) returns (res: map<(Encode, Encode), seq<Step>>)
    requires FilledUpTo(before, 5)
    ensures FilledUpTo(res, 6)
  {
    res := before;
    res := res[(YUV422, GRAY) := [Color(COLOR_YUV2GRAY_UYVY)]];
    res := res[(YUV422, RGB) := [Color(COLOR_YUV2RGB_UYVY)]];
    res := res[(YUV422, BGR) := [Color(COLOR_YUV2BGR_UYVY)]];
    res := res[(YUV422, RGBA) := [Color(COLOR_YUV2RGBA_UYVY)]];
    res := res[(YUV422, BGRA) := [Color(COLOR_YUV2BGRA_UYVY)]];
  }

  /** The `put`s keyed on BAYER_RGGB, in source order. */
  method PutBayerRggbRow(before: map<(Encode, Encode), seq<Step>>) returns (res: map<(Encode, Encode), seq<Step>>)
    requires FilledUpTo(before, 6)
    ensures FilledUpTo(res, 7)
  {
    res := before;
    res := res[(BAYER_RGGB, GRAY) := [Color(COLOR_BayerBG2GRAY)]];
    res := res[(BAYER_RGGB, RGB) := [Color(COLOR_BayerBG2RGB)]];
    res := res[(BAYER_RGGB, BGR) := [Color(COLOR_BayerBG2BGR)]];
  }

  /** The `put`s keyed on BAYER_BGGR, in source order. */
  method PutBayerBggrRow(before: map<(Encode, Encode), seq<Step>>) returns (res: map<(Encode, Encode), seq<Step>>)
    requires FilledUpTo(before, 7)
    ensures FilledUpTo(res, 8)
  {
    res := before;
    res := res[(BAYER_BGGR, GRAY) := [Color(COLOR_BayerRG2GRAY)]];
    res := res[(BAYER_BGGR, RGB) := [Color(COLOR_BayerRG2RGB)]];
    res := res[(BAYER_BGGR, BGR) := [Color(COLOR_BayerRG2BGR)]];
  }

  /** The `put`s keyed on BAYER_GBRG, in source order. */
  method PutBayerGbrgRow(before: map<(Encode, Encode), seq<Step>>) returns (res: map<(Encode, Encode), seq<Step>>)
    requires FilledUpTo(before, 8)
    ensures FilledUpTo(res, 9)
  {
    res := before;
    res := res[(BAYER_GBRG, GRAY) := [Color(COLOR_BayerGR2GRAY)]];
    res := res[(BAYER_GBRG, RGB) := [Color(COLOR_BayerGR2RGB)]];
    res := res[(BAYER_GBRG, BGR) := [Color(COLOR_BayerGR2BGR)]];
  }

  /** The `put`s keyed on BAYER_GRBG, in source order. */
  method PutBayerGrbgRow(before: map<(Encode, Encode), seq<Step>>) returns (res: map<(Encode, Encode), seq<Step>>)
    requires FilledUpTo(before, 9)
    ensures FilledUpTo(res, 10)
  {
    res := before;
    res := res[(BAYER_GRBG, GRAY) := [Color(COLOR_BayerGB2GRAY)]];
    res := res[(BAYER_GRBG, RGB) := [Color(COLOR_BayerGB2RGB)]];
    res := res[(BAYER_GRBG, BGR) := [Color(COLOR_BayerGB2BGR)]];
  }

  /** The table holds exactly the supported pairs. */
  lemma EntryIffSupported(a: Encode, b: Encode)
    ensures Entry(a, b).Some? <==> Supported(a, b)
  {
  }

  /** Every entry is a one-element list: SAME_FORMAT for a same-family key, otherwise a code
      that converts from the key's first family's colour space to its second's. */
  lemma EntryShape(a: Encode, b: Encode)
    ensures Entry(a, b).Some? ==>
      var p := Entry(a, b).value;
      && |p| == 1
      && (p[0] == SameFormat <==> a == b)
      && (p[0].Color? ==> SpaceOf(a) == Some(p[0].code.From()) && SpaceOf(b) == Some(p[0].code.To()))
  {
  }

  /** No key involves INVALID, no Bayer family converts to itself, and nothing converts to
      YUV 4:2:2 or to a Bayer mosaic except YUV 4:2:2 to itself. */
  lemma Absences(a: Encode, b: Encode)
    ensures a == INVALID || b == INVALID ==> Entry(a, b).None?
    ensures IsBayer(a) ==> Entry(a, a).None?
    ensures IsBayer(b) ==> Entry(a, b).None?
    ensures b == YUV422 && a != YUV422 ==> Entry(a, b).None?
  {
    EntryIffSupported(a, b);
    EntryIffSupported(a, a);
  }
}
