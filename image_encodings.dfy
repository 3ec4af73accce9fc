/** The sensor_msgs `imageEncodings` vocabulary the bridge matches against: the semantic encoding
    names (lower case, as ROS spells them), the storage-type names TYPE_<depth>C<channels>, the
    predicates the native planner consults (as an `Oracle` of functions, since their definitions
    are not part of this model), and the first-match scan that every `equals` if-chain of the
    bridge amounts to. */
module ImageEncodings {
  import opened Wrappers
  import opened JavaLang
  import opened OpenCv
  import opened Families

  const BGR8: string := "bgr8"
  const YUV422_NAME: string := "yuv422"

  /** `imageEncodings.isColor`, `isMono`, `isBayer`, `numChannels` and `bitDepth`, applied to the
      encoding string exactly as the caller passes it. */
  datatype Oracle = Oracle(
    isColor: string -> bool,
    isMono: string -> bool,
    isBayer: string -> bool,
    numChannels: string -> int,
    bitDepth: string -> int)

  // ---------------------------------------------------------------------------------------
  // An if-chain `if (x.equals(k1)) return v1; if (x.equals(k2)) return v2; ...`

  /** The first entry of `order` whose key is `u`. */
  function FirstMatch<T>(order: seq<T>, key: T -> string, u: string): (r: Option<T>)
    ensures r.Some? ==> r.value in order && key(r.value) == u
    ensures r.None? <==> forall x :: x in order ==> key(x) != u
  {
    if order == [] then None
    else if key(order[0]) == u then Some(order[0])
    else FirstMatch(order[1..], key, u)
  }

  /** When no two entries share a key, the chain finds exactly the entry whose key is `u`. */
  lemma FirstMatchUnique<T>(order: seq<T>, key: T -> string, x: T)
    requires x in order
    requires forall a, b :: a in order && b in order && key(a) == key(b) ==> a == b
    ensures FirstMatch(order, key, key(x)) == Some(x)
  {
  }

  // ---------------------------------------------------------------------------------------
  // The semantic encodings

  /** The pixel layouts a semantic name can describe. */
  datatype ColorModel = Mono | Rgb | Bgr | Rgba | Bgra
                      | BayerRggb | BayerBggr | BayerGbrg | BayerGrbg

  /** Bits per channel sample. */
  datatype SampleBits = Bits8 | Bits16

  /** A semantic encoding: a layout at a sample width, or packed YUV 4:2:2. */
  datatype Semantic = Pixel(model: ColorModel, bits: SampleBits) | Packed422 {

    /** The ROS name: the layout's prefix followed by the sample width, or "yuv422". */
    function Name(): string {
      match this
      case Pixel(m, b) => ModelPrefix(m) + BitsSuffix(b)
      case Packed422 => YUV422_NAME
    }

    /** The name as the cv_bridge variant spells it in its literals. */
    function UpperName(): string {
      ToUpper(Name())
    }

    /** The storage type such an image needs: one element per channel sample; Bayer mosaics
        store one sample per pixel, YUV 4:2:2 two bytes per pixel. */
    function StorageType(): CvType {
      match this
      case Pixel(m, b) => CvType(if b == Bits8 then CV_8U else CV_16U, ModelChannels(m))
      case Packed422 => CV_8UC2
    }

    /** The conversion-table family of the name, as `getEncode` / `getFormat` assign it: the
        8-bit layouts and YUV 4:2:2 have one, the 16-bit names have none. */
    function Family(): Encode {
      match this
      case Pixel(m, Bits16) => INVALID
      case Pixel(m, Bits8) => (
        match m
        case Mono => GRAY
        case Rgb => RGB
        case Bgr => BGR
        case Rgba => RGBA
        case Bgra => BGRA
        case BayerRggb => BAYER_RGGB
        case BayerBggr => BAYER_BGGR
        case BayerGbrg => BAYER_GBRG
        case BayerGrbg => BAYER_GRBG)
      case Packed422 => YUV422
    }
  }

  function ModelPrefix(m: ColorModel): string {
    match m
    case Mono => "mono"
    case Rgb => "rgb"
    case Bgr => "bgr"
    case Rgba => "rgba"
    case Bgra => "bgra"
    case BayerRggb => "bayer_rggb"
    case BayerBggr => "bayer_bggr"
    case BayerGbrg => "bayer_gbrg"
    case BayerGrbg => "bayer_grbg"
  }

  function BitsSuffix(b: SampleBits): string {
    if b == Bits8 then "8" else "16"
  }

  function ModelChannels(m: ColorModel): int {
    match m
    case Mono => 1
    case Rgb | Bgr => 3
    case Rgba | Bgra => 4
    case BayerRggb | BayerBggr | BayerGbrg | BayerGrbg => 1
  }

  /** The semantic branch of both `getCvType` chains, in source order: each name with the type
      the source returns for it. */
  const SemanticChain: seq<(Semantic, CvType)> := [
    (Pixel(Bgr, Bits8), CV_8UC3), (Pixel(Mono, Bits8), CV_8UC1), (Pixel(Rgb, Bits8), CV_8UC3),
    (Pixel(Mono, Bits16), CV_16UC1), (Pixel(Bgr, Bits16), CV_16UC3), (Pixel(Rgb, Bits16), CV_16UC3),
    (Pixel(Bgra, Bits8), CV_8UC4), (Pixel(Rgba, Bits8), CV_8UC4),
    (Pixel(Bgra, Bits16), CV_16UC4), (Pixel(Rgba, Bits16), CV_16UC4),
    (Pixel(BayerRggb, Bits8), CV_8UC1), (Pixel(BayerBggr, Bits8), CV_8UC1),
    (Pixel(BayerGbrg, Bits8), CV_8UC1), (Pixel(BayerGrbg, Bits8), CV_8UC1),
    (Pixel(BayerRggb, Bits16), CV_16UC1), (Pixel(BayerBggr, Bits16), CV_16UC1),
    (Pixel(BayerGbrg, Bits16), CV_16UC1), (Pixel(BayerGrbg, Bits16), CV_16UC1),
    (Packed422, CV_8UC2)]

  /** The names `getEncode` / `getFormat` test, in source order, each with the family the
      source returns for it. */
  const FamilyChain: seq<(Semantic, Encode)> := [
    (Pixel(Mono, Bits8), GRAY), (Pixel(Bgr, Bits8), BGR), (Pixel(Rgb, Bits8), RGB),
    (Pixel(Bgra, Bits8), BGRA), (Pixel(Rgba, Bits8), RGBA), (Packed422, YUV422),
    (Pixel(BayerRggb, Bits8), BAYER_RGGB), (Pixel(BayerBggr, Bits8), BAYER_BGGR),
    (Pixel(BayerGbrg, Bits8), BAYER_GBRG), (Pixel(BayerGrbg, Bits8), BAYER_GRBG)]

  /** Each type the semantic chain returns is the storage type its encoding needs. */
  lemma SemanticChainTypes()
    ensures forall i | 0 <= i < |SemanticChain| :: SemanticChain[i].1 == SemanticChain[i].0.StorageType()
  {
  }

  /** Every Bayer mosaic is stored in a single channel of its sample width; the other layouts
      have one channel per colour component. */
  lemma StorageTypeChannels(m: ColorModel, b: SampleBits)
    ensures Pixel(m, b).StorageType().depth == if b == Bits8 then CV_8U else CV_16U
    ensures m.BayerRggb? || m.BayerBggr? || m.BayerGbrg? || m.BayerGrbg? ==>
      Pixel(m, b).StorageType().channels == 1
    ensures m.Rgb? || m.Bgr? ==> Pixel(m, b).StorageType().channels == 3
    ensures m.Rgba? || m.Bgra? ==> Pixel(m, b).StorageType().channels == 4
    ensures m.Mono? ==> Pixel(m, b).StorageType().channels == 1
  {
  }

  /** The semantic chain holds every semantic encoding, each with the storage type it needs. */
  lemma SemanticChainExact(e: Semantic, t: CvType)
    ensures (e, t) in SemanticChain <==> t == e.StorageType()
  {
    if (e, t) in SemanticChain {
      SemanticChainTypes();
    }
    if t == e.StorageType() {
      match e
      case Pixel(Bgr, Bits8) => assert SemanticChain[0] == (e, t);
      case Pixel(Mono, Bits8) => assert SemanticChain[1] == (e, t);
      case Pixel(Rgb, Bits8) => assert SemanticChain[2] == (e, t);
      case Pixel(Mono, Bits16) => assert SemanticChain[3] == (e, t);
      case Pixel(Bgr, Bits16) => assert SemanticChain[4] == (e, t);
      case Pixel(Rgb, Bits16) => assert SemanticChain[5] == (e, t);
      case Pixel(Bgra, Bits8) => assert SemanticChain[6] == (e, t);
      case Pixel(Rgba, Bits8) => assert SemanticChain[7] == (e, t);
      case Pixel(Bgra, Bits16) => assert SemanticChain[8] == (e, t);
      case Pixel(Rgba, Bits16) => assert SemanticChain[9] == (e, t);
      case Pixel(BayerRggb, Bits8) => assert SemanticChain[10] == (e, t);
      case Pixel(BayerBggr, Bits8) => assert SemanticChain[11] == (e, t);
      case Pixel(BayerGbrg, Bits8) => assert SemanticChain[12] == (e, t);
      case Pixel(BayerGrbg, Bits8) => assert SemanticChain[13] == (e, t);
      case Pixel(BayerRggb, Bits16) => assert SemanticChain[14] == (e, t);
      case Pixel(BayerBggr, Bits16) => assert SemanticChain[15] == (e, t);
      case Pixel(BayerGbrg, Bits16) => assert SemanticChain[16] == (e, t);
      case Pixel(BayerGrbg, Bits16) => assert SemanticChain[17] == (e, t);
      case Packed422 => assert SemanticChain[18] == (e, t);
    }
  }

  /** Each family the family chain returns is the family of its encoding, never INVALID. */
  lemma FamilyChainFamilies()
    ensures forall i | 0 <= i < |FamilyChain| ::
      FamilyChain[i].1 == FamilyChain[i].0.Family() && FamilyChain[i].1 != INVALID
  {
  }

  /** The family chain holds exactly the encodings that have a family, each with its family. */
  lemma FamilyChainExact(e: Semantic, f: Encode)
    ensures (e, f) in FamilyChain <==> f == e.Family() && f != INVALID
  {
    if (e, f) in FamilyChain {
      FamilyChainFamilies();
    }
    if f == e.Family() && f != INVALID {
      match e
      case Pixel(Mono, Bits8) => assert FamilyChain[0] == (e, f);
      case Pixel(Bgr, Bits8) => assert FamilyChain[1] == (e, f);
      case Pixel(Rgb, Bits8) => assert FamilyChain[2] == (e, f);
      case Pixel(Bgra, Bits8) => assert FamilyChain[3] == (e, f);
      case Pixel(Rgba, Bits8) => assert FamilyChain[4] == (e, f);
      case Packed422 => assert FamilyChain[5] == (e, f);
      case Pixel(BayerRggb, Bits8) => assert FamilyChain[6] == (e, f);
      case Pixel(BayerBggr, Bits8) => assert FamilyChain[7] == (e, f);
      case Pixel(BayerGbrg, Bits8) => assert FamilyChain[8] == (e, f);
      case Pixel(BayerGrbg, Bits8) => assert FamilyChain[9] == (e, f);
      case Pixel(_, Bits16) =>
    }
  }

  /** Every semantic name is in lower case. */
  lemma NameLowerCase(e: Semantic)
    ensures IsLowerCase(e.Name())
  {
  }

  /** The last character of a name tells its sample width, or that it is YUV 4:2:2. */
  lemma NameEnding(e: Semantic)
    ensures |e.Name()| >= 2
    ensures e.Name()[|e.Name()| - 1] == (if e.Packed422? then '2' else if e.bits == Bits8 then '8' else '6')
  {
  }

  lemma ModelPrefixInjective(m: ColorModel, n: ColorModel)
    requires ModelPrefix(m) == ModelPrefix(n)
    ensures m == n
  {
    assert |ModelPrefix(m)| == |ModelPrefix(n)|;
    assert ModelPrefix(m)[0] == ModelPrefix(n)[0];
    if |ModelPrefix(m)| > 9 {
      assert ModelPrefix(m)[6] == ModelPrefix(n)[6];
      assert ModelPrefix(m)[7] == ModelPrefix(n)[7];
    } else {
      assert ModelPrefix(m)[|ModelPrefix(m)| - 1] == ModelPrefix(n)[|ModelPrefix(n)| - 1];
    }
  }

  /** No two semantic encodings share a name. */
  lemma {:induction false} NameInjective(e: Semantic, f: Semantic)
    requires e.Name() == f.Name()
    ensures e == f
  {
    NameEnding(e);
    NameEnding(f);
    if e.Pixel? && f.Pixel? {
      var k := |BitsSuffix(e.bits)|;
      assert e.bits == f.bits;
      assert ModelPrefix(e.model) == e.Name()[..|e.Name()| - k];
      assert ModelPrefix(f.model) == f.Name()[..|f.Name()| - k];
      ModelPrefixInjective(e.model, f.model);
    }
  }

  /** Nor do their upper-case spellings. */
  lemma {:induction false} UpperNameInjective(e: Semantic, f: Semantic)
    requires e.UpperName() == f.UpperName()
    ensures e == f
  {
    NameLowerCase(e);
    NameLowerCase(f);
    LowerOfUpper(e.Name());
    LowerOfUpper(f.Name());
    LowerOfLowerCase(e.Name());
    LowerOfLowerCase(f.Name());
    NameInjective(e, f);
  }

  /** The semantic branch matched exactly against the lower-case names (native variant)... */
  function SemanticMatch(l: string): Option<(Semantic, CvType)> {
    FirstMatch(SemanticChain, (p: (Semantic, CvType)) => p.0.Name(), l)
  }

  /** ... and against the upper-case names (cv_bridge variant). */
  function UpperSemanticMatch(u: string): Option<(Semantic, CvType)> {
    FirstMatch(SemanticChain, (p: (Semantic, CvType)) => p.0.UpperName(), u)
  }

  /** The lower-case branch recognises exactly the names, each with the type its encoding needs. */
  lemma SemanticMatchIff(l: string, e: Semantic)
    ensures SemanticMatch(l) == Some((e, e.StorageType())) <==> e.Name() == l
  {
    var key := (p: (Semantic, CvType)) => p.0.Name();
    if SemanticMatch(l) == Some((e, e.StorageType())) {
      assert key((e, e.StorageType())) == l;
    }
    if e.Name() == l {
      SemanticChainExact(e, e.StorageType());
      forall a, b | a in SemanticChain && b in SemanticChain && key(a) == key(b)
        ensures a == b
      {
        NameInjective(a.0, b.0);
        SemanticChainExact(a.0, a.1);
        SemanticChainExact(b.0, b.1);
      }
      FirstMatchUnique(SemanticChain, key, (e, e.StorageType()));
    }
  }

  /** The upper-case branch recognises exactly the upper-cased names. */
  lemma UpperSemanticMatchIff(u: string, e: Semantic)
    ensures UpperSemanticMatch(u) == Some((e, e.StorageType())) <==> e.UpperName() == u
  {
    var key := (p: (Semantic, CvType)) => p.0.UpperName();
    if UpperSemanticMatch(u) == Some((e, e.StorageType())) {
      assert key((e, e.StorageType())) == u;
    }
    if e.UpperName() == u {
      SemanticChainExact(e, e.StorageType());
      forall a, b | a in SemanticChain && b in SemanticChain && key(a) == key(b)
        ensures a == b
      {
        UpperNameInjective(a.0, b.0);
        SemanticChainExact(a.0, a.1);
        SemanticChainExact(b.0, b.1);
      }
      FirstMatchUnique(SemanticChain, key, (e, e.StorageType()));
    }
  }

  /** A string no semantic name matches: the branch falls through. */
  lemma SemanticMatchNone(l: string)
    ensures SemanticMatch(l).None? <==> forall e: Semantic :: e.Name() != l
  {
    if SemanticMatch(l).None? {
      forall e: Semantic
        ensures e.Name() != l
      {
        SemanticChainExact(e, e.StorageType());
      }
    } else {
      SemanticMatchIff(l, SemanticMatch(l).value.0);
      SemanticChainExact(SemanticMatch(l).value.0, SemanticMatch(l).value.1);
    }
  }

  lemma UpperSemanticMatchNone(u: string)
    ensures UpperSemanticMatch(u).None? <==> forall e: Semantic :: e.UpperName() != u
  {
    if UpperSemanticMatch(u).None? {
      forall e: Semantic
        ensures e.UpperName() != u
      {
        SemanticChainExact(e, e.StorageType());
      }
    } else {
      UpperSemanticMatchIff(u, UpperSemanticMatch(u).value.0);
      SemanticChainExact(UpperSemanticMatch(u).value.0, UpperSemanticMatch(u).value.1);
    }
  }

  /** Every upper-case name starts with an upper-case letter ... */
  lemma UpperNameInitial(e: Semantic)
    ensures |e.UpperName()| > 0 && 'A' <= e.UpperName()[0] <= 'Z'
  {
    match e
    case Pixel(m, b) =>
      assert e.Name()[0] == ModelPrefix(m)[0];
      assert 'a' <= ModelPrefix(m)[0] <= 'z';
    case Packed422 =>
      assert e.Name()[0] == 'y';
  }

  /** ... so no lower-cased string is an upper-case name. */
  lemma LowerIsNoUpperName(s: string, e: Semantic)
    ensures ToLower(s) != e.UpperName()
  {
    UpperNameInitial(e);
    if |s| > 0 {
      assert ToLower(s)[0] == LowerChar(s[0]);
    }
  }

  /** The family chain matched against the lower-case names (native `getEncode`)... */
  function FamilyMatch(l: string): Encode {
    match FirstMatch(FamilyChain, (p: (Semantic, Encode)) => p.0.Name(), l)
    case Some(p) => p.1
    case None => INVALID
  }

  /** ... and against the upper-case names (cv_bridge `getFormat`), INVALID when none matches. */
  function UpperFamilyMatch(u: string): Encode {
    match FirstMatch(FamilyChain, (p: (Semantic, Encode)) => p.0.UpperName(), u)
    case Some(p) => p.1
    case None => INVALID
  }

  /** A name gets the family of what it names: INVALID for the 16-bit names. */
  lemma FamilyMatchName(e: Semantic)
    ensures FamilyMatch(e.Name()) == e.Family()
  {
    var key := (p: (Semantic, Encode)) => p.0.Name();
    var r := FirstMatch(FamilyChain, key, e.Name());
    if r.Some? {
      NameInjective(r.value.0, e);
      FamilyChainExact(r.value.0, r.value.1);
    } else if e.Family() != INVALID {
      FamilyChainExact(e, e.Family());
    }
  }

  /** A string that is no name gets INVALID. */
  lemma FamilyMatchNotName(l: string)
    requires forall e: Semantic :: e.Name() != l
    ensures FamilyMatch(l) == INVALID
  {
  }

  /** The same two facts for the upper-case chain. */
  lemma UpperFamilyMatchName(e: Semantic)
    ensures UpperFamilyMatch(e.UpperName()) == e.Family()
  {
    var key := (p: (Semantic, Encode)) => p.0.UpperName();
    var r := FirstMatch(FamilyChain, key, e.UpperName());
    if r.Some? {
      UpperNameInjective(r.value.0, e);
      FamilyChainExact(r.value.0, r.value.1);
    } else if e.Family() != INVALID {
      FamilyChainExact(e, e.Family());
    }
  }

  lemma UpperFamilyMatchNotName(u: string)
    requires forall e: Semantic :: e.UpperName() != u
    ensures UpperFamilyMatch(u) == INVALID
  {
  }

  // ---------------------------------------------------------------------------------------
  // The storage-type names

  function DepthTag(d: Depth): string {
    match d
    case CV_8U => "8U"
    case CV_8S => "8S"
    case CV_16U => "16U"
    case CV_16S => "16S"
    case CV_32S => "32S"
    case CV_32F => "32F"
    case CV_64F => "64F"
  }

  /** The storage types that have a TYPE_ name: every depth with one to four channels. */
  predicate HasStorageName(t: CvType) {
    1 <= t.channels <= 4
  }

  function ChannelDigit(c: int): char
    requires 1 <= c <= 4
  {
    if c == 1 then '1' else if c == 2 then '2' else if c == 3 then '3' else '4'
  }

  /** "TYPE_" followed by the depth tag, "C" and the channel digit; no name otherwise. */
  function StorageName(t: CvType): string {
    if HasStorageName(t) then "TYPE_" + DepthTag(t.depth) + "C" + [ChannelDigit(t.channels)] else ""
  }

  /** The depths in the order the TYPE_ chain takes them. */
  const DepthOrder: seq<Depth> := [CV_8U, CV_8S, CV_16U, CV_16S, CV_32S, CV_32F, CV_64F]

  /** The TYPE_ branch of both `getCvType` chains, in source order: TYPE_8UC1, TYPE_8UC2, ...,
      TYPE_64FC4, each depth with one to four channels. */
  const StorageOrder: seq<CvType> :=
    seq(28, i requires 0 <= i < 28 => CvType(DepthOrder[i / 4], i % 4 + 1))

  /** The chain tests exactly the types that have a name. */
  lemma StorageOrderExact(t: CvType)
    ensures t in StorageOrder <==> HasStorageName(t)
  {
    if HasStorageName(t) {
      match t.depth
      case CV_8U => assert StorageOrder[0 + t.channels - 1] == t;
      case CV_8S => assert StorageOrder[4 + t.channels - 1] == t;
      case CV_16U => assert StorageOrder[8 + t.channels - 1] == t;
      case CV_16S => assert StorageOrder[12 + t.channels - 1] == t;
      case CV_32S => assert StorageOrder[16 + t.channels - 1] == t;
      case CV_32F => assert StorageOrder[20 + t.channels - 1] == t;
      case CV_64F => assert StorageOrder[24 + t.channels - 1] == t;
    }
  }

  lemma DepthTagInjective(d: Depth, e: Depth)
    requires DepthTag(d) == DepthTag(e)
    ensures d == e
  {
    assert |DepthTag(d)| == |DepthTag(e)|;
    assert DepthTag(d)[0] == DepthTag(e)[0];
    assert DepthTag(d)[|DepthTag(d)| - 1] == DepthTag(e)[|DepthTag(e)| - 1];
  }

  /** No two named storage types share a name. */
  lemma {:induction false} StorageNameInjective(t: CvType, v: CvType)
    requires HasStorageName(t) && HasStorageName(v)
    requires StorageName(t) == StorageName(v)
    ensures t == v
  {
    var s := StorageName(t);
    var k := |DepthTag(t.depth)|;
    assert |s| == 7 + k;
    assert DepthTag(t.depth) == s[5..5 + k];
    assert DepthTag(v.depth) == s[5..5 + k];
    DepthTagInjective(t.depth, v.depth);
    assert s[|s| - 1] == ChannelDigit(t.channels) == ChannelDigit(v.channels);
  }

  /** The storage type whose upper-case TYPE_ name is `u`, if any. */
  function NamedStorageType(u: string): Option<CvType> {
    FirstMatch(StorageOrder, StorageName, u)
  }

  /** The TYPE_ chain recognises exactly the names of the named types, each as its type. */
  lemma NamedStorageTypeIff(u: string, t: CvType)
    ensures NamedStorageType(u) == Some(t) <==> HasStorageName(t) && StorageName(t) == u
  {
    if NamedStorageType(u) == Some(t) {
      StorageOrderExact(t);
    }
    if HasStorageName(t) && StorageName(t) == u {
      StorageOrderExact(t);
      forall a, b | a in StorageOrder && b in StorageOrder && StorageName(a) == StorageName(b)
        ensures a == b
      {
        StorageOrderExact(a);
        StorageOrderExact(b);
        StorageNameInjective(a, b);
      }
      FirstMatchUnique(StorageOrder, StorageName, t);
    }
  }

  /** Every TYPE_ name is upper case and shares no spelling with a semantic name in any case. */
  lemma StorageNameNotSemantic(t: CvType, e: Semantic)
    requires HasStorageName(t)
    ensures ToLower(StorageName(t)) != e.Name()
    ensures StorageName(t) != e.UpperName()
  {
    var s := StorageName(t);
    assert ToLower(s)[0] == 't';
    assert e.UpperName()[0] == UpperChar(e.Name()[0]);
    assert e.Name()[0] in "mrbyg";
  }
}
