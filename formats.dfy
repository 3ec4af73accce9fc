/** The `Format` enum: the compressed container formats, each with its int number, and the
    reverse lookup `valueOf(int)` that the enum's static initialiser fills from `values()`. */
module Formats {
  import opened Wrappers

  datatype Format = INVALID | JPG | PNG | JP2 | BMP | TIF {
    /** `formatNumber`, the constructor argument of each constant. */
    function Number(): int {
      match this
      case INVALID => -1
      case JPG => 0
      case PNG => 1
      case JP2 => 2
      case BMP => 3
      case TIF => 4
    }
  }

  /** `Format.values()`, in declaration order. */
  const AllFormats: seq<Format> := [INVALID, JPG, PNG, JP2, BMP, TIF]

  /** What a map filled by `put(f.Number(), f)` for each f of `fs` in order holds under `n`:
      the last constant put there. */
  function LastNumbered(fs: seq<Format>, n: int): (r: Option<Format>)
    ensures r.Some? ==> r.value in fs && r.value.Number() == n
    ensures r.None? <==> forall f :: f in fs ==> f.Number() != n
  {
    if fs == [] then None
    else if fs[|fs| - 1].Number() == n then Some(fs[|fs| - 1])
    else LastNumbered(fs[..|fs| - 1], n)
  }

  /** `Format.valueOf(n)`: `map.get(n)` on the map the static initialiser built. */
  function ValueOf(n: int): (r: Option<Format>)
    ensures r.Some? ==> r.value.Number() == n
  {
    LastNumbered(AllFormats, n)
  }

  /** The static initialiser: one `put(format.formatNumber, format)` per constant of
      `values()`. The map is never written afterwards, so `valueOf` is this fixed lookup. */
  method BuildValueMap() returns (m: map<int, Format>)
    ensures forall n :: Lookup(m, n) == ValueOf(n)
  {
    m := map[];
    for i := 0 to |AllFormats|
      invariant forall n :: Lookup(m, n) == LastNumbered(AllFormats[..i], n)
    {
      var f := AllFormats[i];
      assert AllFormats[..i + 1][..i] == AllFormats[..i];
      m := m[f.Number() := f];
    }
    assert AllFormats[..|AllFormats|] == AllFormats;
  }

  /** Every constant is in `values()`. */
  lemma AllFormatsComplete(f: Format)
    ensures f in AllFormats
  {
  }

  /** The numbers are INVALID = -1, JPG = 0, ..., TIF = 4 and pairwise distinct. */
  lemma NumbersDistinct(f: Format, g: Format)
    ensures -1 <= f.Number() <= 4
    ensures f.Number() == g.Number() ==> f == g
  {
  }

  /** `valueOf(f.formatNumber) == f` for every constant. */
  lemma ValueOfNumber(f: Format)
    ensures ValueOf(f.Number()) == Some(f)
  {
    AllFormatsComplete(f);
    var r := ValueOf(f.Number());
    assert r.Some? && r.value.Number() == f.Number();
    NumbersDistinct(r.value, f);
  }

  /** `valueOf(n)` is null exactly outside -1..4, and otherwise the constant numbered n. */
  lemma ValueOfRange(n: int)
    ensures ValueOf(n).Some? <==> -1 <= n <= 4
    ensures ValueOf(n).Some? ==> ValueOf(n).value.Number() == n
  {
    if -1 <= n <= 4 {
      var f := AllFormats[n + 1];
      assert f.Number() == n;
    }
  }
}
