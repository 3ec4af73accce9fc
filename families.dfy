/** The `Encode` enum shared by both library variants: the colour families the conversion
    table is keyed on, each with its int number, and the reverse lookup `valueOf(int)` that the
    enum's static initialiser fills from `values()`. */
module Families {
  import opened Wrappers

  datatype Encode = INVALID | GRAY | RGB | BGR | RGBA | BGRA | YUV422
                  | BAYER_RGGB | BAYER_BGGR | BAYER_GBRG | BAYER_GRBG
  {
    /** The constructor argument of each constant. */
    function Number(): int {
      match this
      case INVALID => -1
      case GRAY => 0
      case RGB => 1
      case BGR => 2
      case RGBA => 3
      case BGRA => 4
      case YUV422 => 5
      case BAYER_RGGB => 6
      case BAYER_BGGR => 7
      case BAYER_GBRG => 8
      case BAYER_GRBG => 9
    }
  }

  /** `Encode.values()`, in declaration order. */
  const AllEncodes: seq<Encode> :=
    [INVALID, GRAY, RGB, BGR, RGBA, BGRA, YUV422, BAYER_RGGB, BAYER_BGGR, BAYER_GBRG, BAYER_GRBG]

  /** What a map filled by `put(e.Number(), e)` for each e of `es` in order holds under `n`:
      the last constant put there. */
  function LastNumbered(es: seq<Encode>, n: int): (r: Option<Encode>)
    ensures r.Some? ==> r.value in es && r.value.Number() == n
    ensures r.None? <==> forall e :: e in es ==> e.Number() != n
  {
    if es == [] then None
    else if es[|es| - 1].Number() == n then Some(es[|es| - 1])
    else LastNumbered(es[..|es| - 1], n)
  }

  /** `Encode.valueOf(n)`: `map.get(n)` on the map the static initialiser built. */
  function ValueOf(n: int): (r: Option<Encode>)
    ensures r.Some? ==> r.value.Number() == n
  {
    LastNumbered(AllEncodes, n)
  }

  /** The static initialiser: one `put(e.formatNumber, e)` per constant of `values()`. */
  method BuildValueMap() returns (m: map<int, Encode>)
    ensures forall n :: Lookup(m, n) == ValueOf(n)
  {
    m := map[];
    for i := 0 to |AllEncodes|
      invariant forall n :: Lookup(m, n) == LastNumbered(AllEncodes[..i], n)
    {
      var e := AllEncodes[i];
      assert AllEncodes[..i + 1][..i] == AllEncodes[..i];
      m := m[e.Number() := e];
    }
    assert AllEncodes[..|AllEncodes|] == AllEncodes;
  }

  /** Every constant is in `values()`. */
  lemma AllEncodesComplete(e: Encode)
    ensures e in AllEncodes
  {
  }

  /** The numbers are pairwise distinct. */
  lemma NumbersDistinct(e: Encode, f: Encode)
    ensures e.Number() == f.Number() ==> e == f
  {
  }

  /** `valueOf(e.formatNumber) == e` for every constant. */
  lemma ValueOfNumber(e: Encode)
    ensures ValueOf(e.Number()) == Some(e)
  {
    AllEncodesComplete(e);
    var r := ValueOf(e.Number());
    assert r.Some? && r.value.Number() == e.Number();
    NumbersDistinct(r.value, e);
  }

  /** `valueOf(n)` is null exactly outside -1..9, and otherwise a constant numbered n. */
  lemma ValueOfRange(n: int)
    ensures ValueOf(n).Some? <==> -1 <= n <= 9
    ensures ValueOf(n).Some? ==> ValueOf(n).value.Number() == n
  {
    if -1 <= n <= 9 {
      var e := AllEncodes[n + 1];
      assert e.Number() == n;
    }
  }
}
