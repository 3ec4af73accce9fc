/** The parts of java.lang and java.util the bridge depends on: String case mapping, the `int`
    and `long` ranges with `int` wrap-around, `safeLongToInt`, the `Vector` capacity
    constructor, and the exceptions the core throws. */
module JavaLang {
  import opened Wrappers

  /** The exceptions the core throws, one constructor per distinct message or JDK cause. */
  datatype Exception =
    | UnrecognizedImageEncoding(encoding: string)     // "Unrecognized image encoding [...]"
    | NotAColorFormat(src: string, dst: string)        // "[src] is not a color format. but [dst] is. ..."
    | ChannelCountMismatch(src: string, dst: string)   // "[src] and [dst] do not have the same number of channel"
    | ColorToNonColorMismatch(src: string, dst: string) // "[src] is a color format but [dst] is not so ..."
    | UnsupportedConversion(src: string, dst: string)  // "Unsupported conversion from [src] to [dst]"
    | CannotCastToInt(value: int)                      // safeLongToInt's IllegalArgumentException
    | IllegalCapacity(capacity: int)                   // java.util.Vector(int) with a negative capacity
    | DivisionByZero                                   // ArithmeticException of int division
    | NegativeArraySize(size: int)                     // new byte[n] with n < 0
    | NullPointer                                      // a method called on a null reference
    | UnsupportedOperation                             // OpenCV Mat.get / Mat.put refusing the array or type

  // ---------------------------------------------------------------------------------------
  // String.toLowerCase / toUpperCase, restricted to the ASCII letters

  function LowerChar(c: char): char {
    if 'A' <= c <= 'Z' then (c as int + 32) as char else c
  }

  function UpperChar(c: char): char {
    if 'a' <= c <= 'z' then (c as int - 32) as char else c
  }

  function ToLower(s: string): (r: string)
    ensures |r| == |s|
    ensures forall i :: 0 <= i < |s| ==> r[i] == LowerChar(s[i])
  {
    if s == [] then [] else [LowerChar(s[0])] + ToLower(s[1..])
  }

  function ToUpper(s: string): (r: string)
    ensures |r| == |s|
    ensures forall i :: 0 <= i < |s| ==> r[i] == UpperChar(s[i])
  {
    if s == [] then [] else [UpperChar(s[0])] + ToUpper(s[1..])
  }

  /** No ASCII upper-case letter occurs in `s`. */
  predicate IsLowerCase(s: string) {
    forall i :: 0 <= i < |s| ==> !('A' <= s[i] <= 'Z')
  }

  /** No ASCII lower-case letter occurs in `s`. */
  predicate IsUpperCase(s: string) {
    forall i :: 0 <= i < |s| ==> !('a' <= s[i] <= 'z')
  }

  lemma LowerOfUpper(s: string)
    ensures ToLower(ToUpper(s)) == ToLower(s)
  {
    assert forall i :: 0 <= i < |s| ==> ToLower(ToUpper(s))[i] == ToLower(s)[i];
  }

  lemma UpperOfLower(s: string)
    ensures ToUpper(ToLower(s)) == ToUpper(s)
  {
    assert forall i :: 0 <= i < |s| ==> ToUpper(ToLower(s))[i] == ToUpper(s)[i];
  }

  lemma LowerIdempotent(s: string)
    ensures ToLower(ToLower(s)) == ToLower(s)
  {
    assert forall i :: 0 <= i < |s| ==> ToLower(ToLower(s))[i] == ToLower(s)[i];
  }

  lemma UpperIdempotent(s: string)
    ensures ToUpper(ToUpper(s)) == ToUpper(s)
  {
    assert forall i :: 0 <= i < |s| ==> ToUpper(ToUpper(s))[i] == ToUpper(s)[i];
  }

  lemma LowerOfLowerCase(s: string)
    requires IsLowerCase(s)
    ensures ToLower(s) == s
  {
    assert forall i :: 0 <= i < |s| ==> ToLower(s)[i] == s[i];
  }

  lemma UpperOfUpperCase(s: string)
    requires IsUpperCase(s)
    ensures ToUpper(s) == s
  {
    assert forall i :: 0 <= i < |s| ==> ToUpper(s)[i] == s[i];
  }

  /** Matching the lower-cased input against a lower-case literal accepts exactly the strings
      that matching the upper-cased input against the upper-cased literal accepts. */
  lemma LowerMatchIffUpperMatch(s: string, t: string)
    requires IsLowerCase(t)
    ensures ToLower(s) == t <==> ToUpper(s) == ToUpper(t)
  {
    if ToLower(s) == t {
      UpperOfLower(s);
    }
    if ToUpper(s) == ToUpper(t) {
      LowerOfUpper(s);
      LowerOfUpper(t);
      LowerOfLowerCase(t);
    }
  }

  // ---------------------------------------------------------------------------------------
  // int and long

  const IntMin: int := -0x8000_0000
  const IntMax: int := 0x7fff_ffff
  const LongMin: int := -0x8000_0000_0000_0000
  const LongMax: int := 0x7fff_ffff_ffff_ffff

  predicate IsInt(x: int) {
    IntMin <= x <= IntMax
  }

  predicate IsLong(x: int) {
    LongMin <= x <= LongMax
  }

  /** A Java `int` result: the mathematical value reduced into the int range modulo 2^32. */
  function WrapInt(x: int): (r: int)
    ensures IsInt(r)
    ensures (x - r) % 0x1_0000_0000 == 0
    ensures IsInt(x) ==> r == x
  {
    var m := x % 0x1_0000_0000;
    if m > IntMax then m - 0x1_0000_0000 else m
  }

  /** `new java.util.Vector(initialCapacity)` (with or without a capacity increment): an empty
      list, or IllegalArgumentException("Illegal Capacity") for a negative capacity. */
  function NewVector<T>(initialCapacity: int): (r: Result<seq<T>, Exception>)
    ensures r.Success? <==> initialCapacity >= 0
    ensures r.Success? ==> r.value == []
    ensures r.Failure? ==> r.error == IllegalCapacity(initialCapacity)
  {
    if initialCapacity < 0 then Failure(IllegalCapacity(initialCapacity)) else Success([])
  }

  /** `safeLongToInt`: the identity on the int range; any other long throws. */
  function SafeLongToInt(l: int): (r: Result<int, Exception>)
    requires IsLong(l)
    ensures r.Success? <==> IsInt(l)
    ensures r.Success? ==> r.value == l
    ensures r.Failure? ==> r.error == CannotCastToInt(l)
  {
    if l < IntMin || l > IntMax then Failure(CannotCastToInt(l)) else Success(l)
  }
}
