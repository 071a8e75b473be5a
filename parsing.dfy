/**
 * Integer coercion of attribute values: the engine's `parseInt` (MIN_DP), the
 * `Integer.parseInt` it delegates to for strings, `Number.intValue` for numbers,
 * and the record library's `getAttributeAsInt` used for the site depth.
 */
module AttributeParsing {
  import opened Wrappers
  import opened VcfRecords

  const IntMin: int := -0x8000_0000
  const IntMax: int := 0x7fff_ffff
  const TwoTo32: int := 0x1_0000_0000

  /** The values of Java's 32-bit `int`. */
  predicate InIntRange(x: int) { IntMin <= x <= IntMax }

  predicate IsDigit(c: char) { '0' <= c <= '9' }

  predicate AllDigits(s: string) { forall i :: 0 <= i < |s| ==> IsDigit(s[i]) }

  /** The value of a string of decimal digits, most significant first. */
  function DigitsValue(s: string): nat
    requires AllDigits(s)
  {
    if s == [] then 0 else 10 * DigitsValue(s[..|s| - 1]) + (s[|s| - 1] - '0') as int
  }

  /** The digits of a non-empty spelling, after its optional leading sign. */
  function Unsigned(s: string): (u: string)
    requires |s| > 0
    ensures |u| <= |s| <= |u| + 1 && u == s[|s| - |u|..]
  {
    if s[0] == '-' || s[0] == '+' then s[1..] else s
  }

  /** A decimal spelling: an optional '+' or '-', then at least one digit. */
  predicate IsDecimalSpelling(s: string)
  {
    |s| > 0 && Unsigned(s) != [] && AllDigits(Unsigned(s))
  }

  /** The (unbounded) value a decimal spelling denotes. */
  function SpelledValue(s: string): int
    requires IsDecimalSpelling(s)
  {
    var magnitude: int := DigitsValue(Unsigned(s));
    if s[0] == '-' then -magnitude else magnitude
  }

  /**
   * `Integer.parseInt(s)`: an optional '+' or '-', then one or more digits,
   * whose value fits in 32 bits; anything else raises NumberFormatException.
   */
  function ParseDecimalInt(s: string): (r: Result<int, Error>)
    ensures r.Success? ==> InIntRange(r.value)
    ensures r.Failure? ==> r.error == NumberFormat
    ensures !IsDecimalSpelling(s) ==> r.Failure?
    ensures IsDecimalSpelling(s) ==> (r.Success? <==> InIntRange(SpelledValue(s)))
    ensures r.Success? ==> IsDecimalSpelling(s) && r.value == SpelledValue(s)
    ensures AllDigits(s) && s != [] && DigitsValue(s) <= IntMax ==> r == Success(DigitsValue(s))
  {
    if |s| == 0 then Failure(NumberFormat)
    else
      var negative := s[0] == '-';
      var body := if s[0] == '-' || s[0] == '+' then s[1..] else s;
      if body == [] || !AllDigits(body) then Failure(NumberFormat)
      else
        var magnitude: int := DigitsValue(body);
        var v := if negative then -magnitude else magnitude;
        if InIntRange(v) then Success(v) else Failure(NumberFormat)
  }

  /** The shortest decimal spelling of a natural number. */
  function NatDigits(n: nat): (s: string)
    ensures s != [] && AllDigits(s)
  {
    if n < 10 then [('0' as int + n) as char]
    else NatDigits(n / 10) + [('0' as int + n % 10) as char]
  }

  /** `Integer.toString`: the decimal spelling of an int. */
  function IntToString(x: int): string
  {
    if x < 0 then "-" + NatDigits(-x) else NatDigits(x)
  }

  lemma {:induction false} NatDigitsValue(n: nat)
    ensures DigitsValue(NatDigits(n)) == n
  {
    if n >= 10 {
      var s := NatDigits(n);
      NatDigitsValue(n / 10);
      assert s[..|s| - 1] == NatDigits(n / 10);
    }
  }

  /** Every int spelled in decimal parses back to itself. */
  lemma ParseDecimalIntRoundTrip(x: int)
    requires InIntRange(x)
    ensures ParseDecimalInt(IntToString(x)) == Success(x)
  {
    if x < 0 {
      NatDigitsValue(-x);
      assert IntToString(x)[1..] == NatDigits(-x);
    } else {
      NatDigitsValue(x);
    }
  }

  /** `Number.intValue` of an integral number: the low 32 bits, two's complement. */
  function Wrap32(x: int): (r: int)
    ensures InIntRange(r)
    ensures (x - r) % TwoTo32 == 0
    ensures InIntRange(x) ==> r == x
  {
    var m := x % TwoTo32;
    if m > IntMax then m - TwoTo32 else m
  }

  /** `Number.intValue` of a floating-point number: truncation toward zero, saturated at the int bounds. */
  function RealToInt(r: real): (n: int)
    ensures InIntRange(n)
    ensures IntMin as real <= r <= IntMax as real ==>
      (r >= 0.0 ==> n as real <= r < n as real + 1.0) &&
      (r < 0.0 ==> n as real - 1.0 < r <= n as real)
    ensures r > IntMax as real ==> n == IntMax
    ensures r < IntMin as real ==> n == IntMin
  {
    var t := if r >= 0.0 then r.Floor else -((-r).Floor);
    if t < IntMin then IntMin else if t > IntMax then IntMax else t
  }

  /**
   * The engine's `parseInt`: a String is parsed with `Integer.parseInt`, a
   * Number converted with `intValue`, and anything else is refused with
   * IllegalArgumentException.
   */
  function ParseInt(v: AttrValue): (r: Result<int, Error>)
    ensures r.Success? ==> InIntRange(r.value)
    ensures v.AStr? ==> r == ParseDecimalInt(v.s)
    ensures v.AInt? ==> r == Success(Wrap32(v.i))
    ensures v.AInt? && InIntRange(v.i) ==> r == Success(v.i)
    ensures v.AReal? ==> r == Success(RealToInt(v.r))
    ensures (v.AInt? || v.AReal?) ==> r.Success?
    ensures (v.AList? || v.ANull?) <==> r == Failure(IllegalArgument)
  {
    match v
    case AStr(s) => ParseDecimalInt(s)
    case AInt(i) => Success(Wrap32(i))
    case AReal(x) => Success(RealToInt(x))
    case AList(_) => Failure(IllegalArgument)
    case ANull => Failure(IllegalArgument)
  }

  /**
   * `getAttributeAsInt(key, default)`: the default when the key is absent, null
   * or ".", an Integer as it is, a String through `Integer.valueOf`, and
   * ClassCastException for anything else.
   */
  function GetAttributeAsInt(attrs: map<string, AttrValue>, key: string, default: int): (r: Result<int, Error>)
    ensures key !in attrs ==> r == Success(default)
    ensures key in attrs && (attrs[key].ANull? || attrs[key] == AStr(MissingValue)) ==> r == Success(default)
    ensures key in attrs && attrs[key].AInt? && InIntRange(attrs[key].i) ==> r == Success(attrs[key].i)
    ensures key in attrs && attrs[key].AStr? && attrs[key].s != MissingValue ==> r == ParseDecimalInt(attrs[key].s)
    ensures key in attrs && (attrs[key].AReal? || attrs[key].AList? || (attrs[key].AInt? && !InIntRange(attrs[key].i))) ==>
      r == Failure(ClassCast)
    ensures r.Failure? ==> key in attrs && (attrs[key].AStr? || r.error == ClassCast)
  {
    if key !in attrs then Success(default)
    else
      match attrs[key]
      case ANull => Success(default)
      case AInt(i) => if InIntRange(i) then Success(i) else Failure(ClassCast)
      case AStr(s) => if s == MissingValue then Success(default) else ParseDecimalInt(s)
      case AReal(_) => Failure(ClassCast)
      case AList(_) => Failure(ClassCast)
  }

  /** The site depth as the engine reads it: INFO DP, 0 when absent. */
  function SiteDepth(vc: VariantContext): (r: Result<int, Error>)
    ensures DepthKey !in vc.info ==> r == Success(0)
    ensures DepthKey in vc.info && vc.info[DepthKey].AInt? && InIntRange(vc.info[DepthKey].i) ==>
      r == Success(vc.info[DepthKey].i)
    ensures DepthKey in vc.info && vc.info[DepthKey].AStr? && vc.info[DepthKey].s != MissingValue ==>
      r == ParseDecimalInt(vc.info[DepthKey].s)
  {
    GetAttributeAsInt(vc.info, DepthKey, 0)
  }
}
