/** The decimal cells of a bundle: `decimal` values normalised at the default
    context (28 digits, half to even), written in fixed notation by the producer
    and read back by the Dataflow template. */
module CloudDecimal {
  import opened Common

  /** A finite decimal: (-1)^negative * coefficient * 10^exponent. */
  datatype Number = Number(negative: bool, coefficient: nat, exponent: int)

  const PRECISION := 28
  const ETINY := -1000026
  const ETOP := 999972
  const ZERO := Number(false, 0, 0)

  function Pow10(n: nat): (p: nat)
    ensures p >= 1
  {
    if n == 0 then 1 else 10 * Pow10(n - 1)
  }

  /** How many digits `c` is written with. */
  function Digits(c: nat): (n: nat)
    ensures n >= 1 && c < Pow10(n) && (c > 0 ==> Pow10(n - 1) <= c)
  {
    if c < 10 then 1 else 1 + Digits(c / 10)
  }

  // ---------------------------------------------------------- normalisation

  function Quotient(c: nat, unit: nat): nat
    requires unit > 0
  {
    c / unit
  }

  /** `c` without its last `drop` digits, rounded half to even. */
  function Rounded(c: nat, drop: nat): nat {
    var unit := Pow10(drop);
    var q, twice := Quotient(c, unit), 2 * (c % unit);
    if twice > unit || (twice == unit && q % 2 == 1) then q + 1 else q
  }

  function Max(a: int, b: int): int { if a < b then b else a }

  /** Rounding into the context; `None` is the trapped Overflow. */
  function Fixed(n: Number): Option<Number> {
    if n.coefficient == 0 then Some(ZERO)
    else
      var least := Max(Digits(n.coefficient) + n.exponent - PRECISION, ETINY);
      if least > ETOP then None
      else if n.exponent >= least then Some(n)
      else
        var q := Rounded(n.coefficient, least - n.exponent);
        if q < Pow10(PRECISION) then Some(Number(n.negative, q, least))
        else if least + 1 > ETOP then None
        else Some(Number(n.negative, q / 10, least + 1))
  }

  /** Without trailing zeros. */
  function Stripped(n: Number): (s: Number)
    requires n.coefficient > 0
    ensures s.coefficient > 0 && s.coefficient % 10 != 0 && s.negative == n.negative
    decreases n.coefficient
  {
    if n.coefficient % 10 == 0 then Stripped(Number(n.negative, n.coefficient / 10, n.exponent + 1)) else n
  }

  function Canonical(n: Number): Number { if n.coefficient == 0 then ZERO else Stripped(n) }

  /** `normalize()`, with every zero replaced by plain zero. */
  function Normalized(n: Number): Option<Number> {
    match Fixed(n)
    case None => None
    case Some(f) => Some(Canonical(f))
  }

  /** Below 1e29 in magnitude and at most nine places. */
  predicate InDomain(n: Number) {
    && n.exponent >= -9
    && if n.exponent >= 0 then n.coefficient * Pow10(n.exponent) < Pow10(29)
       else n.coefficient < Pow10(29 - n.exponent)
  }

  // ------------------------------------------------------------------- text

  predicate IsDigit(c: char) { '0' <= c <= '9' }

  predicate AllDigits(s: string) { forall i :: 0 <= i < |s| ==> IsDigit(s[i]) }

  function DigitChar(d: nat): (c: char)
    requires d < 10
    ensures IsDigit(c)
  {
    ('0' as int + d) as char
  }

  function Numeral(c: nat): string {
    if c < 10 then [DigitChar(c)] else Numeral(c / 10) + [DigitChar(c % 10)]
  }

  function Value(s: string): nat
    requires AllDigits(s)
  {
    if s == "" then 0 else 10 * Value(s[..|s| - 1]) + (s[|s| - 1] as int - '0' as int)
  }

  function Zeros(k: nat): (s: string)
    ensures |s| == k && AllDigits(s)
  {
    seq(k, _ => '0')
  }

  /** Fixed notation without a sign. */
  function Unsigned(n: Number): string {
    var digits := Numeral(n.coefficient);
    var left := n.exponent + |digits|;
    if n.exponent >= 0 then digits + Zeros(n.exponent)
    else if left <= 0 then "0." + Zeros(-left) + digits
    else digits[..left] + "." + digits[left..]
  }

  function Plain(n: Number): string { if n.negative then "-" + Unsigned(n) else Unsigned(n) }

  function DigitRun(s: string): (k: nat)
    ensures k <= |s| && AllDigits(s[..k]) && (k < |s| ==> !IsDigit(s[k]))
  {
    if s == "" || !IsDigit(s[0]) then 0
    else
      var k := DigitRun(s[1..]);
      assert s[..k + 1] == [s[0]] + s[1..][..k];
      k + 1
  }

  /** The optional exponent part that ends a numeral. */
  function ExponentPart(s: string): Option<int> {
    if s == "" then Some(0)
    else if s[0] != 'e' && s[0] != 'E' then None
    else
      var signed := |s| > 1 && (s[1] == '-' || s[1] == '+');
      var digits := if signed then s[2..] else s[1..];
      if digits == "" || DigitRun(digits) != |digits| then None
      else
        assert digits[..|digits|] == digits;
        var size: int := Value(digits);
        Some(if signed && s[1] == '-' then -size else size)
  }

  function Assembled(negative: bool, whole: string, fraction: string, rest: string): Option<Number>
    requires AllDigits(whole) && AllDigits(fraction)
  {
    if whole + fraction == "" then None
    else
      match ExponentPart(rest)
      case None => None
      case Some(e) => Some(Number(negative, Value(whole + fraction), e - |fraction|))
  }

  function ReadUnsigned(negative: bool, body: string): Option<Number> {
    var k := DigitRun(body);
    if k < |body| && body[k] == '.' then
      var tail := body[k + 1..];
      var f := DigitRun(tail);
      Assembled(negative, body[..k], tail[..f], tail[f..])
    else Assembled(negative, body[..k], "", body[k..])
  }

  /** A numeral read as a finite decimal. */
  function Read(text: string): Option<Number> {
    if text != "" && (text[0] == '-' || text[0] == '+') then ReadUnsigned(text[0] == '-', text[1..])
    else ReadUnsigned(false, text)
  }

  // ---------------------------------------------- producer and consumer

  /** What the producer writes for a finite decimal, if it accepts it. */
  function Written(n: Number): Option<string> {
    match Normalized(n)
    case None => None
    case Some(m) => if InDomain(m) then Some(Plain(m)) else None
  }

  /** Whether the template accepts a numeral. */
  predicate Readable(text: string) {
    Read(text).Some? && Normalized(Read(text).value).Some? && InDomain(Normalized(Read(text).value).value)
  }

  // ------------------------------------------------------- powers and digits

  lemma {:induction false} PowAdds(a: nat, b: nat)
    ensures Pow10(a + b) == Pow10(a) * Pow10(b)
  {
    if a > 0 {
      PowAdds(a - 1, b);
      Associate(10, Pow10(a - 1), Pow10(b));
    }
  }

  lemma Associate(a: int, b: int, c: int)
    ensures (a * b) * c == a * (b * c)
  {}

  lemma {:induction false} PowGrows(a: nat, b: nat)
    requires a <= b
    ensures Pow10(a) <= Pow10(b)
  {
    if a < b {
      PowGrows(a, b - 1);
    }
  }

  /** `Digits` is the only exponent the number fits between. */
  lemma DigitsAre(c: nat, n: nat)
    requires c > 0 && n >= 1 && Pow10(n - 1) <= c < Pow10(n)
    ensures Digits(c) == n
  {
    if Digits(c) < n {
      PowGrows(Digits(c), n - 1);
    } else if Digits(c) > n {
      PowGrows(n, Digits(c) - 1);
    }
  }

  lemma DigitsShift(c: nat, k: nat)
    requires c > 0
    ensures c * Pow10(k) > 0 && Digits(c * Pow10(k)) == Digits(c) + k
  {
    hide *;
    var d := Digits(c);
    PowAdds(d - 1, k);
    PowAdds(d, k);
    Scale(Pow10(d - 1), c, Pow10(k));
    ScaleStrictly(c, Pow10(d), Pow10(k));
    ScaleStrictly(0, c, Pow10(k));
    DigitsAre(c * Pow10(k), d + k);
  }

  lemma Scale(a: nat, b: nat, k: nat)
    requires a <= b
    ensures a * k <= b * k
  {}

  lemma ScaleStrictly(a: nat, b: nat, k: nat)
    requires a < b && k > 0
    ensures a * k < b * k
  {}

  // ---------------------------------------------------------------- stripping

  /** Stripping divides out a power of ten. */
  lemma {:induction false} StripDivides(n: Number) returns (k: nat)
    requires n.coefficient > 0
    ensures n.coefficient == Stripped(n).coefficient * Pow10(k) && Stripped(n).exponent == n.exponent + k
    decreases n.coefficient
  {
    if n.coefficient % 10 == 0 {
      var smaller := Number(n.negative, n.coefficient / 10, n.exponent + 1);
      var j := StripDivides(smaller);
      k := j + 1;
      var s := Stripped(n).coefficient;
      assert n.coefficient == 10 * (s * Pow10(j));
      assert 10 * (s * Pow10(j)) == s * (10 * Pow10(j));
    } else {
      k := 0;
    }
  }

  lemma Tenfold(c: nat, k: nat)
    requires k > 0
    ensures c * Pow10(k) == 10 * (c * Pow10(k - 1))
    ensures (c * Pow10(k)) % 10 == 0 && (c * Pow10(k)) / 10 == c * Pow10(k - 1)
  {
    var smaller, p := c * Pow10(k - 1), Pow10(k - 1);
    hide Pow10;
    assert Pow10(k) == 10 * p by { PowStep(k); }
    assert c * (10 * p) == 10 * (c * p);
  }

  lemma PowStep(k: nat)
    requires k > 0
    ensures Pow10(k) == 10 * Pow10(k - 1)
  {}

  lemma {:induction false} StripScaled(negative: bool, c: nat, e: int, k: nat)
    requires c > 0 && c % 10 != 0
    ensures c * Pow10(k) > 0 && Stripped(Number(negative, c * Pow10(k), e)) == Number(negative, c, e + k)
    decreases k
  {
    ScaleStrictly(0, c, Pow10(k));
    if k > 0 {
      StripScaled(negative, c, e + 1, k - 1);
      Tenfold(c, k);
    } else {
      assert c * Pow10(0) == c;
    }
  }

  // ----------------------------------------------------------- exact rounding

  /** At most 28 significant digits, and at most nine places. */
  predicate Precise(n: Number) {
    n.coefficient == 0 || (Stripped(n).coefficient < Pow10(PRECISION) && Stripped(n).exponent >= -9)
  }

  lemma RoundingExact(s: nat, drop: nat, rest: nat)
    ensures Rounded(s * Pow10(drop + rest), drop) == s * Pow10(rest)
  {
    PowAdds(rest, drop);
    var unit, q := Pow10(drop), s * Pow10(rest);
    Associate(s, Pow10(rest), unit);
    WholeQuotient(q, unit);
  }

  lemma WholeQuotient(q: nat, unit: nat)
    requires unit > 0
    ensures (q * unit) / unit == q && (q * unit) % unit == 0
  {
    var c := q * unit;
    var quotient, remainder := c / unit, c % unit;
    assert c == quotient * unit + remainder;
    assert (quotient - q) * unit == -remainder;
    if quotient > q {
      Scale(1, quotient - q, unit);
    } else if quotient < q {
      Scale(1, q - quotient, unit);
    }
  }

  /** A precise number normalises to itself without trailing zeros. */
  lemma ExactNormal(n: Number)
    requires Precise(n) && Fixed(n).Some?
    ensures Normalized(n) == Some(Canonical(n))
  {
    hide Pow10, Digits, Rounded, Stripped;
    if n.coefficient > 0 {
      var least := Max(Digits(n.coefficient) + n.exponent - PRECISION, ETINY);
      if n.exponent < least {
        var k := StripDivides(n);
        var s := Stripped(n).coefficient;
        DigitsShift(s, k);
        ShortDigits(s, PRECISION);
        var drop := least - n.exponent;
        RoundingExact(s, drop, k - drop);
        var q := s * Pow10(k - drop);
        DigitsShift(s, k - drop);
        PowGrows(Digits(q), PRECISION);
        StripScaled(n.negative, s, least, k - drop);
      }
    }
  }

  lemma ShortDigits(c: nat, n: nat)
    requires 0 < c < Pow10(n)
    ensures Digits(c) <= n
  {
    var below := Digits(c) - 1;
    if below >= n {
      PowGrows(n, below);
    }
  }

  // -------------------------------------------------------------- round trip

  lemma {:induction false} NumeralReads(c: nat)
    ensures AllDigits(Numeral(c)) && Value(Numeral(c)) == c && |Numeral(c)| == Digits(c)
  {
    if c >= 10 {
      NumeralReads(c / 10);
      var s := Numeral(c);
      assert s[..|s| - 1] == Numeral(c / 10);
    } else {
      assert Numeral(c)[..0] == "";
    }
  }

  lemma {:induction false} TrailingZeros(s: string, k: nat)
    requires AllDigits(s)
    ensures AllDigits(s + Zeros(k)) && Value(s + Zeros(k)) == Value(s) * Pow10(k)
  {
    if k == 0 {
      assert s + Zeros(0) == s;
    } else {
      TrailingZeros(s, k - 1);
      var t := s + Zeros(k);
      assert t[..|t| - 1] == s + Zeros(k - 1);
    }
  }

  lemma {:induction false} LeadingZeros(k: nat, s: string)
    requires AllDigits(s)
    ensures AllDigits(Zeros(k) + s) && Value(Zeros(k) + s) == Value(s)
  {
    if s == "" {
      assert Zeros(k) + s == Zeros(k);
      TrailingZeros("", k);
      assert "" + Zeros(k) == Zeros(k);
    } else {
      LeadingZeros(k, s[..|s| - 1]);
      var t := Zeros(k) + s;
      assert t[..|t| - 1] == Zeros(k) + s[..|s| - 1];
    }
  }

  lemma {:induction false} RunsOver(s: string, rest: string)
    requires AllDigits(s) && (rest == "" || !IsDigit(rest[0]))
    ensures DigitRun(s + rest) == |s|
  {
    if s == "" {
      assert s + rest == rest;
    } else {
      RunsOver(s[1..], rest);
      assert (s + rest)[1..] == s[1..] + rest;
    }
  }

  lemma NothingFollows()
    ensures ExponentPart("") == Some(0)
  {}

  lemma ReadsWhole(negative: bool, whole: string)
    requires AllDigits(whole) && whole != ""
    ensures ReadUnsigned(negative, whole) == Some(Number(negative, Value(whole), 0))
  {
    RunsOver(whole, "");
    assert whole + "" == whole;
    assert whole[..|whole|] == whole;
  }

  lemma DigitsJoin(a: string, b: string)
    requires AllDigits(a) && AllDigits(b)
    ensures AllDigits(a + b)
  {}

  lemma ReadsFraction(negative: bool, whole: string, fraction: string)
    requires AllDigits(whole) && AllDigits(fraction) && whole != ""
    ensures AllDigits(whole + fraction)
    ensures ReadUnsigned(negative, whole + "." + fraction)
         == Some(Number(negative, Value(whole + fraction), -|fraction|))
  {
    hide DigitRun, ExponentPart, Value, AllDigits;
    DigitsJoin(whole, fraction);
    var body := whole + "." + fraction;
    assert body == whole + ("." + fraction);
    RunsOver(whole, "." + fraction);
    NothingFollows();
    assert body[..|whole|] == whole && body[|whole|] == '.' && body[|whole| + 1..] == fraction;
    RunsOver(fraction, "");
    assert fraction + "" == fraction && fraction[..|fraction|] == fraction && fraction[|fraction|..] == "";
    assert ReadUnsigned(negative, body) == Assembled(negative, whole, fraction, "");
  }

  /** What fixed notation reads back as. */
  function Rescaled(n: Number): Number {
    if n.exponent >= 0 then Number(n.negative, n.coefficient * Pow10(n.exponent), 0) else n
  }

  lemma PointReads(n: Number, left: int)
    requires left == n.exponent + |Numeral(n.coefficient)| && n.exponent < 0
    ensures ReadUnsigned(n.negative, Unsigned(n)) == Some(n)
  {
    hide ReadUnsigned, Numeral, Value, Zeros;
    var digits := Numeral(n.coefficient);
    NumeralReads(n.coefficient);
    if left <= 0 {
      var fraction := Zeros(-left) + digits;
      LeadingZeros(-left, digits);
      ReadsFraction(n.negative, "0", fraction);
      assert "0." + Zeros(-left) + digits == "0" + "." + fraction;
      ZeroFirst(fraction);
    } else {
      ReadsFraction(n.negative, digits[..left], digits[left..]);
      assert digits[..left] + digits[left..] == digits;
    }
  }

  lemma ZeroFirst(s: string)
    requires AllDigits(s)
    ensures AllDigits("0" + s) && Value("0" + s) == Value(s)
  {
    hide Value;
    assert "0" + s == Zeros(1) + s;
    LeadingZeros(1, s);
  }

  lemma UnsignedReads(n: Number)
    ensures ReadUnsigned(n.negative, Unsigned(n)) == Some(Rescaled(n))
  {
    hide ReadUnsigned, Numeral, Value, Zeros;
    var digits := Numeral(n.coefficient);
    if n.exponent >= 0 {
      NumeralReads(n.coefficient);
      TrailingZeros(digits, n.exponent);
      ReadsWhole(n.negative, digits + Zeros(n.exponent));
    } else {
      PointReads(n, n.exponent + |digits|);
    }
  }

  lemma StartsWithDigit(n: Number)
    ensures Unsigned(n) != "" && IsDigit(Unsigned(n)[0])
  {
    hide Numeral, Value;
    NumeralReads(n.coefficient);
  }

  lemma PlainReads(n: Number)
    ensures Read(Plain(n)) == Some(Rescaled(n))
  {
    hide ReadUnsigned, Unsigned, Rescaled;
    UnsignedReads(n);
    StartsWithDigit(n);
    if n.negative {
      assert Plain(n)[1..] == Unsigned(n);
    }
  }

  // ------------------------------------------------------------- main results

  /** A number has already been normalised. */
  predicate Normal(n: Number) {
    n == ZERO || (n.coefficient % 10 != 0 && n.coefficient < Pow10(PRECISION))
  }

  lemma RoundsBelow(c: nat, e: int)
    requires c > 0 && Max(Digits(c) + e - PRECISION, ETINY) > e
    ensures Rounded(c, Max(Digits(c) + e - PRECISION, ETINY) - e) <= Pow10(PRECISION)
  {
    hide Pow10, Digits;
    var drop := Max(Digits(c) + e - PRECISION, ETINY) - e;
    var unit := Pow10(drop);
    PowGrows(Digits(c), PRECISION + drop);
    PowAdds(PRECISION, drop);
    QuotientBelow(c, unit, Pow10(PRECISION));
  }

  lemma QuotientBelow(c: nat, unit: nat, bound: nat)
    requires unit > 0 && c < bound * unit
    ensures c / unit < bound
  {
    var quotient := c / unit;
    assert quotient * unit <= c;
    if quotient >= bound {
      Scale(bound, quotient, unit);
    }
  }

  lemma {:induction false} StripShrinks(n: Number)
    requires n.coefficient > 0
    ensures Stripped(n).coefficient <= n.coefficient
    decreases n.coefficient
  {
    if n.coefficient % 10 == 0 {
      StripShrinks(Number(n.negative, n.coefficient / 10, n.exponent + 1));
    }
  }

  lemma FixedFits(n: Number)
    requires Fixed(n).Some?
    ensures Fixed(n).value.coefficient < Pow10(PRECISION)
  {
    hide Pow10, Digits, Rounded;
    if n.coefficient > 0 {
      var least := Max(Digits(n.coefficient) + n.exponent - PRECISION, ETINY);
      if n.exponent < least {
        RoundsBelow(n.coefficient, n.exponent);
      } else {
        PowGrows(Digits(n.coefficient), PRECISION);
      }
    }
  }

  /** Normalising leaves at most 28 digits and no trailing zero. */
  lemma NormalizedIsNormal(n: Number)
    requires Normalized(n).Some?
    ensures Normal(Normalized(n).value)
  {
    hide Pow10, Fixed, Stripped;
    FixedFits(n);
    var f := Fixed(n).value;
    if f.coefficient > 0 {
      StripShrinks(f);
    }
  }

  /** Reading what was written of a normal number normalises to that number. */
  lemma NormalSurvives(m: Number)
    requires Normal(m) && InDomain(m)
    ensures Normalized(Rescaled(m)) == Some(m)
  {
    hide Pow10, Digits, Rounded, Normalized;
    var p := Rescaled(m);
    if m.coefficient > 0 {
      if m.exponent >= 0 {
        StripScaled(m.negative, m.coefficient, 0, m.exponent);
        ShortDigits(p.coefficient, 29);
      } else {
        ShortDigits(m.coefficient, 29 - m.exponent);
        StripNone(m);
      }
      ExactNormal(p);
    } else {
      NormalZero();
    }
  }

  lemma StripNone(m: Number)
    requires m.coefficient % 10 != 0
    ensures Stripped(m) == m
  {}

  lemma NormalZero()
    ensures Normalized(Rescaled(ZERO)) == Some(ZERO)
  {}

  /** Every decimal the producer writes, the template accepts, and both
      normalise to the same number: for any input, however many digits. */
  lemma WrittenIsReadable(n: Number)
    requires Written(n).Some?
    ensures Readable(Written(n).value)
    ensures Normalized(Read(Written(n).value).value) == Normalized(n)
  {
    var m := Normalized(n).value;
    NormalizedIsNormal(n);
    PlainReads(m);
    NormalSurvives(m);
  }

  /** Two decimals that denote the same number. */
  predicate SameNumber(a: Number, b: Number) {
    var low := if a.exponent < b.exponent then a.exponent else b.exponent;
    && a.coefficient * Pow10(a.exponent - low) == b.coefficient * Pow10(b.exponent - low)
    && (a.coefficient == 0 || a.negative == b.negative)
  }

  /** Numbers without trailing zeros are equal when they denote the same. */
  lemma SameIsEqual(a: Number, b: Number)
    requires a.coefficient % 10 != 0 && b.coefficient % 10 != 0 && SameNumber(a, b)
    ensures a == b
  {
    if a.exponent > b.exponent {
      TenDivides(a.coefficient, a.exponent - b.exponent);
    } else if b.exponent > a.exponent {
      TenDivides(b.coefficient, b.exponent - a.exponent);
    }
  }

  lemma TenDivides(c: nat, k: nat)
    requires k > 0
    ensures (c * Pow10(k)) % 10 == 0
  {
    Tenfold(c, k);
  }

  lemma ScaledSame(a: Number, b: Number, k: nat)
    requires b.exponent == a.exponent + k && a.coefficient == b.coefficient * Pow10(k) && a.negative == b.negative
    ensures SameNumber(a, b) && SameNumber(b, a)
  {
    assert Pow10(0) == 1;
    if b.coefficient > 0 {
      ScaleStrictly(0, b.coefficient, Pow10(k));
    }
  }

  /** Denoting the same number is unaffected by trailing zeros. */
  lemma SameThrough(a: Number, b: Number, k: nat, c: Number)
    requires b.exponent == a.exponent + k && a.coefficient == b.coefficient * Pow10(k) && a.negative == b.negative
    ensures SameNumber(a, c) == SameNumber(b, c)
  {
    hide Pow10;
    var lowA := if a.exponent < c.exponent then a.exponent else c.exponent;
    var lowB := if b.exponent < c.exponent then b.exponent else c.exponent;
    var x, y, shift := b.coefficient * Pow10(b.exponent - lowB), c.coefficient * Pow10(c.exponent - lowB), lowB - lowA;
    PowAdds(b.exponent - lowB, shift);
    PowAdds(c.exponent - lowB, shift);
    PowAdds(k, a.exponent - lowA);
    Associate(b.coefficient, Pow10(b.exponent - lowB), Pow10(shift));
    Associate(c.coefficient, Pow10(c.exponent - lowB), Pow10(shift));
    Associate(b.coefficient, Pow10(k), Pow10(a.exponent - lowA));
    assert a.coefficient * Pow10(a.exponent - lowA) == x * Pow10(shift);
    assert c.coefficient * Pow10(c.exponent - lowA) == y * Pow10(shift);
    Cancel(x, y, Pow10(shift));
    ZeroScaled(b.coefficient, Pow10(k));
  }

  lemma Cancel(x: nat, y: nat, k: nat)
    requires k > 0
    ensures x * k == y * k <==> x == y
  {
    if x < y {
      ScaleStrictly(x, y, k);
    } else if y < x {
      ScaleStrictly(y, x, k);
    }
  }

  lemma ZeroScaled(b: nat, k: nat)
    requires k > 0
    ensures b * k == 0 <==> b == 0
  {}

  lemma RescaledSame(m: Number, n: Number)
    ensures SameNumber(Rescaled(m), n) == SameNumber(m, n)
  {
    if m.exponent >= 0 {
      SameThrough(Rescaled(m), m, m.exponent, n);
    }
  }

  /** The text the producer writes denotes the decimal it was given exactly when
      that decimal has at most 28 significant digits and nine places: a longer
      one is accepted and rounded, and a vanishingly small one is written as 0. */
  lemma ValueKeptIff(n: Number)
    requires Written(n).Some?
    ensures Read(Written(n).value).Some?
    ensures SameNumber(Read(Written(n).value).value, n) <==> Precise(n)
  {
    var m := Normalized(n).value;
    NormalizedIsNormal(n);
    PlainReads(m);
    RescaledSame(m, n);
    if n.coefficient == 0 {
      assert m == ZERO;
    } else {
      ValueKept(n, m);
    }
  }

  lemma ValueKept(n: Number, m: Number)
    requires n.coefficient > 0 && Normalized(n) == Some(m) && Normal(m) && InDomain(m)
    ensures SameNumber(m, n) <==> Precise(n)
  {
    hide Pow10, Fixed, Stripped;
    var k := StripDivides(n);
    var s := Stripped(n);
    SameSymmetric(m, n);
    SameThrough(n, s, k, m);
    if Precise(n) {
      ExactNormal(n);
      assert m == s;
      ScaledSame(n, s, k);
    }
    if SameNumber(s, m) {
      ZeroScaled(s.coefficient, Pow10(s.exponent - if s.exponent < m.exponent then s.exponent else m.exponent));
      assert m.coefficient > 0;
      SameIsEqual(s, m);
    }
  }

  lemma SameSymmetric(a: Number, b: Number)
    ensures SameNumber(a, b) == SameNumber(b, a)
  {
    var low := if a.exponent < b.exponent then a.exponent else b.exponent;
    ZeroScaled(a.coefficient, Pow10(a.exponent - low));
    ZeroScaled(b.coefficient, Pow10(b.exponent - low));
  }

  /** The domain is that of a column of 38 digits with nine places: a multiple of a
      billionth that, counted in billionths, has at most 38 digits. */
  lemma DomainIsNumeric(n: Number)
    ensures InDomain(n) <==> n.exponent >= -9 && n.coefficient * Pow10(n.exponent + 9) < Pow10(38)
  {
    hide Pow10;
    if n.exponent >= 0 {
      PowAdds(n.exponent, 9);
      PowAdds(29, 9);
      Associate(n.coefficient, Pow10(n.exponent), Pow10(9));
      SameOrder(n.coefficient * Pow10(n.exponent), Pow10(29), Pow10(9));
    } else if n.exponent >= -9 {
      PowAdds(29 - n.exponent, n.exponent + 9);
      SameOrder(n.coefficient, Pow10(29 - n.exponent), Pow10(n.exponent + 9));
    }
  }

  lemma SameOrder(a: nat, b: nat, k: nat)
    requires k >= 1
    ensures a < b <==> a * k < b * k
  {
    if a < b { ScaleStrictly(a, b, k); } else { Scale(b, a, k); }
  }
}
