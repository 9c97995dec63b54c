// fmt's Grisu2 digit generation.
module GrisuDigits {
  import opened Digits
  import opened FixedPointItoa

  // The digits of d, none for zero.
  function Text(d: nat): string {
    if d == 0 then "" else Text(d / 10) + [DigitChar(d % 10)]
  }

  lemma {:induction false} TextValue(d: nat)
    ensures (forall c :: c in Text(d) ==> IsDigit(c)) && Value(Text(d)) == d
    ensures d > 0 ==> Text(d)[0] != '0'
  {
    if d > 0 {
      TextValue(d / 10);
      assert Text(d)[..|Text(d)| - 1] == Text(d / 10);
    }
  }

  lemma {:induction false} TextLength(d: nat, k: nat)
    requires d < Pow10(k)
    ensures |Text(d)| <= k
  {
    if d > 0 { TextLength(d / 10, k - 1); }
  }

  function Units(u: nat, one: nat): nat
    requires one > 0
  {
    u / one
  }

  function Rest(u: nat, one: nat): (r: nat)
    requires one > 0
    ensures r < one && r <= u
  {
    u % one
  }

  // What remains of u when it is cut off below 10^k units of one, and of u * 10^j below one.
  function Remainder(u: nat, one: nat, k: nat): (r: nat)
    requires one > 0
    ensures r <= u
  {
    Rest(u, Pow10(k) * one)
  }

  function Below(u: nat, one: nat, j: nat): nat
    requires one > 0
  {
    Rest(Shifted(u, j), one)
  }

  // u with j zeros behind it.
  function Shifted(u: nat, j: nat): nat {
    if j == 0 then u else 10 * Shifted(u, j - 1)
  }

  lemma {:induction false} ShiftedIs(u: nat, j: nat)
    ensures Shifted(u, j) == u * Pow10(j)
  {
    if j > 0 {
      ShiftedIs(u, j - 1);
      assert 10 * (u * Pow10(j - 1)) == u * (10 * Pow10(j - 1));
    }
  }

  // d is u cut off after its first digits, at the highest place where what is lost is within delta.
  // k is the exponent of that place; digits holds that many places of u's whole part.
  ghost predicate ShortCut(u: nat, one: nat, digits: nat, delta: nat, d: nat, k: int)
    requires one > 0
  {
    if k >= 0 then
      && k < digits
      && d == Units(u, Pow10(k) * one) && Remainder(u, one, k) <= delta
      && forall i :: k < i < digits ==> Remainder(u, one, i) > delta
    else
      && d == Units(Shifted(u, -k), one) && Below(u, one, -k) < Shifted(delta, -k)
      && (forall i :: 0 <= i < digits ==> Remainder(u, one, i) > delta)
      && forall j :: 0 < j < -k ==> Below(u, one, j) >= Shifted(delta, j)
  }

  /** The number the digits denote is at most u, and within delta of it. */
  lemma Within(u: nat, one: nat, digits: nat, delta: nat, d: nat, k: int)
    requires one > 0 && ShortCut(u, one, digits, delta, d, k)
    ensures k >= 0 ==> 0 <= u - d * (Pow10(k) * one) <= delta
    ensures k < 0 ==> 0 <= u * Pow10(-k) - d * one < delta * Pow10(-k)
  {
    if k >= 0 {
      Euclid(u, Pow10(k) * one);
    } else {
      Euclid(Shifted(u, -k), one);
      ShiftedIs(u, -k);
      ShiftedIs(delta, -k);
    }
  }

  // The steps of the two loops --------------------------------------------------------------------

  // d and hi are the digits of the whole part of u above and below place exp.
  lemma WholeStep(u: nat, one: nat, exp: nat)
    requires one > 0
    ensures var hi := Units(u, one);
      && Units(u, Pow10(exp) * one) == High(hi, exp)
      && Remainder(u, one, exp) == Low(hi, exp) * one + Rest(u, one)
  {
    var p := Pow10(exp);
    Positive(p, one);
    CutAt(u, one, p);
    Split(u, one, p);
  }

  lemma Split(u: nat, one: nat, p: nat)
    requires one > 0 && p > 0 && p * one == one * p > 0
    requires u % (one * p) / one == u / one % p && u % (one * p) % one == u % one
    ensures u % (p * one) == u / one % p * one + u % one
  {
    Euclid(u % (one * p), one);
  }

  lemma Positive(p: nat, one: nat)
    requires p > 0 && one > 0
    ensures p * one == one * p > 0
  {
  }

  // One more digit of the whole part.
  lemma NextWhole(hi: nat, exp: nat)
    requires exp > 0
    ensures High(hi, exp - 1) == 10 * High(hi, exp) + High(Low(hi, exp), exp - 1)
    ensures Low(hi, exp - 1) == Low(Low(hi, exp), exp - 1)
    ensures High(Low(hi, exp), exp - 1) < 10
  {
    Cut(hi, exp, exp - 1);
    var h := High(hi, exp - 1);
    assert Low(h, 1) == h % 10 && High(h, 1) == h / 10;
  }

  // One more digit of the fraction.
  lemma NextFraction(u: nat, one: nat, j: nat)
    requires one > 0
    ensures var lo := 10 * Below(u, one, j);
      && Units(Shifted(u, j + 1), one) == 10 * Units(Shifted(u, j), one) + Units(lo, one)
      && Below(u, one, j + 1) == Rest(lo, one)
      && Units(lo, one) < 10
  {
    var v := Shifted(u, j);
    var q, r := v / one, v % one;
    var lo := 10 * r;
    Euclid(v, one);
    Euclid(lo, one);
    assert 10 * v == one * (10 * q + lo / one) + lo % one by {
      assert one * (10 * q + lo / one) == 10 * (one * q) + one * (lo / one);
    }
    DivUnique(10 * v, one, 10 * q + lo / one, lo % one);
    QuotientBelow(lo, one, 10);
  }

  // The method ------------------------------------------------------------------------------------

  // After the digits of the whole part down to place exp: none of the places above was close enough.
  ghost predicate WholeState(u: nat, one: nat, digits: nat, delta: nat, d: nat, hi: nat, exp: nat)
    requires one > 0
  {
    d == High(Units(u, one), exp) && hi == Low(Units(u, one), exp) && exp <= digits &&
    forall i :: exp <= i < digits ==> Remainder(u, one, i) > delta
  }

  // After j digits of the fraction; lo and scaled are the rest and the margin, both times 10^j.
  ghost predicate FractionState(u: nat, one: nat, digits: nat, delta: nat, d: nat, lo: nat, scaled: nat, j: nat)
    requires one > 0
  {
    d == Units(Shifted(u, j), one) && lo == Below(u, one, j) && scaled == Shifted(delta, j) <= lo < one &&
    (forall i :: 0 <= i < digits ==> Remainder(u, one, i) > delta) &&
    forall i :: 0 < i <= j ==> Below(u, one, i) >= Shifted(delta, i)
  }

  lemma TextNext(d: nat, digit: nat)
    requires digit < 10
    ensures Text(10 * d + digit) == if digit != 0 || Text(d) != "" then Text(d) + [DigitChar(digit)] else ""
  {
    assert (10 * d + digit) / 10 == d && (10 * d + digit) % 10 == digit;
  }

  // buffer[size++] = digit, unless it would be a leading zero
  method Emit(buffer: array<char>, size: nat, digit: nat, ghost d: nat) returns (next: nat)
    requires digit < 10 && size < buffer.Length && buffer[..size] == Text(d)
    modifies buffer
    ensures next <= size + 1 && buffer[..next] == Text(10 * d + digit)
  {
    next := size;
    TextNext(d, digit);
    if digit != 0 || size != 0 {
      buffer[size] := DigitChar(digit);
      next := size + 1;
      assert buffer[..next] == Text(d) + [DigitChar(digit)];
    }
  }

  /** upper: the significand of scaled_upper, whose exponent is -shift. On return the digits denote upper
      cut off at the highest place that loses at most delta, and decExp has moved by that place. */
  method GenDigits(upper: nat, shift: nat, delta: nat, buffer: array<char>, decExp: int)
    returns (size: nat, exponent: int, ghost d: nat)
    requires 32 <= shift <= 60 && upper < 0x1_0000_0000_0000_0000 && delta >= 1 && buffer.Length >= 30
    modifies buffer
    ensures size <= buffer.Length && buffer[..size] == Text(d)
    ensures ShortCut(upper, Pow2(shift), DigitCount(Units(upper, Pow2(shift))), delta, d, exponent - decExp)
  {
    var one := Pow2(shift);
    var hi, lo := Units(upper, one), Rest(upper, one);
    var digits := DigitCount(hi);
    PowBetween(shift);
    UnitsBound(upper, one);
    size := 0;
    d := 0;
    var exp := digits;
    WholeStart(upper, one, delta);
    while exp > 0
      invariant 0 <= exp <= digits && size <= digits - exp && buffer[..size] == Text(d)
      invariant WholeState(upper, one, digits, delta, d, hi, exp)
    {
      var remainder;
      size, hi, remainder, d := WholeDigit(upper, one, digits, delta, buffer, size, hi, lo, exp, d);
      exp := exp - 1;
      if remainder <= delta {
        return size, decExp + exp, d;
      }
    }
    WholeEnd(upper, one, digits, delta, d, hi);
    size, exponent, d := GenFraction(upper, one, digits, delta, buffer, size, decExp, lo, d);
  }

  // One turn of the first loop.
  method WholeDigit(ghost upper: nat, one: nat, ghost digits: nat, ghost delta: nat, buffer: array<char>, size: nat,
                    hi: nat, lo: nat, exp: nat, ghost d: nat)
    returns (next: nat, below: nat, remainder: nat, ghost more: nat)
    requires one > 0 && exp > 0 && size < buffer.Length && buffer[..size] == Text(d)
    requires WholeState(upper, one, digits, delta, d, hi, exp) && lo == Rest(upper, one)
    modifies buffer
    ensures next <= size + 1 && buffer[..next] == Text(more)
    ensures remainder <= upper
    ensures remainder <= delta ==> ShortCut(upper, one, digits, delta, more, exp - 1)
    ensures remainder > delta ==> WholeState(upper, one, digits, delta, more, below, exp - 1)
  {
    WholeNext(upper, one, digits, delta, d, hi, exp);
    var digit := High(hi, exp - 1);
    below := Low(hi, exp - 1);
    next := Emit(buffer, size, digit, d);
    more := 10 * d + digit;
    remainder := below * one + lo;
  }

  lemma PowBetween(shift: nat)
    requires 32 <= shift <= 60
    ensures 0x1_0000_0000 <= Pow2(shift) <= 0x1000_0000_0000_0000
  {
    var low, high := shift - 32, 60 - shift;
    Powers();
    PowSum(low, 32);
    PowSum(high, shift);
    Pow60(high + shift);
    Scale(Pow2(low), 0x1_0000_0000);
    Scale(Pow2(high), Pow2(shift));
  }

  lemma Pow60(n: nat)
    requires n == 60
    ensures Pow2(n) == 0x1000_0000_0000_0000
  {
    Powers();
    PowSum(58, 2);
    assert Pow2(2) == 4;
  }

  lemma Scale(a: nat, b: nat)
    requires a > 0
    ensures a * b >= b
  {
  }

  lemma UnitsBound(upper: nat, one: nat)
    requires one >= 0x1_0000_0000 && upper < 0x1_0000_0000_0000_0000
    ensures Units(upper, one) < 0x1_0000_0000 && DigitCount(Units(upper, one)) <= 10
  {
    Scale(one / 0x1_0000_0000, 0x1_0000_0000);
    QuotientBelow(upper, one, 0x1_0000_0000);
    Tens();
    CountBounds(Units(upper, one));
    if DigitCount(Units(upper, one)) > 10 { PowMono(10, DigitCount(Units(upper, one)) - 1); }
  }

  lemma WholeStart(upper: nat, one: nat, delta: nat)
    requires one > 0
    ensures var hi := Units(upper, one); WholeState(upper, one, DigitCount(hi), delta, 0, hi, DigitCount(hi))
  {
    var hi := Units(upper, one);
    CountBounds(hi);
    DivUnique(hi, Pow10(DigitCount(hi)), 0, hi);
  }

  lemma WholeNext(u: nat, one: nat, digits: nat, delta: nat, d: nat, hi: nat, exp: nat)
    requires one > 0 && exp > 0 && WholeState(u, one, digits, delta, d, hi, exp)
    ensures var hi', d' := Low(hi, exp - 1), 10 * d + High(hi, exp - 1);
      && High(hi, exp - 1) < 10
      && 0 <= hi' * one + Rest(u, one) <= u
      && (hi' * one + Rest(u, one) <= delta ==> ShortCut(u, one, digits, delta, d', exp - 1))
      && (hi' * one + Rest(u, one) > delta ==> WholeState(u, one, digits, delta, d', hi', exp - 1))
  {
    NextWhole(Units(u, one), exp);
    WholeStep(u, one, exp - 1);
  }

  lemma WholeEnd(u: nat, one: nat, digits: nat, delta: nat, d: nat, hi: nat)
    requires one > 0 && digits > 0 && WholeState(u, one, digits, delta, d, hi, 0)
    ensures FractionState(u, one, digits, delta, d, Rest(u, one), delta, 0)
  {
    assert Pow10(0) == 1 && High(Units(u, one), 0) == Units(u, one);
    assert Remainder(u, one, 0) == Rest(u, one);
    assert Below(u, one, 0) == Rest(u, one);
  }

  // As long as the margin fits below one, few digits have been written.
  lemma FewDigits(one: nat, delta: nat, scaled: nat, j: nat)
    requires scaled == Shifted(delta, j) && delta >= 1 && scaled < one <= 0x1000_0000_0000_0000
    ensures j <= 18
  {
    TensToNineteen();
    ShiftedLeast(delta, j);
    if j >= 19 { PowMono(19, j); }
  }

  lemma {:induction false} ShiftedLeast(u: nat, j: nat)
    requires u >= 1
    ensures Shifted(u, j) >= Pow10(j)
  {
    if j > 0 { ShiftedLeast(u, j - 1); }
  }

  lemma TensToNineteen()
    ensures Pow10(19) == 10000000000000000000
  {
    Tens();
    PowProduct(9, 10);
  }

  lemma FractionStep(u: nat, one: nat, digits: nat, delta: nat, d: nat, lo: nat, scaled: nat, j: nat)
    requires one > 0 && FractionState(u, one, digits, delta, d, lo, scaled, j)
    ensures var lo', d' := Rest(10 * lo, one), 10 * d + Units(10 * lo, one);
      && Units(10 * lo, one) < 10
      && (lo' < 10 * scaled ==> ShortCut(u, one, digits, delta, d', -(j + 1)))
      && (lo' >= 10 * scaled ==> FractionState(u, one, digits, delta, d', lo', 10 * scaled, j + 1))
  {
    NextFraction(u, one, j);
  }

  method GenFraction(ghost upper: nat, one: nat, ghost digits: nat, delta: nat, buffer: array<char>, start: nat,
                     decExp: int, low: nat, ghost whole: nat)
    returns (size: nat, exponent: int, ghost d: nat)
    requires 0 < one <= 0x1000_0000_0000_0000 && delta >= 1
    requires FractionState(upper, one, digits, delta, whole, low, delta, 0)
    requires start <= 10 && buffer.Length >= 30 && buffer[..start] == Text(whole)
    modifies buffer
    ensures size <= buffer.Length && buffer[..size] == Text(d)
    ensures ShortCut(upper, one, digits, delta, d, exponent - decExp)
  {
    var lo: nat, scaled: nat, exp := low, delta, 0;
    size, d := start, whole;
    ghost var j := 0;
    while true
      invariant FractionState(upper, one, digits, delta, d, lo, scaled, j) && exp == -j
      invariant size <= 10 + j <= 29 && buffer[..size] == Text(d)
      decreases one - scaled
    {
      FewDigits(one, delta, scaled, j);
      size, lo, scaled, d := FractionDigit(upper, one, digits, delta, buffer, size, lo, scaled, d, j);
      j := j + 1;
      exp := exp - 1;
      if lo < scaled {
        return size, decExp + exp, d;
      }
    }
  }

  // One turn of the second loop.
  method FractionDigit(ghost upper: nat, one: nat, ghost digits: nat, ghost delta: nat, buffer: array<char>, size: nat,
                       low: nat, margin: nat, ghost d: nat, ghost j: nat)
    returns (next: nat, lo: nat, scaled: nat, ghost more: nat)
    requires 0 < one <= 0x1000_0000_0000_0000 && size < buffer.Length && buffer[..size] == Text(d)
    requires FractionState(upper, one, digits, delta, d, low, margin, j)
    modifies buffer
    ensures next <= size + 1 && buffer[..next] == Text(more) && scaled == 10 * margin && lo < one
    ensures lo < scaled ==> ShortCut(upper, one, digits, delta, more, -(j + 1))
    ensures lo >= scaled ==> FractionState(upper, one, digits, delta, more, lo, scaled, j + 1)
  {
    FractionStep(upper, one, digits, delta, d, low, margin, j);
    assert 10 * low < 0x1_0000_0000_0000_0000 && 10 * margin < 0x1_0000_0000_0000_0000;
    lo, scaled := low * 10, margin * 10;
    var digit := Units(lo, one);
    next := Emit(buffer, size, digit, d);
    more := 10 * d + digit;
    lo := Rest(lo, one);
  }
}
