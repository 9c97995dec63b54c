// fmt's decimal_formatter: digits by multiplication in 4.32 fixed point.
module FixedPointItoa {
  import opened Digits

  function Pow2(n: nat): (p: nat)
    ensures p > 0
  {
    if n == 0 then 1 else 2 * Pow2(n - 1)
  }

  function Shift(n: nat): nat {
    n / 5 * n * 53 / 16
  }

  // The scale factor for numbers of n + 2 digits: a little more than 2^32 / 10^n, times 2^Shift.
  function Factor(n: nat): int {
    Pow2(32 + Shift(n)) / Pow10(n) + 1 - n / 9
  }

  function ScaleBy(t: int, n: nat, u: nat): int {
    t * u / Pow2(Shift(n)) + n / 5 * 4
  }

  function Start(n: nat, u: nat): int {
    ScaleBy(Factor(n), n, u)
  }

  // t is u / 10^m in 32-bit fixed point, rounded up by less than one unit of u.
  ghost predicate Scaled(t: int, u: int, m: nat) {
    u * 0x1_0000_0000 <= t * Pow10(m) < (u + 1) * 0x1_0000_0000
  }

  lemma {:induction false} PowSum(a: nat, b: nat)
    ensures Pow2(a + b) == Pow2(a) * Pow2(b)
  {
    if a > 0 { PowSum(a - 1, b); }
  }

  lemma Powers()
    ensures Pow2(16) == 0x1_0000 && Pow2(19) == 0x8_0000 && Pow2(23) == 0x80_0000 && Pow2(26) == 0x400_0000
    ensures Pow2(32) == 0x1_0000_0000 && Pow2(48) == 0x1_0000_0000 * 0x1_0000 && Pow2(51) == 0x1_0000_0000 * 0x8_0000
    ensures Pow2(55) == 0x1_0000_0000 * 0x80_0000 && Pow2(58) == 0x1_0000_0000 * 0x400_0000
    ensures Pow10(4) == 10000 && Pow10(8) == 100000000
  {
    assert Pow2(3) == 8 && Pow2(7) == 128;
    assert Pow2(8) == 256 by { PowSum(4, 4); }
    PowSum(8, 8);
    PowSum(16, 3);
    PowSum(16, 7);
    PowSum(23, 3);
    PowSum(16, 16);
    PowSum(32, 16);
    PowSum(32, 19);
    PowSum(32, 23);
    PowSum(32, 26);
    assert Pow10(4) == 10000;
    assert Pow10(8) == 10000 * Pow10(4);
  }

  lemma Tens()
    ensures Pow10(1) == 10 && Pow10(2) == 100 && Pow10(3) == 1000 && Pow10(5) == 100000
    ensures Pow10(6) == 1000000 && Pow10(7) == 10000000 && Pow10(9) == 1000000000 && Pow10(10) == 10000000000
  {
    Powers();
  }

  lemma Shifts()
    ensures Shift(1) == Shift(2) == Shift(3) == Shift(4) == 0
    ensures Shift(5) == 16 && Shift(6) == 19 && Shift(7) == 23 && Shift(8) == 26
  {
  }

  lemma Factors()
    ensures Factor(1) == 429496730 && Factor(2) == 42949673 && Factor(3) == 4294968 && Factor(4) == 429497
    ensures Factor(5) == 2814749768 && Factor(6) == 2251799814 && Factor(7) == 3602879702 && Factor(8) == 2882303762
  {
    Powers();
    Tens();
    Shifts();
  }

  // Bounds by linear arithmetic once the constants of each length are written out.
  lemma StartAt(factor: nat, shift: nat, add: nat, ten: nat, u: nat, limit: nat)
    requires u < limit
    requires (factor, shift, add, ten, limit) in {
               (429496730, 1, 0, 10, 1000), (42949673, 1, 0, 100, 10000), (4294968, 1, 0, 1000, 100000),
               (429497, 1, 0, 10000, 1000000)}
             || (factor, shift, add, ten, limit) in {
               (2814749768, 0x1_0000, 4, 100000, 10000000), (2251799814, 0x8_0000, 4, 1000000, 100000000),
               (3602879702, 0x80_0000, 4, 10000000, 1000000000), (2882303762, 0x400_0000, 4, 100000000, 0x1_0000_0000)}
    ensures factor * u < 0x1_0000_0000_0000_0000
    ensures u * 0x1_0000_0000 <= (factor * u / shift + add) * ten < (u + 1) * 0x1_0000_0000
  {
  }

  // The constants of each length, in one place.
  lemma Constants(n: nat)
    requires 1 <= n <= 8
    ensures var limit := if n == 8 then 0x1_0000_0000 else Pow10(n + 2);
      var c := (Factor(n), Pow2(Shift(n)), n / 5 * 4, Pow10(n), limit);
      c in {(429496730, 1, 0, 10, 1000), (42949673, 1, 0, 100, 10000), (4294968, 1, 0, 1000, 100000),
            (429497, 1, 0, 10000, 1000000)}
      || c in {(2814749768, 0x1_0000, 4, 100000, 10000000), (2251799814, 0x8_0000, 4, 1000000, 100000000),
               (3602879702, 0x80_0000, 4, 10000000, 1000000000), (2882303762, 0x400_0000, 4, 100000000, 0x1_0000_0000)}
  {
    Powers();
    Tens();
    Shifts();
    Factors();
    assert n == 1 || n == 2 || n == 3 || n == 4 || n == 5 || n == 6 || n == 7 || n == 8;
  }

  /** The scaling step is exact enough for every number it is used on, and fits in 64 bits. */
  lemma StartScaled(n: nat, u: nat)
    requires 1 <= n <= 8 && u < 0x1_0000_0000 && u < Pow10(n + 2)
    ensures Factor(n) * u < 0x1_0000_0000_0000_0000
    ensures Scaled(Start(n, u), u, n)
  {
    Constants(n);
    StartAt(Factor(n), Pow2(Shift(n)), n / 5 * 4, Pow10(n), u, if n == 8 then 0x1_0000_0000 else Pow10(n + 2));
  }

  lemma Distribute(h: int, w: nat, p: nat)
    requires w < 0x1_0000_0000
    ensures (h * 0x1_0000_0000 + w) * p == (h * p) * 0x1_0000_0000 + w * p
    ensures 0 <= w * p <= 0xFFFF_FFFF * p
  {
  }

  // The whole part h and the fraction w of t, with t scaled by p.
  lemma Whole(h: int, w: nat, u: nat, p: nat)
    requires p > 0 && w < 0x1_0000_0000
    requires u * 0x1_0000_0000 <= (h * 0x1_0000_0000 + w) * p < (u + 1) * 0x1_0000_0000
    ensures h * p <= u < h * p + p
    ensures (u - h * p) * 0x1_0000_0000 <= w * p < (u - h * p + 1) * 0x1_0000_0000
  {
    Distribute(h, w, p);
  }

  lemma NotNegative(h: int, u: nat, p: nat)
    requires p > 0 && u < h * p + p
    ensures h >= 0
  {
    assert (h + 1) * p == h * p + p;
    assert (h + 1) * p > 0;
  }

  // The whole part of t is the leading digits; its fraction scales the rest.
  lemma WholePart(t: int, u: nat, m: nat)
    requires Scaled(t, u, m)
    ensures t >= 0 && t / 0x1_0000_0000 == High(u, m)
    ensures Scaled(t % 0x1_0000_0000, Low(u, m), m)
  {
    var p, h := Pow10(m), t / 0x1_0000_0000;
    Whole(h, t % 0x1_0000_0000, u, p);
    NotNegative(h, u, p);
    DivUnique(u, p, h, u - h * p);
  }

  lemma Reorder(a: int, b: int, w: int)
    ensures (a * w) * b == w * (b * a)
  {
  }

  lemma Fraction(w: nat, v: nat, m: nat, j: nat)
    requires Scaled(w, v, m) && j <= m
    ensures Scaled(Pow10(j) * w, v, m - j)
  {
    PowProduct(m - j, j);
    Reorder(Pow10(j), Pow10(m - j), w);
  }

  /** One multiplication by 10^j brings the next j of the m digits that are left into the whole part. */
  lemma NextDigits(w: nat, t: nat, u: nat, m: nat, j: nat)
    requires Scaled(w, Low(u, m), m) && j <= m && t == Pow10(j) * w
    ensures t / 0x1_0000_0000 == Low(High(u, m - j), j)
    ensures Scaled(t % 0x1_0000_0000, Low(u, m - j), m - j)
  {
    Fraction(w, Low(u, m), m, j);
    WholePart(t, Low(u, m), m - j);
    Cut(u, m, m - j);
  }

  lemma FirstPair(t: int, u: nat, n: nat)
    requires Scaled(t, u, n) && u < Pow10(n + 2)
    ensures t >= 0 && t / 0x1_0000_0000 == High(u, n) < 100
    ensures Scaled(t % 0x1_0000_0000, Low(u, n), n)
  {
    WholePart(t, u, n);
    PowProduct(n, 2);
    Tens();
    QuotientBelow(u, Pow10(n), 100);
  }

  class DecimalFormatter {
    const buffer: array<char>
    var pos: nat

    constructor (buf: array<char>)
      ensures buffer == buf && pos == 0
    {
      buffer, pos := buf, 0;
    }

    method WritePair(at: nat, index: nat)
      requires index < 100 && pos + at + 2 <= buffer.Length
      modifies buffer
      ensures buffer[pos + at..pos + at + 2] == Decimal(index, 2)
      ensures Around(old(buffer[..]), buffer[..], pos + at, pos + at + 2)
    {
      var tens, units := LookUp(index);
      buffer[pos + at] := tens;
      buffer[pos + at + 1] := units;
    }

    /** Writes the digits of u, of which there are at most size + 1, and moves past them. */
    method On(size: nat, u: nat)
      requires size <= 9 && u < 0x1_0000_0000 && u < Pow10(size + 1)
      requires pos + size + 1 <= buffer.Length
      modifies this, buffer
      ensures pos == old(pos) + size + 1
      ensures buffer[old(pos)..pos] == Decimal(u, size + 1)
      ensures Around(old(buffer[..]), buffer[..], old(pos), pos)
    {
      if size == 0 {
        buffer[pos] := DigitChar(u);
        assert Decimal(u, 1) == Decimal(u / 10, 0) + [DigitChar(u)];
      } else if size == 1 {
        Tens();
        WritePair(0, u);
      } else {
        OnLong(size, u);
      }
      pos := pos + size + 1;
    }

    // The first i digits of u are written, and t holds the other `left` ones in its fraction.
    ghost predicate Progress(t: int, u: nat, i: nat, left: nat)
      reads this, buffer
    {
      pos + i + left <= buffer.Length && t >= 0 && Scaled(t % 0x1_0000_0000, Low(u, left), left) &&
      buffer[pos..pos + i] == Decimal(High(u, left), i)
    }

    /** lg: picks the length by comparisons, and writes exactly the digits of u. */
    method Format(u: nat)
      requires u < 0x1_0000_0000 && pos + DigitCount(u) <= buffer.Length
      modifies this, buffer
      ensures pos == old(pos) + DigitCount(u)
      ensures buffer[old(pos)..pos] == Decimal(u, DigitCount(u))
      ensures Around(old(buffer[..]), buffer[..], old(pos), pos)
    {
      var size :=
        if u < 100 then (if u < 10 then 0 else 1)
        else if u < 1000000 then
          (if u < 10000 then (if u < 1000 then 2 else 3) else if u < 100000 then 4 else 5)
        else if u < 100000000 then (if u < 10000000 then 6 else 7)
        else if u < 1000000000 then 8 else 9;
      Length(u, size);
      On(size, u);
    }

    method OnLong(size: nat, u: nat)
      requires 2 <= size <= 9 && u < 0x1_0000_0000 && u < Pow10(size + 1)
      requires pos + size + 1 <= buffer.Length
      modifies buffer
      ensures buffer[pos..pos + size + 1] == Decimal(u, size + 1)
      ensures Around(old(buffer[..]), buffer[..], pos, pos + size + 1)
    {
      var t := ScaleUp(size - 1, u);
      FirstPair(t, u, size - 1);
      WritePair(0, t / 0x1_0000_0000);
      var i;
      i, t := WritePairs(t, u, size);
      if size % 2 == 0 {
        WriteLast(t, u, size);
      } else {
        assert High(u, 0) == u;
      }
    }

    method WritePairs(first: nat, u: nat, size: nat) returns (i: nat, t: nat)
      requires size >= 2 && Progress(first, u, 2, size - 1)
      modifies buffer
      ensures i == if size % 2 == 0 then size else size + 1
      ensures Progress(t, u, i, size + 1 - i)
      ensures Around(old(buffer[..]), buffer[..], pos, pos + size + 1)
    {
      t, i := first, 2;
      while i < size
        invariant 2 <= i <= size + 1 && i % 2 == 0
        invariant Progress(t, u, i, size + 1 - i)
        invariant Around(old(buffer[..]), buffer[..], pos, pos + size + 1)
      {
        t := NextPair(t, u, i, size + 1 - i);
        i := i + 2;
      }
    }

    // An odd number of digits leaves one for the end.
    method WriteLast(t: nat, u: nat, size: nat)
      requires Progress(t, u, size, 1)
      modifies buffer
      ensures buffer[pos..pos + size + 1] == Decimal(u, size + 1)
      ensures Around(old(buffer[..]), buffer[..], pos + size, pos + size + 1)
    {
      LastDigit(t, u, size);
      buffer[pos + size] := DigitChar(10 * (t % 0x1_0000_0000) / 0x1_0000_0000);
      assert buffer[pos..pos + size + 1] == buffer[pos..pos + size] + [buffer[pos + size]];
    }

    method ScaleUp(n: nat, u: nat) returns (t: int)
      requires 1 <= n <= 8 && u < 0x1_0000_0000 && u < Pow10(n + 2)
      ensures Scaled(t, u, n)
    {
      StartScaled(n, u);
      t := Factor(n);
      t := ScaleBy(t, n, u);
    }

    // The i digits that are written become i + 2.
    method NextPair(t: nat, u: nat, i: nat, left: nat) returns (next: nat)
      requires left >= 2 && Progress(t, u, i, left)
      modifies buffer
      ensures Progress(next, u, i + 2, left - 2)
      ensures Around(old(buffer[..]), buffer[..], pos + i, pos + i + 2)
    {
      Tens();
      next := 100 * (t % 0x1_0000_0000);
      NextDigits(t % 0x1_0000_0000, next, u, left, 2);
      Extend(u, i, left, 2);
      WritePair(i, next / 0x1_0000_0000);
      assert buffer[pos..pos + i] == old(buffer[pos..pos + i]) by {
        assert forall k :: pos <= k < pos + i ==> buffer[k] == old(buffer[k]);
      }
      assert buffer[pos..pos + i + 2] == buffer[pos..pos + i] + buffer[pos + i..pos + i + 2];
    }
  }

  // Two texts that are the same outside [from, to).
  predicate Around(a: string, b: string, from: nat, to: nat) {
    |a| == |b| && forall k :: 0 <= k < |a| && (k < from || k >= to) ==> a[k] == b[k]
  }

  lemma Length(u: nat, size: nat)
    requires u < 0x1_0000_0000 && size <= 9
    requires size == 0 ==> u < 10
    requires size == 1 ==> 10 <= u < 100
    requires size == 2 ==> 100 <= u < 1000
    requires size == 3 ==> 1000 <= u < 10000
    requires size == 4 ==> 10000 <= u < 100000
    requires size == 5 ==> 100000 <= u < 1000000
    requires size == 6 ==> 1000000 <= u < 10000000
    requires size == 7 ==> 10000000 <= u < 100000000
    requires size == 8 ==> 100000000 <= u < 1000000000
    requires size == 9 ==> 1000000000 <= u
    ensures DigitCount(u) == size + 1 && u < Pow10(size + 1)
  {
    Powers();
    Tens();
    assert u < Pow10(size + 1) && (size == 0 || u >= Pow10(size)) by {
      assert size == 0 || size == 1 || size == 2 || size == 3 || size == 4 || size == 5 || size == 6 ||
          size == 7 || size == 8 || size == 9;
    }
    CountUnique(u, size + 1);
  }

  lemma LastDigit(t: nat, u: nat, i: nat)
    requires Scaled(t % 0x1_0000_0000, Low(u, 1), 1)
    ensures 10 * (t % 0x1_0000_0000) / 0x1_0000_0000 < 10
    ensures Decimal(u, i + 1) == Decimal(High(u, 1), i) + [DigitChar(10 * (t % 0x1_0000_0000) / 0x1_0000_0000)]
  {
    Tens();
    NextDigits(t % 0x1_0000_0000, 10 * (t % 0x1_0000_0000), u, 1, 1);
    Extend(u, i, 1, 1);
    var last := 10 * (t % 0x1_0000_0000) / 0x1_0000_0000;
    assert Decimal(last, 1) == Decimal(last / 10, 0) + [DigitChar(last % 10)];
    assert High(u, 0) == u;
  }
}
