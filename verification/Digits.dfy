// Decimal notation and the tables the number kernels share.
module Digits {

  function Pow10(n: nat): (p: nat)
    ensures p > 0
  {
    if n == 0 then 1 else 10 * Pow10(n - 1)
  }

  function DigitChar(d: nat): char
    requires d < 10
  {
    '0' + d as char
  }

  predicate IsDigit(c: char) {
    '0' <= c <= '9'
  }

  // The k low digits of u, most significant first.
  function Decimal(u: nat, k: nat): (s: string)
    ensures |s| == k
  {
    if k == 0 then "" else Decimal(u / 10, k - 1) + [DigitChar(u % 10)]
  }

  function Quotient(u: nat, p: nat): (q: nat)
    requires p > 0
  {
    u / p
  }

  // u without its k low digits, and those digits.
  function High(u: nat, k: nat): (h: nat) {
    Quotient(u, Pow10(k))
  }

  function Low(u: nat, k: nat): (l: nat)
    ensures l < Pow10(k)
  {
    u % Pow10(k)
  }

  // The number a string of digits denotes.
  function Value(s: string): nat
    requires forall c :: c in s ==> IsDigit(c)
  {
    if s == "" then 0
    else
      var c := s[|s| - 1];
      assert IsDigit(c);
      10 * Value(s[..|s| - 1]) + (c - '0') as nat
  }

  // The number of digits of n, one for zero.
  function DigitCount(n: nat): (k: nat)
    ensures k > 0
  {
    if n < 10 then 1 else 1 + DigitCount(n / 10)
  }

  const TENS0 := "00010203040506070809"
  const TENS1 := "10111213141516171819"
  const TENS2 := "20212223242526272829"
  const TENS3 := "30313233343536373839"
  const TENS4 := "40414243444546474849"
  const TENS5 := "50515253545556575859"
  const TENS6 := "60616263646566676869"
  const TENS7 := "70717273747576777879"
  const TENS8 := "80818283848586878889"
  const TENS9 := "90919293949596979899"

  const DIGITS: string := TENS0 + TENS1 + TENS2 + TENS3 + TENS4 + TENS5 + TENS6 + TENS7 + TENS8 + TENS9

  // The i-th pair of s.
  ghost predicate PairAt(s: string, i: nat, tens: nat, units: nat) {
    2 * i + 1 < |s| && tens < 10 && units < 10 && s[2 * i] == DigitChar(tens) && s[2 * i + 1] == DigitChar(units)
  }

  // Ten pairs with the same first digit.
  ghost predicate Tenfold(row: string, tens: nat) {
    |row| == 20 && forall j :: 0 <= j < 10 ==> PairAt(row, j, tens, j)
  }

  lemma TenfoldIs(row: string, t: char, tens: nat)
    requires tens < 10 && t == DigitChar(tens)
    requires row == [t, '0', t, '1', t, '2', t, '3', t, '4', t, '5', t, '6', t, '7', t, '8', t, '9']
    ensures Tenfold(row, tens)
  {
    forall j | 0 <= j < 10 ensures PairAt(row, j, tens, j) {
      assert j == 0 || j == 1 || j == 2 || j == 3 || j == 4 || j == 5 || j == 6 || j == 7 || j == 8 || j == 9;
    }
  }

  // The rows put one behind the other.
  ghost predicate Table(s: string, tens: nat) {
    |s| == 20 * tens && forall i :: 0 <= i < 10 * tens ==> PairAt(s, i, i / 10, i % 10)
  }

  lemma PairBehind(s: string, row: string, j: nat, tens: nat, units: nat)
    requires |s| % 2 == 0 && PairAt(row, j, tens, units)
    ensures PairAt(s + row, |s| / 2 + j, tens, units)
  {
  }

  lemma TableGrows(s: string, row: string, tens: nat)
    requires Table(s, tens) && Tenfold(row, tens)
    ensures Table(s + row, tens + 1)
  {
    forall i | 0 <= i < 10 * (tens + 1) ensures PairAt(s + row, i, i / 10, i % 10) {
      if i < 10 * tens {
        assert PairAt(s, i, i / 10, i % 10);
      } else {
        var j := i - 10 * tens;
        assert i / 10 == tens && i % 10 == j;
        assert PairAt(row, j, tens, j);
        PairBehind(s, row, j, tens, j);
      }
    }
  }

  lemma Tenfolds0()
    ensures Tenfold(TENS0, 0) && Tenfold(TENS1, 1) && Tenfold(TENS2, 2) && Tenfold(TENS3, 3) && Tenfold(TENS4, 4)
  {
    TenfoldIs(TENS0, '0', 0);
    TenfoldIs(TENS1, '1', 1);
    TenfoldIs(TENS2, '2', 2);
    TenfoldIs(TENS3, '3', 3);
    TenfoldIs(TENS4, '4', 4);
  }

  lemma Tenfolds5()
    ensures Tenfold(TENS5, 5) && Tenfold(TENS6, 6) && Tenfold(TENS7, 7) && Tenfold(TENS8, 8) && Tenfold(TENS9, 9)
  {
    TenfoldIs(TENS5, '5', 5);
    TenfoldIs(TENS6, '6', 6);
    TenfoldIs(TENS7, '7', 7);
    TenfoldIs(TENS8, '8', 8);
    TenfoldIs(TENS9, '9', 9);
  }

  lemma TablesGrow(s: string, tens: nat, a: string, b: string, c: string, d: string, e: string)
    requires Table(s, tens)
    requires Tenfold(a, tens) && Tenfold(b, tens + 1) && Tenfold(c, tens + 2) && Tenfold(d, tens + 3) &&
        Tenfold(e, tens + 4)
    ensures Table(s + a + b + c + d + e, tens + 5)
  {
    TableGrows(s, a, tens);
    TableGrows(s + a, b, tens + 1);
    TableGrows(s + a + b, c, tens + 2);
    TableGrows(s + a + b + c, d, tens + 3);
    TableGrows(s + a + b + c + d, e, tens + 4);
  }

  lemma WholeTable()
    ensures Table(DIGITS, 10)
  {
    Tenfolds0();
    Tenfolds5();
    TablesGrow("", 0, TENS0, TENS1, TENS2, TENS3, TENS4);
    assert "" + TENS0 == TENS0;
    TablesGrow(TENS0 + TENS1 + TENS2 + TENS3 + TENS4, 5, TENS5, TENS6, TENS7, TENS8, TENS9);
  }

  lemma PairIs(s: string, i: nat)
    requires Table(s, 10) && i < 100
    ensures |s| == 200 && s[2 * i] == DigitChar(i / 10) && s[2 * i + 1] == DigitChar(i % 10)
  {
    assert PairAt(s, i, i / 10, i % 10);
  }

  /** The table of pairs holds each number below a hundred in two digits. */
  lemma Pairs(i: nat)
    requires i < 100
    ensures |DIGITS| == 200 && DIGITS[2 * i] == DigitChar(i / 10) && DIGITS[2 * i + 1] == DigitChar(i % 10)
  {
    WholeTable();
    PairIs(DIGITS, i);
  }

  lemma TwoDigits(i: nat)
    requires i < 100
    ensures Decimal(i, 2) == [DigitChar(i / 10), DigitChar(i % 10)]
  {
    assert Decimal(i, 2) == Decimal(i / 10, 1) + [DigitChar(i % 10)];
    assert Decimal(i / 10, 1) == Decimal(i / 100, 0) + [DigitChar(i / 10 % 10)];
  }

  // memcpy of two characters from the table
  method LookUp(i: nat) returns (tens: char, units: char)
    requires i < 100
    ensures [tens, units] == Decimal(i, 2)
    ensures tens == DigitChar(i / 10) && units == DigitChar(i % 10)
  {
    Pairs(i);
    TwoDigits(i);
    tens, units := DIGITS[2 * i], DIGITS[2 * i + 1];
  }

  // Digits and values --------------------------------------------------------------------------

  lemma {:induction false} DecimalDigits(u: nat, k: nat)
    ensures forall c :: c in Decimal(u, k) ==> IsDigit(c)
  {
    if k > 0 { DecimalDigits(u / 10, k - 1); }
  }

  lemma {:induction false} ValueDecimal(u: nat, k: nat)
    requires u < Pow10(k)
    ensures (forall c :: c in Decimal(u, k) ==> IsDigit(c)) && Value(Decimal(u, k)) == u
  {
    DecimalDigits(u, k);
    if k > 0 {
      ValueDecimal(u / 10, k - 1);
      assert Decimal(u, k)[..k - 1] == Decimal(u / 10, k - 1);
    }
  }

  // The first k digits and the last j are those of the quotient and the remainder.
  lemma {:induction false} DecimalSplit(u: nat, k: nat, j: nat)
    ensures Decimal(u, k + j) == Decimal(High(u, j), k) + Decimal(Low(u, j), j)
    decreases j
  {
    if j == 0 {
      assert Decimal(u, k + 0) == Decimal(u / 1, k) + "";
    } else {
      var p := Pow10(j - 1);
      DecimalSplit(u / 10, k, j - 1);
      CutAt(u, 10, p);
      assert Decimal(u, k + j) == Decimal(u / 10, k + j - 1) + [DigitChar(u % 10)];
      assert Decimal(Low(u, j), j) == Decimal(Low(u, j) / 10, j - 1) + [DigitChar(Low(u, j) % 10)];
    }
  }

  lemma Euclid(u: nat, d: nat)
    requires d > 0
    ensures u == d * (u / d) + u % d
  {
  }

  lemma DivUnique(u: nat, d: nat, q: int, r: nat)
    requires u == d * q + r && r < d
    ensures u / d == q && u % d == r
  {
    var k := u / d - q;
    assert d * k == r - u % d;
    assert k >= 1 ==> d * k >= d;
    assert k <= -1 ==> d * -k >= d;
  }

  lemma QuotientBelow(u: nat, p: nat, c: nat)
    requires p > 0 && u < p * c
    ensures u / p < c
  {
    Euclid(u, p);
    var q := u / p;
    assert q >= c ==> p * q >= p * c;
  }

  lemma Regroup(p: nat, q: nat, c: nat, d: nat, b: nat)
    ensures p * (q * c + d) + b == (p * q) * c + (p * d + b)
  {
  }

  lemma Below(p: nat, q: nat, d: nat, b: nat)
    requires d < q && b < p
    ensures p * d + b < p * q
  {
    assert p * (d + 1) <= p * q;
  }

  // A quotient and a remainder by p * q, cut at p.
  lemma CutAt(u: nat, p: nat, q: nat)
    requires p > 0 && q > 0 && p * q > 0
    ensures u % (p * q) / p == u / p % q
    ensures u % (p * q) % p == u % p
    ensures u / (p * q) == u / p / q
  {
    var a, b := u / p, u % p;
    var c, d := a / q, a % q;
    Euclid(u, p);
    Euclid(a, q);
    Regroup(p, q, c, d, b);
    Below(p, q, d, b);
    DivUnique(u, p * q, c, p * d + b);
    DivUnique(p * d + b, p, d, b);
  }

  lemma {:induction false} PowProduct(a: nat, b: nat)
    ensures Pow10(a + b) == Pow10(a) * Pow10(b)
  {
    if a > 0 { PowProduct(a - 1, b); }
  }

  // The digits above the j lowest and the j lowest, cut out of the m lowest.
  lemma Cut(u: nat, m: nat, j: nat)
    requires j <= m
    ensures High(Low(u, m), j) == Low(High(u, j), m - j)
    ensures Low(Low(u, m), j) == Low(u, j)
    ensures High(u, m) == High(High(u, j), m - j)
  {
    PowProduct(j, m - j);
    CutAt(u, Pow10(j), Pow10(m - j));
  }

  // The digits above the m lowest, followed by the next j.
  lemma Extend(u: nat, i: nat, m: nat, j: nat)
    requires j <= m
    ensures Decimal(High(u, m - j), i + j) == Decimal(High(u, m), i) + Decimal(Low(High(u, m - j), j), j)
  {
    Cut(u, m, m - j);
    DecimalSplit(High(u, m - j), i, j);
  }

  lemma {:induction false} CountBounds(n: nat)
    ensures n < Pow10(DigitCount(n))
    ensures n > 0 ==> n >= Pow10(DigitCount(n) - 1)
  {
    if n >= 10 { CountBounds(n / 10); }
  }

  lemma {:induction false} PowMono(a: nat, b: nat)
    requires a <= b
    ensures Pow10(a) <= Pow10(b)
    decreases b - a
  {
    if a < b { PowMono(a, b - 1); }
  }

  /** A number lies between two powers of ten for one digit count only. */
  lemma CountUnique(n: nat, k: nat)
    requires k > 0 && n < Pow10(k) && (n >= Pow10(k - 1) || k == 1)
    ensures DigitCount(n) == k
  {
    CountBounds(n);
    var c := DigitCount(n);
    if c < k { PowMono(c, k - 1); }
    if c > k { PowMono(k, c - 1); }
  }
}
