// fmt's count_digits: from the bit length through a table, and by division.
module DigitCounting {
  import opened Digits
  import opened FixedPointItoa

  // 64 - clz(n)
  function BitLength(n: nat): nat {
    if n == 0 then 0 else 1 + BitLength(n / 2)
  }

  // ZERO_OR_POWERS_OF_10
  function ZeroOrPower(t: nat): nat {
    if t == 0 then 0 else Pow10(t)
  }

  // n | 1
  function OrOne(n: nat): nat {
    if n % 2 == 0 then n + 1 else n
  }

  function Estimate(bits: nat): nat {
    bits * 1233 / 4096
  }

  function CountDigits(n: nat): int {
    var t := Estimate(BitLength(OrOne(n)));
    t - (if n < ZeroOrPower(t) then 1 else 0) + 1
  }

  lemma {:induction false} LengthBounds(n: nat)
    ensures n < Pow2(BitLength(n))
    ensures n > 0 ==> BitLength(n) > 0 && Pow2(BitLength(n) - 1) <= n
  {
    if n > 0 { LengthBounds(n / 2); }
  }

  lemma {:induction false} Pow2Mono(a: nat, b: nat)
    requires a <= b
    ensures Pow2(a) <= Pow2(b)
    decreases b - a
  {
    if a < b { Pow2Mono(a, b - 1); }
  }

  // The greatest bit length below the first one whose estimate is k.
  function Step(k: nat): nat
    requires k > 0
  {
    (4096 * k + 1232) / 1233 - 1
  }

  lemma SmallPowers()
    ensures Pow2(3) == 8 && Pow2(6) == 64 && Pow2(9) == 512 && Pow2(13) == 0x2000 && Pow2(16) == 0x1_0000
    ensures Pow2(19) == 0x8_0000 && Pow2(23) == 0x80_0000 && Pow2(26) == 0x400_0000 && Pow2(29) == 0x2000_0000
    ensures Pow2(33) == 0x2_0000_0000 && Pow2(36) == 0x10_0000_0000 && Pow2(39) == 0x80_0000_0000
  {
    Powers();
    PowSum(3, 3);
    PowSum(6, 3);
    PowSum(3, 13);
    PowSum(26, 3);
    PowSum(33, 3);
    PowSum(36, 3);
  }

  lemma LargePowers()
    ensures Pow2(43) == 0x800_0000_0000 && Pow2(46) == 0x4000_0000_0000 && Pow2(49) == 0x2_0000_0000_0000
    ensures Pow2(53) == 0x20_0000_0000_0000 && Pow2(56) == 0x100_0000_0000_0000 && Pow2(59) == 0x800_0000_0000_0000
    ensures Pow2(63) == 0x8000_0000_0000_0000 && Pow2(64) == 0x1_0000_0000_0000_0000
  {
    SmallPowers();
    PowSum(33, 13);
    PowSum(43, 6);
    PowSum(43, 3);
    PowSum(46, 3);
    PowSum(13, 43);
    PowSum(43, 16);
    PowSum(26, 33);
    PowSum(33, 26);
    PowSum(30, 33);
    PowSum(36, 23);
    PowSum(33, 10);
  }

  lemma LargeTens()
    ensures Pow10(11) == 100000000000 && Pow10(12) == 1000000000000 && Pow10(13) == 10000000000000
    ensures Pow10(14) == 100000000000000 && Pow10(15) == 1000000000000000 && Pow10(16) == 10000000000000000
    ensures Pow10(17) == 100000000000000000 && Pow10(18) == 1000000000000000000
    ensures Pow10(19) == 10000000000000000000 && Pow10(20) == 100000000000000000000
  {
    Tens();
  }

  // The estimate steps up to k where the power of two has passed the previous power of ten.
  ghost predicate StepFits(k: nat) {
    k > 0 && Pow10(k - 1) <= Pow2(Step(k)) <= Pow10(k)
  }

  lemma StepFitsAt(k: nat, bits: nat, two: nat, ten: nat)
    requires k > 0 && Step(k) == bits && Pow2(bits) == two && Pow10(k - 1) == ten && ten <= two <= 10 * ten
    ensures StepFits(k)
  {
  }

  lemma Steps0()
    ensures StepFits(1) && StepFits(2) && StepFits(3) && StepFits(4) && StepFits(5) && StepFits(6) && StepFits(7)
  {
    SmallPowers();
    Tens();
    Powers();
    StepFitsAt(1, 3, 0x8, 1);
    StepFitsAt(2, 6, 0x40, 10);
    StepFitsAt(3, 9, 0x200, 100);
    StepFitsAt(4, 13, 0x2000, 1000);
    StepFitsAt(5, 16, 0x10000, 10000);
    StepFitsAt(6, 19, 0x80000, 100000);
    StepFitsAt(7, 23, 0x800000, 1000000);
  }

  lemma Steps1()
    ensures StepFits(8) && StepFits(9) && StepFits(10) && StepFits(11) && StepFits(12)
  {
    SmallPowers();
    Tens();
    Powers();
    LargeTens();
    StepFitsAt(8, 26, 0x4000000, 10000000);
    StepFitsAt(9, 29, 0x20000000, 100000000);
    StepFitsAt(10, 33, 0x200000000, 1000000000);
    StepFitsAt(11, 36, 0x1000000000, 10000000000);
    StepFitsAt(12, 39, 0x8000000000, 100000000000);
  }

  lemma Steps2()
    ensures StepFits(13) && StepFits(14) && StepFits(15) && StepFits(16)
  {
    LargePowers();
    LargeTens();
    StepFitsAt(13, 43, 0x80000000000, 1000000000000);
    StepFitsAt(14, 46, 0x400000000000, 10000000000000);
    StepFitsAt(15, 49, 0x2000000000000, 100000000000000);
    StepFitsAt(16, 53, 0x20000000000000, 1000000000000000);
  }

  lemma Steps3()
    ensures StepFits(17) && StepFits(18) && StepFits(19)
  {
    LargePowers();
    LargeTens();
    StepFitsAt(17, 56, 0x100000000000000, 10000000000000000);
    StepFitsAt(18, 59, 0x800000000000000, 100000000000000000);
    StepFitsAt(19, 63, 0x8000000000000000, 1000000000000000000);
  }

  lemma StepsFit(k: nat)
    requires 1 <= k <= 19
    ensures StepFits(k)
  {
    if k <= 7 {
      LowSteps(k);
    } else if k <= 12 {
      MiddleSteps(k);
    } else if k <= 16 {
      UpperSteps(k);
    } else {
      TopSteps(k);
    }
  }

  lemma LowSteps(k: nat)
    requires 1 <= k <= 7
    ensures StepFits(k)
  {
    Steps0();
    assert k == 1 || k == 2 || k == 3 || k == 4 || k == 5 || k == 6 || k == 7;
  }

  lemma MiddleSteps(k: nat)
    requires 8 <= k <= 12
    ensures StepFits(k)
  {
    Steps1();
    assert k == 8 || k == 9 || k == 10 || k == 11 || k == 12;
  }

  lemma UpperSteps(k: nat)
    requires 13 <= k <= 16
    ensures StepFits(k)
  {
    Steps2();
    assert k == 13 || k == 14 || k == 15 || k == 16;
  }

  lemma TopSteps(k: nat)
    requires 17 <= k <= 19
    ensures StepFits(k)
  {
    Steps3();
    assert k == 17 || k == 18 || k == 19;
  }

  lemma StepOfEstimate(bits: nat)
    requires bits > 0
    ensures Estimate(bits) > 0 ==> Step(Estimate(bits)) <= bits - 1
    ensures bits <= Step(Estimate(bits) + 1)
    ensures bits <= 64 ==> Estimate(bits) <= 19
  {
  }

  // Numbers of a given bit length have as many digits as the estimate, or one more.
  lemma EstimateFits(bits: nat)
    requires 1 <= bits <= 64
    ensures var t := Estimate(bits);
      t <= 19 && (t > 0 ==> Pow10(t - 1) <= Pow2(bits - 1)) && Pow2(bits) <= Pow10(t + 1)
  {
    var t := Estimate(bits);
    StepOfEstimate(bits);
    if t > 0 {
      StepsFit(t);
      Pow2Mono(Step(t), bits - 1);
    }
    if t < 19 {
      StepsFit(t + 1);
      Pow2Mono(bits, Step(t + 1));
    } else {
      TopFits();
      Pow2Mono(bits, 64);
    }
  }

  lemma TopFits()
    ensures Pow2(64) == 0x1_0000_0000_0000_0000 && Pow2(64) <= Pow10(20)
  {
    LargePowers();
    LargeTens();
  }

  /** The table method counts the digits of every 64-bit number. */
  lemma CountIsExact(n: nat)
    requires n < 0x1_0000_0000_0000_0000
    ensures CountDigits(n) == DigitCount(n)
  {
    var bits := BitLength(OrOne(n));
    LengthBounds(OrOne(n));
    TopFits();
    if bits > 64 { Pow2Mono(64, bits - 1); }
    EstimateCounts(n, bits);
  }

  lemma EstimateCounts(n: nat, bits: nat)
    requires 1 <= bits <= 64 && Pow2(bits - 1) <= OrOne(n) < Pow2(bits) && bits == BitLength(OrOne(n))
    ensures CountDigits(n) == DigitCount(n)
  {
    var t := Estimate(bits);
    EstimateFits(bits);
    if t > 0 { EvenPower(t); }
    TableCounts(n, t);
  }

  // With t the number of digits or one less, the table tells which.
  lemma TableCounts(n: nat, t: nat)
    requires OrOne(n) < Pow10(t + 1) && (t > 0 ==> Pow10(t - 1) <= OrOne(n) && Pow10(t) % 2 == 0)
    ensures t - (if n < ZeroOrPower(t) then 1 else 0) + 1 == DigitCount(n)
  {
    if t > 1 { EvenPower(t - 1); }
    CountUnique(n, t - (if n < ZeroOrPower(t) then 1 else 0) + 1);
  }

  // A power of ten above one is even, so that n | 1 reaches it only if n does.
  lemma EvenPower(k: nat)
    ensures k > 0 ==> Pow10(k) % 2 == 0
  {
  }

  lemma CountFour(n: nat)
    ensures n < 10 ==> DigitCount(n) == 1
    ensures 10 <= n < 100 ==> DigitCount(n) == 2
    ensures 100 <= n < 1000 ==> DigitCount(n) == 3
    ensures 1000 <= n < 10000 ==> DigitCount(n) == 4
    ensures n >= 10000 ==> DigitCount(n) == 4 + DigitCount(n / 10000)
  {
    var a := n / 10;
    var b := a / 10;
    var c := b / 10;
    assert n >= 10 ==> DigitCount(n) == 1 + DigitCount(a);
    assert a >= 10 ==> DigitCount(a) == 1 + DigitCount(b);
    assert b >= 10 ==> DigitCount(b) == 1 + DigitCount(c);
    assert c >= 10 ==> DigitCount(c) == 1 + DigitCount(c / 10) && c / 10 == n / 10000;
  }

  /** The fallback, which divides by ten thousand, counts the same. */
  method CountByDivision(n: nat) returns (count: nat)
    ensures count == DigitCount(n)
  {
    count := 1;
    var rest := n;
    while true
      invariant DigitCount(n) == count - 1 + DigitCount(rest) && count > 0
      decreases rest
    {
      CountFour(rest);
      if rest < 10 { return count; }
      if rest < 100 { return count + 1; }
      if rest < 1000 { return count + 2; }
      if rest < 10000 { return count + 3; }
      rest := rest / 10000;
      count := count + 4;
    }
  }
}
