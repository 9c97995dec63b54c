// fmt's integer writers and the integer parser.
module IntegerText {
  import opened Digits

  const INT_MAX := 0x7FFF_FFFF

  // The digits of a number, without leading zeros.
  function Digits10(u: nat): (s: string)
    ensures |s| == DigitCount(u)
  {
    Decimal(u, DigitCount(u))
  }

  // A text of digits with sep between groups of three, counted from the right.
  function Grouped(s: string, sep: string): string {
    if |s| <= 3 then s else Grouped(s[..|s| - 3], sep) + sep + s[|s| - 3..]
  }

  lemma {:induction false} GroupedLength(s: string, sep: string)
    ensures |Grouped(s, sep)| == |s| + if s == "" then 0 else (|s| - 1) / 3 * |sep|
  {
    if |s| > 3 {
      GroupedLength(s[..|s| - 3], sep);
      var n := (|s| - 4) / 3;
      assert (|s| - 1) / 3 == n + 1;
      assert (n + 1) * |sep| == n * |sep| + |sep|;
    }
  }

  lemma {:induction false} GroupedPlain(s: string)
    ensures Grouped(s, "") == s
  {
    if |s| > 3 { GroupedPlain(s[..|s| - 3]); }
  }

  // What the functor puts in front of the k-th digit.
  function Separator(k: nat, sep: string): string {
    if k % 3 == 0 then sep else ""
  }

  // What format_decimal has written, from the right, once it has written k digits of u and called the
  // separator after each.
  function Written(u: nat, k: nat, sep: string): string {
    if k == 0 then ""
    else Separator(k, sep) + [DigitChar(High(u, k - 1) % 10)] + Written(u, k - 1, sep)
  }

  // Digits above the third one, with the separator the three low ones leave.
  lemma {:induction false} WrittenAbove(u: nat, k: nat, sep: string)
    ensures Written(u, k + 3, sep) == Written(High(u, 3), k, sep) + sep + Decimal(Low(u, 3), 3)
  {
    if k == 0 {
      LowThree(u, sep);
    } else {
      WrittenAbove(u, k - 1, sep);
      SameDigit(u, k - 1, sep);
      OneMoreAbove(Separator(k, sep), [DigitChar(High(High(u, 3), k - 1) % 10)], Written(High(u, 3), k - 1, sep), sep,
                   Decimal(Low(u, 3), 3));
    }
  }

  lemma SameDigit(u: nat, k: nat, sep: string)
    ensures High(u, k + 3) == High(High(u, 3), k) && Separator(k + 4, sep) == Separator(k + 1, sep)
  {
    Cut(u, k + 3, 3);
  }

  lemma OneMoreAbove(s: string, d: string, w: string, sep: string, low: string)
    ensures s + d + (w + sep + low) == s + d + w + sep + low
  {
  }

  lemma ModHundreds(v: nat, l: nat)
    requires l < 1000
    ensures (1000 * v + l) / 100 % 10 == l / 100 % 10
  {
    assert (1000 * v + l) / 100 == 10 * v + l / 100;
  }

  lemma ModTens(v: nat, l: nat)
    ensures (1000 * v + l) / 10 % 10 == l / 10 % 10
  {
    assert (1000 * v + l) / 10 == 100 * v + l / 10;
    TenTimes(10 * v, l / 10);
  }

  lemma TenTimes(a: nat, b: nat)
    ensures (10 * a + b) % 10 == b % 10
  {
  }

  lemma Mods(u: nat)
    ensures u % 1000 / 100 % 10 == u / 100 % 10 && u % 1000 / 10 % 10 == u / 10 % 10 && u % 1000 % 10 == u % 10
  {
    ModHundreds(u / 1000, u % 1000);
    ModTens(u / 1000, u % 1000);
    TenTimes(100 * (u / 1000), u % 1000);
  }

  // The first three calls of the separator, of which only the last writes it.
  lemma LowThree(u: nat, sep: string)
    ensures Written(u, 1, sep) == [DigitChar(u % 10)]
    ensures Written(u, 2, sep) == [DigitChar(u / 10 % 10), DigitChar(u % 10)]
    ensures Written(u, 3, sep) == sep + Decimal(Low(u, 3), 3)
  {
    assert Pow10(1) == 10 && Pow10(2) == 100 && Pow10(3) == 1000;
    assert High(u, 0) == u && High(u, 1) == u / 10 && High(u, 2) == u / 100;
    Three(u % 1000);
    Mods(u);
    assert Written(u, 1, sep) == [DigitChar(u % 10)];
    assert Written(u, 2, sep) == [DigitChar(u / 10 % 10)] + Written(u, 1, sep);
    assert Written(u, 3, sep) == sep + [DigitChar(u / 100 % 10)] + Written(u, 2, sep);
  }

  lemma LastOf(l: nat, k: nat)
    requires k > 0
    ensures Decimal(l, k) == Decimal(l / 10, k - 1) + [DigitChar(l % 10)]
  {
  }

  lemma Two(l: nat)
    ensures Decimal(l, 1) == [DigitChar(l % 10)]
    ensures Decimal(l, 2) == [DigitChar(l / 10 % 10), DigitChar(l % 10)]
  {
    LastOf(l, 1);
    LastOf(l / 10, 1);
    LastOf(l, 2);
  }

  lemma Three(l: nat)
    ensures Decimal(l, 1) == [DigitChar(l % 10)]
    ensures Decimal(l, 2) == [DigitChar(l / 10 % 10), DigitChar(l % 10)]
    ensures Decimal(l, 3) == [DigitChar(l / 100 % 10), DigitChar(l / 10 % 10), DigitChar(l % 10)]
  {
    Two(l);
    Two(l / 10);
    LastOf(l, 3);
    assert l / 10 / 10 == l / 100;
  }

  lemma WrittenFew(u: nat, k: nat, sep: string)
    requires k < 3
    ensures [DigitChar(High(u, k) % 10)] + Written(u, k, sep) == Decimal(u, k + 1)
  {
    LowThree(u, sep);
    Three(u);
    assert Pow10(0) == 1 && Pow10(1) == 10 && Pow10(2) == 100;
  }

  /** The last digit, which no separator follows, completes the grouped text. */
  lemma {:induction false} WrittenAll(u: nat, k: nat, sep: string)
    ensures [DigitChar(High(u, k) % 10)] + Written(u, k, sep) == Grouped(Decimal(u, k + 1), sep)
    decreases k, 1
  {
    if k < 3 {
      WrittenFew(u, k, sep);
    } else {
      WrittenMany(u, k, sep);
    }
  }

  // Above the three low digits it is the same with the rest of the number.
  lemma WrittenSplit(u: nat, k: nat, sep: string)
    requires k >= 3
    ensures Written(u, k, sep) == Written(High(u, 3), k - 3, sep) + sep + Decimal(Low(u, 3), 3)
    ensures Decimal(u, k + 1) == Decimal(High(u, 3), k - 2) + Decimal(Low(u, 3), 3)
    ensures High(u, k) == High(High(u, 3), k - 3)
  {
    WrittenAbove(u, k - 3, sep);
    DecimalSplit(u, k - 2, 3);
    Cut(u, k, 3);
  }

  lemma {:induction false} WrittenMany(u: nat, k: nat, sep: string)
    requires k >= 3
    ensures [DigitChar(High(u, k) % 10)] + Written(u, k, sep) == Grouped(Decimal(u, k + 1), sep)
    decreases k, 0
  {
    var h, low := High(u, 3), Decimal(Low(u, 3), 3);
    WrittenSplit(u, k, sep);
    WrittenAll(h, k - 3, sep);
    Together([DigitChar(High(h, k - 3) % 10)], Written(h, k - 3, sep), Decimal(h, k - 2), low, sep);
  }

  lemma Together(d: string, w: string, top: string, low: string, sep: string)
    requires d + w == Grouped(top, sep) && |top| > 0 && |low| == 3
    ensures d + (w + sep + low) == Grouped(top + low, sep)
  {
    GroupedAbove(top, low, sep);
    Associate(d, w, sep, low);
  }

  lemma GroupedAbove(s: string, low: string, sep: string)
    requires |s| > 0 && |low| == 3
    ensures Grouped(s + low, sep) == Grouped(s, sep) + sep + low
  {
    assert (s + low)[..|s|] == s && (s + low)[|s|..] == low;
  }

  lemma Associate(a: string, b: string, c: string, d: string)
    ensures a + (b + (c + d)) == a + b + c + d
    ensures a + (b + c + d) == a + b + c + d
  {
  }

  // Writers ------------------------------------------------------------------------------------

  // The functor called after each digit but the leading one.
  class ThousandsSep {
    const sep: string
    var digitIndex: nat

    constructor (s: string)
      ensures sep == s && digitIndex == 0
    {
      sep, digitIndex := s, 0;
    }

    // Counts a digit, and writes the separator in front of every third one.
    method Call(buffer: array<char>, pos: nat) returns (next: nat)
      requires |Separator(digitIndex + 1, sep)| <= pos <= buffer.Length
      modifies this, buffer
      ensures digitIndex == old(digitIndex) + 1
      ensures next == pos - |Separator(digitIndex, sep)|
      ensures buffer[next..] == Separator(digitIndex, sep) + old(buffer[pos..])
      ensures buffer[..next] == old(buffer[..next])
    {
      digitIndex := digitIndex + 1;
      next := pos;
      if digitIndex % 3 != 0 {
        return;
      }
      next := pos - |sep|;
      var i := 0;
      while i < |sep|
        modifies buffer
        invariant 0 <= i <= |sep|
        invariant buffer[next..next + i] == sep[..i]
        invariant buffer[pos..] == old(buffer[pos..]) && buffer[..next] == old(buffer[..next])
      {
        buffer[next + i] := sep[i];
        i := i + 1;
      }
      assert buffer[next..] == buffer[next..pos] + buffer[pos..];
    }
  }

  lemma {:induction false} WrittenLength(u: nat, k: nat, sep: string)
    ensures |Written(u, k, sep)| == k + k / 3 * |sep|
  {
    if k > 0 {
      WrittenLength(u, k - 1, sep);
      Thirds(k, |sep|);
    }
  }

  lemma Thirds(k: nat, n: nat)
    requires k > 0
    ensures k / 3 * n == (k - 1) / 3 * n + if k % 3 == 0 then n else 0
  {
    var t := (k - 1) / 3;
    assert k / 3 == if k % 3 == 0 then t + 1 else t;
    assert (t + 1) * n == t * n + n;
  }

  // There is room for the first k digits and one more.
  lemma {:induction false} WrittenFits(u: nat, k: nat, all: nat, sep: string)
    requires k < all
    ensures |Written(u, k, sep)| < |Grouped(Decimal(u, all), sep)|
    decreases all - k
  {
    if k == all - 1 {
      WrittenAll(u, k, sep);
    } else {
      WrittenFits(u, k + 1, all, sep);
    }
  }

  lemma HighStep(u: nat, k: nat)
    ensures High(u, k + 1) == High(u, k) / 10
  {
    CutAt(u, Pow10(k), 10);
  }

  lemma CountTwo(v: nat)
    ensures v >= 100 ==> DigitCount(v) == 2 + DigitCount(v / 100)
  {
    assert v >= 100 ==> DigitCount(v) == 1 + DigitCount(v / 10) && v / 10 / 10 == v / 100;
  }

  // The k low digits of u are written from pos to end, where `after` begins.
  ghost predicate Shape(buffer: array<char>, pos: nat, end: nat, u: nat, k: nat, sep: string, after: string)
    reads buffer
  {
    ShapeOf(buffer[..], pos, end, u, k, sep, after)
  }

  ghost predicate ShapeOf(b: string, pos: nat, end: nat, u: nat, k: nat, sep: string, after: string) {
    pos + |Written(u, k, sep)| == end && end + |after| == |b| && b[pos..] == Written(u, k, sep) + after
  }

  // What the next digit, and the separator behind it, add.
  lemma WrittenNext(u: nat, k: nat, sep: string, digit: char, after: string)
    requires DigitChar(High(u, k) % 10) == digit
    ensures Written(u, k + 1, sep) + after == Separator(k + 1, sep) + ([digit] + (Written(u, k, sep) + after))
    ensures |Written(u, k + 1, sep)| == |Separator(k + 1, sep)| + 1 + |Written(u, k, sep)|
  {
    Associate(Separator(k + 1, sep), [digit], Written(u, k, sep), after);
  }

  lemma ShapeGrows(a: string, b: string, pos: nat, next: nat, end: nat,
                   u: nat, k: nat, sep: string, digit: char, after: string)
    requires ShapeOf(a, pos, end, u, k, sep, after) && DigitChar(High(u, k) % 10) == digit
    requires |b| == |a| && next + |Separator(k + 1, sep)| + 1 == pos &&
        b[next..] == Separator(k + 1, sep) + ([digit] + a[pos..])
    ensures ShapeOf(b, next, end, u, k + 1, sep, after)
  {
    WrittenNext(u, k, sep, digit, after);
  }

  lemma SameStart(a: string, b: string, c: string, pos: nat, next: nat)
    requires next < pos <= |a| == |b| == |c| && b[..pos - 1] == a[..pos - 1] && c[..next] == b[..next]
    ensures c[..next] == a[..next]
  {
    assert b[..pos - 1][..next] == a[..pos - 1][..next];
  }

  method PutChar(buffer: array<char>, pos: nat, c: char)
    requires 0 < pos <= buffer.Length
    modifies buffer
    ensures buffer[pos - 1..] == [c] + old(buffer[pos..]) && buffer[..pos - 1] == old(buffer[..pos - 1])
  {
    buffer[pos - 1] := c;
  }

  // Writes the next digit of u, from the right, and calls the separator.
  method Put(buffer: array<char>, pos: nat, thousands: ThousandsSep, digit: char,
             ghost u: nat, ghost end: nat, ghost after: string)
    returns (next: nat)
    requires DigitChar(High(u, thousands.digitIndex) % 10) == digit
    requires Shape(buffer, pos, end, u, thousands.digitIndex, thousands.sep, after)
    requires |Written(u, thousands.digitIndex + 1, thousands.sep)| <= end
    modifies buffer, thousands
    ensures thousands.digitIndex == old(thousands.digitIndex) + 1
    ensures Shape(buffer, next, end, u, thousands.digitIndex, thousands.sep, after)
    ensures next <= pos && buffer[..next] == old(buffer[..next])
  {
    ghost var was := buffer[..];
    WrittenNext(u, thousands.digitIndex, thousands.sep, digit, after);
    PutChar(buffer, pos, digit);
    ghost var mid := buffer[..];
    next := thousands.Call(buffer, pos - 1);
    SameStart(was, mid, buffer[..], pos, next);
    ShapeGrows(was, buffer[..], pos, next, end, u, old(thousands.digitIndex), thousands.sep, digit, after);
  }

  // Room from start on for the digits of u that are not yet written, which rest holds.
  ghost predicate Left(start: nat, end: nat, rest: nat, u: nat, k: nat, sep: string) {
    rest == High(u, k) && DigitCount(u) == k + DigitCount(rest) && end - start == |Grouped(Digits10(u), sep)|
  }

  lemma PairDigits(u: nat, k: nat, rest: nat)
    requires rest == High(u, k)
    ensures rest % 100 % 10 == High(u, k) % 10 && rest % 100 / 10 == High(u, k + 1) % 10 && rest / 100 == High(u, k + 2)
  {
    HighStep(u, k);
    HighStep(u, k + 1);
    Hundred(rest);
  }

  lemma Hundred(v: nat)
    ensures v % 100 % 10 == v % 10 && v % 100 / 10 == v / 10 % 10 && v / 100 == v / 10 / 10
    ensures v < 100 ==> v / 10 == v / 10 % 10
    ensures v < 100 ==> DigitCount(v) == if v < 10 then 1 else 2
  {
    var a, b, c := v / 100, v / 10 % 10, v % 10;
    assert v == 100 * a + 10 * b + c;
    assert v % 100 == 10 * b + c;
    if 10 <= v < 100 { assert DigitCount(v) == 1 + DigitCount(v / 10); }
  }

  // Two more digits can be written, and there is room for them.
  lemma PairReady(u: nat, k: nat, rest: nat, tens: char, units: char, start: nat, end: nat, sep: string)
    requires rest >= 100 && Left(start, end, rest, u, k, sep)
    requires tens == DigitChar(rest % 100 / 10) && units == DigitChar(rest % 100 % 10)
    ensures DigitChar(High(u, k) % 10) == units && DigitChar(High(u, k + 1) % 10) == tens
    ensures Left(start, end, rest / 100, u, k + 2, sep)
    ensures |Written(u, k + 1, sep)| <= end && |Written(u, k + 2, sep)| <= end - start
  {
    CountTwo(rest);
    PairDigits(u, k, rest);
    WrittenFits(u, k + 1, DigitCount(u), sep);
    WrittenFits(u, k + 2, DigitCount(u), sep);
  }

  method PutPair(buffer: array<char>, start: nat, pos: nat, rest: nat, thousands: ThousandsSep,
                 ghost u: nat, ghost end: nat, ghost after: string)
    returns (next: nat)
    requires rest >= 100 && Left(start, end, rest, u, thousands.digitIndex, thousands.sep)
    requires Shape(buffer, pos, end, u, thousands.digitIndex, thousands.sep, after)
    modifies buffer, thousands
    ensures thousands.digitIndex == old(thousands.digitIndex) + 2
    ensures Left(start, end, rest / 100, u, thousands.digitIndex, thousands.sep)
    ensures Shape(buffer, next, end, u, thousands.digitIndex, thousands.sep, after)
    ensures buffer[..start] == old(buffer[..start])
  {
    ghost var k, sep := thousands.digitIndex, thousands.sep;
    var tens, units := LookUp(rest % 100);
    PairReady(u, k, rest, tens, units, start, end, sep);
    ghost var was := buffer[..];
    next := PutTwo(buffer, pos, thousands, units, tens, u, end, after);
    Earlier(was, buffer[..], next, start);
  }

  lemma Earlier(a: string, b: string, next: nat, start: nat)
    requires start <= next <= |a| == |b| && a[..next] == b[..next]
    ensures a[..start] == b[..start]
  {
    assert a[..next][..start] == b[..next][..start];
  }

  method PutTwo(buffer: array<char>, pos: nat, thousands: ThousandsSep, first: char, second: char,
                ghost u: nat, ghost end: nat, ghost after: string)
    returns (next: nat)
    requires DigitChar(High(u, thousands.digitIndex) % 10) == first
    requires DigitChar(High(u, thousands.digitIndex + 1) % 10) == second
    requires Shape(buffer, pos, end, u, thousands.digitIndex, thousands.sep, after)
    requires |Written(u, thousands.digitIndex + 1, thousands.sep)| <= end
    requires |Written(u, thousands.digitIndex + 2, thousands.sep)| <= end
    modifies buffer, thousands
    ensures thousands.digitIndex == old(thousands.digitIndex) + 2
    ensures Shape(buffer, next, end, u, thousands.digitIndex, thousands.sep, after)
    ensures next <= pos && buffer[..next] == old(buffer[..next])
  {
    ghost var was := buffer[..];
    next := Put(buffer, pos, thousands, first, u, end, after);
    ghost var mid, middle := buffer[..], next;
    next := Put(buffer, next, thousands, second, u, end, after);
    Earlier(was, mid, middle, next);
  }

  // The last two digits can be written, and there is room for them.
  lemma LastReady(u: nat, k: nat, rest: nat, tens: char, units: char, start: nat, end: nat, sep: string)
    requires 10 <= rest < 100 && Left(start, end, rest, u, k, sep)
    requires tens == DigitChar(rest / 10) && units == DigitChar(rest % 10)
    ensures DigitChar(High(u, k) % 10) == units && DigitChar(High(u, k + 1) % 10) == tens
    ensures DigitCount(u) == k + 2 && |Written(u, k + 1, sep)| <= end
  {
    Hundred(rest);
    PairDigits(u, k, rest);
    WrittenFits(u, k + 1, k + 2, sep);
  }

  // One or two digits are left; no separator follows the last.
  method PutLast(buffer: array<char>, start: nat, pos: nat, rest: nat, thousands: ThousandsSep,
                 ghost u: nat, ghost end: nat, ghost after: string)
    requires rest < 100 && Left(start, end, rest, u, thousands.digitIndex, thousands.sep)
    requires Shape(buffer, pos, end, u, thousands.digitIndex, thousands.sep, after)
    modifies buffer, thousands
    ensures buffer[start..] == Grouped(Digits10(u), thousands.sep) + after
    ensures buffer[..start] == old(buffer[..start])
  {
    ghost var k, sep := thousands.digitIndex, thousands.sep;
    Hundred(rest);
    if rest < 10 {
      PutLeading(buffer, start, pos, DigitChar(rest), sep, u, k, end, after);
    } else {
      var tens, units := LookUp(rest);
      LastReady(u, k, rest, tens, units, start, end, sep);
      var next := Put(buffer, pos, thousands, units, u, end, after);
      ghost var mid := buffer[..next];
      PutLeading(buffer, start, next, tens, sep, u, k + 1, end, after);
      assert mid[..start] == old(buffer[..start]);
    }
  }

  method PutLeading(buffer: array<char>, start: nat, pos: nat, digit: char, ghost sep: string,
                    ghost u: nat, ghost k: nat, ghost end: nat, ghost after: string)
    requires DigitChar(High(u, k) % 10) == digit && DigitCount(u) == k + 1
    requires Shape(buffer, pos, end, u, k, sep, after) && end - start == |Grouped(Digits10(u), sep)|
    modifies buffer
    ensures start == pos - 1 && buffer[start..] == Grouped(Digits10(u), sep) + after
    ensures buffer[..start] == old(buffer[..start])
  {
    WrittenAll(u, k, sep);
    PutChar(buffer, pos, digit);
  }

  lemma TextThenRest(b: string, start: nat, text: string, after: string)
    requires start <= |b| && b[start..] == text + after
    ensures start + |text| <= |b| && b[start..start + |text|] == text && b[start + |text|..] == after
  {
    assert b[start..start + |text|] == b[start..][..|text|] && b[start + |text|..] == b[start..][|text|..];
  }

  /** Fills exactly numDigits cells with the digits of value, in groups of three. */
  method FormatDecimal(buffer: array<char>, start: nat, value: nat, numDigits: nat, thousands: ThousandsSep)
    returns (end: nat)
    requires thousands.digitIndex == 0 && start + numDigits <= buffer.Length
    requires numDigits == |Grouped(Digits10(value), thousands.sep)|
    modifies buffer, thousands
    ensures end == start + numDigits
    ensures buffer[start..end] == Grouped(Digits10(value), thousands.sep)
    ensures buffer[..start] == old(buffer[..start]) && buffer[end..] == old(buffer[end..])
  {
    end := start + numDigits;
    ghost var after, sep := buffer[end..], thousands.sep;
    var pos, rest := end, value;
    assert buffer[pos..] == Written(value, 0, sep) + after;
    assert High(value, 0) == value;
    while rest >= 100
      invariant Left(start, end, rest, value, thousands.digitIndex, sep)
      invariant Shape(buffer, pos, end, value, thousands.digitIndex, sep, after)
      invariant buffer[..start] == old(buffer[..start])
      decreases rest
    {
      pos := PutPair(buffer, start, pos, rest, thousands, value, end, after);
      rest := rest / 100;
    }
    PutLast(buffer, start, pos, rest, thousands, value, end, after);
    TextThenRest(buffer[..], start, Grouped(Digits10(value), sep), after);
  }

  // format_int -----------------------------------------------------------------------------------

  function Signed(x: int): string {
    if x < 0 then "-" + Digits10(-x) else Digits10(x)
  }

  lemma CountAtMost(u: nat, k: nat)
    requires k > 0 && u < Pow10(k)
    ensures DigitCount(u) <= k
  {
    CountBounds(u);
    if DigitCount(u) > k { PowMono(k, DigitCount(u) - 1); }
  }

  class FormatInt {
    const buffer: array<char>
    var start: nat

    /** Holds the decimal text of any value of a signed 64-bit type. */
    constructor (value: int)
      requires -0x8000_0000_0000_0000 <= value < 0x8000_0000_0000_0000
      ensures start <= 21 < buffer.Length && buffer[start..21] == Signed(value)
    {
      buffer := new char[22];
      start := 0;
      new;
      start := FormatSigned(buffer, value);
    }

    /** Holds the decimal text of any value of an unsigned 64-bit type. */
    constructor Unsigned(value: nat)
      requires value < 0x1_0000_0000_0000_0000
      ensures start <= 21 < buffer.Length && buffer[start..21] == Digits10(value)
    {
      buffer := new char[22];
      start := 0;
      new;
      start := FormatBackward(buffer, value);
    }
  }

  // Conversion to unsigned, and subtraction from zero, give the magnitude.
  function AbsValue(value: int): (m: nat)
    requires -0x8000_0000_0000_0000 <= value < 0x8000_0000_0000_0000
    ensures m == if value < 0 then -value else value
  {
    var absValue := value % 0x1_0000_0000_0000_0000;
    if value < 0 then (0 - absValue) % 0x1_0000_0000_0000_0000 else absValue
  }

  method PutMinus(buffer: array<char>, start: nat, end: nat)
    requires 0 < start <= end <= buffer.Length
    modifies buffer
    ensures buffer[start - 1..end] == ['-'] + old(buffer[start..end])
  {
    buffer[start - 1] := '-';
  }

  method FormatSigned(buffer: array<char>, value: int) returns (start: nat)
    requires -0x8000_0000_0000_0000 <= value < 0x8000_0000_0000_0000 && buffer.Length == 22
    modifies buffer
    ensures start <= 21 && buffer[start..21] == Signed(value)
  {
    start := FormatBackward(buffer, AbsValue(value));
    if value < 0 {
      PutMinus(buffer, start, 21);
      start := start - 1;
    }
  }

  lemma TwentyDigits()
    ensures Pow10(20) == 100000000000000000000
  {
    assert Pow10(4) == 10000;
    PowProduct(4, 4);
    PowProduct(8, 8);
    PowProduct(16, 4);
  }

  // Two digits from the table.
  method PutPairPlain(buffer: array<char>, pos: nat, index: nat, ghost u: nat, ghost k: nat, ghost end: nat,
      ghost after: string)
    requires pos > 1 && Shape(buffer, pos, end, u, k, "", after)
    requires index < 100 && index % 10 == High(u, k) % 10 && index / 10 == High(u, k + 1) % 10
    modifies buffer
    ensures Shape(buffer, pos - 2, end, u, k + 2, "", after)
  {
    var tens, units := LookUp(index);
    PutPlain(buffer, pos, units, u, k, end, after);
    PutPlain(buffer, pos - 1, tens, u, k + 1, end, after);
  }

  method PutLastPlain(buffer: array<char>, pos: nat, rest: nat, ghost u: nat, ghost k: nat, ghost end: nat,
      ghost after: string)
    returns (next: nat)
    requires pos > 1 && Shape(buffer, pos, end, u, k, "", after)
    requires rest < 100 && rest == High(u, k) && DigitCount(u) == k + DigitCount(rest)
    modifies buffer
    ensures next == pos - DigitCount(rest) && Shape(buffer, next, end, u, DigitCount(u), "", after)
  {
    Hundred(rest);
    if rest < 10 {
      PutPlain(buffer, pos, DigitChar(rest), u, k, end, after);
      next := pos - 1;
    } else {
      PairDigits(u, k, rest);
      PutPairPlain(buffer, pos, rest, u, k, end, after);
      next := pos - 2;
    }
  }

  // Writes value so that it ends one cell before the end of the buffer.
  method FormatBackward(buffer: array<char>, value: nat) returns (ptr: nat)
    requires value < 0x1_0000_0000_0000_0000 && buffer.Length == 22
    modifies buffer
    ensures 1 <= ptr <= 21 && buffer[ptr..21] == Digits10(value)
  {
    TwentyDigits();
    CountAtMost(value, 20);
    var rest := value;
    ptr := 21;
    ghost var k, after := 0, buffer[21..];
    assert High(value, 0) == value;
    while rest >= 100
      invariant rest == High(value, k) && DigitCount(value) == k + DigitCount(rest)
      invariant Shape(buffer, ptr, 21, value, k, "", after) && ptr == 21 - k
      decreases rest
    {
      CountTwo(rest);
      PairDigits(value, k, rest);
      PutPairPlain(buffer, ptr, rest % 100, value, k, 21, after);
      rest, ptr, k := rest / 100, ptr - 2, k + 2;
    }
    ptr := PutLastPlain(buffer, ptr, rest, value, k, 21, after);
    WrittenPlain(value);
    TextThenRest(buffer[..], ptr, Digits10(value), after);
  }

  method PutPlain(buffer: array<char>, pos: nat, digit: char, ghost u: nat, ghost k: nat, ghost end: nat,
      ghost after: string)
    requires pos > 0 && Shape(buffer, pos, end, u, k, "", after) && DigitChar(High(u, k) % 10) == digit
    modifies buffer
    ensures Shape(buffer, pos - 1, end, u, k + 1, "", after)
  {
    PutChar(buffer, pos, digit);
    Associate([digit], Written(u, k, ""), after, "");
    assert Written(u, k + 1, "") == [digit] + Written(u, k, "");
  }

  lemma WrittenPlain(u: nat)
    ensures Written(u, DigitCount(u), "") == Digits10(u)
  {
    var k := DigitCount(u) - 1;
    WrittenAll(u, k, "");
    GroupedPlain(Digits10(u));
    assert Written(u, k + 1, "") == [DigitChar(High(u, k) % 10)] + Written(u, k, "");
  }

  // parse_nonnegative_int -----------------------------------------------------------------------

  // Where the digits from i on end.
  function RunEnd(s: string, i: nat): (e: nat)
    requires i <= |s|
    ensures i <= e <= |s| && (forall k :: i <= k < e ==> IsDigit(s[k])) && (e < |s| ==> !IsDigit(s[e]))
    decreases |s| - i
  {
    if i < |s| && IsDigit(s[i]) then RunEnd(s, i + 1) else i
  }

  ghost predicate AllDigits(s: string) {
    forall c :: c in s ==> IsDigit(c)
  }

  lemma OneMore(s: string, i: nat, j: nat)
    requires i <= j < |s| && IsDigit(s[j]) && AllDigits(s[i..j + 1])
    ensures AllDigits(s[i..j]) && Value(s[i..j + 1]) == 10 * Value(s[i..j]) + (s[j] - '0') as nat
  {
    assert s[i..j + 1][..j - i] == s[i..j];
    assert forall c :: c in s[i..j] ==> c in s[i..j + 1];
  }

  lemma {:induction false} ValueGrows(s: string, i: nat, j: nat, e: nat)
    requires i <= j <= e <= |s| && AllDigits(s[i..e])
    ensures AllDigits(s[i..j]) && Value(s[i..j]) <= Value(s[i..e])
    decreases e - j
  {
    if j < e {
      assert s[e - 1] in s[i..e];
      OneMore(s, i, e - 1);
      ValueGrows(s, i, j, e - 1);
    }
  }

  /** The number the whole run of digits denotes, or an error exactly when it is above INT_MAX.
      No step leaves the range of a 32-bit unsigned int. */
  method ParseNonnegativeInt(s: string, begin: nat) returns (next: nat, value: nat, error: bool)
    requires begin < |s| && IsDigit(s[begin])
    ensures AllDigits(s[begin..RunEnd(s, begin)])
    ensures error <==> Value(s[begin..RunEnd(s, begin)]) > INT_MAX
    ensures !error ==> value == Value(s[begin..RunEnd(s, begin)]) && next == RunEnd(s, begin)
    ensures begin <= next <= RunEnd(s, begin)
  {
    ghost var e := RunEnd(s, begin);
    assert AllDigits(s[begin..e]);
    value, next := 0, begin;
    var big := INT_MAX / 10;
    while true
      invariant begin <= next < e && AllDigits(s[begin..next]) && value == Value(s[begin..next])
      invariant value < 0x1_0000_0000
      decreases e - next
    {
      ValueGrows(s, begin, next + 1, e);
      OneMore(s, begin, next);
      if value > big {
        value := INT_MAX + 1;
        break;
      }
      value := value * 10 + (s[next] - '0') as nat;
      assert value < 0x1_0000_0000;
      next := next + 1;
      if !(next != |s| && IsDigit(s[next])) {
        break;
      }
    }
    error := value > INT_MAX;
  }

  /** The parser reads back what the writer writes, and stops at the first character behind it. */
  lemma {:induction false} WriteRead(v: nat, rest: string)
    requires rest == "" || !IsDigit(rest[0])
    ensures var s := Digits10(v) + rest;
      && IsDigit(s[0]) && RunEnd(s, 0) == DigitCount(v)
      && AllDigits(s[0..DigitCount(v)]) && Value(s[0..DigitCount(v)]) == v
  {
    var s, k := Digits10(v) + rest, DigitCount(v);
    CountBounds(v);
    ValueDecimal(v, k);
    assert s[0..k] == Digits10(v);
    assert forall i :: 0 <= i < k ==> s[i] == Digits10(v)[i] && Digits10(v)[i] in Digits10(v);
    EndOfRun(s, 0, k);
  }

  lemma {:induction false} EndOfRun(s: string, i: nat, e: nat)
    requires i <= e <= |s| && (forall k :: i <= k < e ==> IsDigit(s[k])) && (e < |s| ==> !IsDigit(s[e]))
    ensures RunEnd(s, i) == e
    decreases e - i
  {
    if i < e { EndOfRun(s, i + 1, e); }
  }

  // Signed numbers -------------------------------------------------------------------------------

  // A text of digits with a leading zero denotes less than its length allows.
  lemma {:induction false} LeadingZero(s: string)
    requires s != "" && AllDigits(s) && s[0] == '0'
    ensures Value(s) < Pow10(|s| - 1)
  {
    if |s| > 1 {
      var front := s[..|s| - 1];
      assert AllDigits(front) && front[0] == '0';
      LeadingZero(front);
      assert IsDigit(s[|s| - 1]);
    }
  }

  // The digits of a number denote it, and are as few as can be.
  ghost predicate ShortestFor(s: string, v: nat) {
    s != "" && AllDigits(s) && Value(s) == v && (|s| > 1 ==> s[0] != '0')
  }

  lemma Digits10Shortest(v: nat)
    ensures ShortestFor(Digits10(v), v)
  {
    var s := Digits10(v);
    CountBounds(v);
    ValueDecimal(v, DigitCount(v));
    if |s| > 1 && s[0] == '0' { LeadingZero(s); }
  }

  /** A negative number is written as a minus sign and the digits of its magnitude, any other as its digits,
      without leading zeros. */
  lemma SignedValue(x: int)
    ensures x < 0 ==> Signed(x) != "" && Signed(x)[0] == '-' && ShortestFor(Signed(x)[1..], -x)
    ensures x >= 0 ==> ShortestFor(Signed(x), x)
  {
    if x < 0 {
      Digits10Shortest(-x);
      assert Signed(x)[1..] == Digits10(-x);
    } else {
      Digits10Shortest(x);
    }
  }
}
