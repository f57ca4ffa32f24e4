/**
 Printing integers: i2a generates the digits backwards and reverses them in place, u2a prints a
 32-bit word as eight hexadecimal digits.
 */
module Printf {
  const NUL := '\0'

  predicate IsBase(base: int) {
    2 <= base <= 36
  }

  function Digit(m: int): char
    requires 0 <= m < 36
  {
    if m < 10 then ('0' as int + m) as char else ('A' as int + m - 10) as char
  }

  /** What a digit stands for; -1 for any other character. */
  function DigitValue(c: char): int {
    if '0' <= c <= '9' then c as int - '0' as int
    else if 'A' <= c <= 'Z' then c as int - 'A' as int + 10
    else -1
  }

  lemma DigitRoundTrip(m: int)
    requires 0 <= m < 36
    ensures Digit(m) == "0123456789ABCDEFGHIJKLMNOPQRSTUVWXYZ"[m]
    ensures DigitValue(Digit(m)) == m && Digit(m) != NUL
  {
  }

  predicate IsNumeral(s: seq<char>, base: int) {
    forall i :: 0 <= i < |s| ==> 0 <= DigitValue(s[i]) < base
  }

  /** The number a string of digits stands for. */
  function Value(s: seq<char>, base: nat): int {
    if s == [] then 0 else Value(s[..|s| - 1], base) * base + DigitValue(s[|s| - 1])
  }

  /** How often base goes into v. */
  function Quotient(v: nat, base: nat): (q: nat)
    requires base >= 2
    ensures 2 * q <= v && (q > 0 <==> v >= base)
  {
    if v < base then 0 else 1 + Quotient(v - base, base)
  }

  function Rest(v: nat, base: nat): (r: nat)
    requires base >= 2
    ensures r < base && r <= v
  {
    if v < base then v else Rest(v - base, base)
  }

  lemma {:induction false} QuotientAndRest(v: nat, base: nat)
    requires base >= 2
    ensures v == Quotient(v, base) * base + Rest(v, base)
  {
    if v >= base {
      QuotientAndRest(v - base, base);
      assert (1 + Quotient(v - base, base)) * base == base + Quotient(v - base, base) * base;
    }
  }

  /** They are determined by that equation. */
  lemma {:induction false} QuotientIs(q: nat, base: nat, r: nat)
    requires base >= 2 && r < base
    ensures q * base + r >= 0 && Quotient(q * base + r, base) == q && Rest(q * base + r, base) == r
  {
    if q > 0 {
      QuotientIs(q - 1, base, r);
      assert q * base + r - base == (q - 1) * base + r;
      assert (q - 1) * base >= 0;
    }
  }

  lemma Apart(k: int, base: int)
    requires base >= 0
    ensures k > 0 ==> k * base >= base
    ensures k < 0 ==> k * base <= -base
  {
  }

  lemma DivisionIs(v: int, base: nat, p: int, m: int, q: int, r: int)
    requires v == p * base + m && v == q * base + r && 0 <= m < base && 0 <= r < base
    ensures p == q && m == r
  {
    Apart(p - q, base);
    assert (p - q) * base == r - m;
  }

  lemma NativeDivision(v: nat, base: nat)
    requires base > 0
    ensures v == v / base * base + v % base && 0 <= v % base < base
  {
  }

  lemma DivisionIsQuotient(v: nat, base: nat)
    requires base >= 2
    ensures v / base == Quotient(v, base) && v % base == Rest(v, base)
  {
    NativeDivision(v, base);
    QuotientAndRest(v, base);
    DivisionIs(v, base, v / base, v % base, Quotient(v, base), Rest(v, base));
  }

  /** The numeral of val, without leading zeros. */
  function Numeral(val: nat, base: int): seq<char>
    requires IsBase(base)
  {
    if val < base then [Digit(val)]
    else Numeral(Quotient(val, base), base) + [Digit(Rest(val, base))]
  }

  lemma ValueOfMore(s: seq<char>, c: char, base: nat)
    ensures Value(s + [c], base) == Value(s, base) * base + DigitValue(c)
  {
    assert (s + [c])[..|s|] == s;
  }

  lemma MoreDigits(s: seq<char>, m: nat, base: int)
    requires IsBase(base) && IsNumeral(s, base) && NUL !in s && m < base
    ensures var t := s + [Digit(m)]; IsNumeral(t, base) && NUL !in t && Value(t, base) == Value(s, base) * base + m
  {
    DigitRoundTrip(m);
    ValueOfMore(s, Digit(m), base);
  }

  /** A numeral is made of digits, has no leading zero, and stands for its number. */
  lemma {:induction false} NumeralRoundTrip(val: nat, base: int)
    requires IsBase(base)
    ensures var s := Numeral(val, base);
            && IsNumeral(s, base) && NUL !in s && s != [] && (s[0] == '0' <==> val == 0)
            && Value(s, base) == val
  {
    if val < base {
      assert [] + [Digit(val)] == [Digit(val)];
      MoreDigits([], val, base);
    } else {
      QuotientAndRest(val, base);
      NumeralRoundTrip(Quotient(val, base), base);
      MoreDigits(Numeral(Quotient(val, base), base), Rest(val, base), base);
    }
  }

  /** No other string of digits without leading zeros stands for that number. */
  lemma {:induction false} NumeralIsCanonical(s: seq<char>, base: int)
    requires IsBase(base) && IsNumeral(s, base) && s != [] && (s[0] == '0' ==> |s| == 1)
    ensures Value(s, base) >= 0 && s == Numeral(Value(s, base), base)
  {
    var n := |s| - 1;
    var front, last := s[..n], DigitValue(s[n]);
    assert Digit(last) == s[n];
    if n == 0 {
      assert Value(s, base) == Value([], base) * base + last;
    } else {
      NumeralIsCanonical(front, base);
      var v := Value(front, base);
      NumeralRoundTrip(v, base);
      QuotientIs(v, base, last);
    }
  }

  function Pow2(k: nat): nat {
    if k == 0 then 1 else 2 * Pow2(k - 1)
  }

  /** The numeral of a number below 2^k has at most k digits, whatever the base. */
  lemma {:induction false} NumeralIsShort(val: nat, base: int, k: nat)
    requires IsBase(base) && k > 0 && val < Pow2(k)
    ensures |Numeral(val, base)| <= k
  {
    if val >= base {
      assert k > 1;
      NumeralIsShort(Quotient(val, base), base, k - 1);
    }
  }

  function Reversed(s: seq<char>): (r: seq<char>)
    ensures |r| == |s|
  {
    seq(|s|, i requires 0 <= i < |s| => s[|s| - 1 - i])
  }

  // ---------------------------------------------------------------- i2a

  /** s stands at position at of the buffer, ended by a NUL, and nothing before or behind it has changed. */
  ghost predicate Printed(before: seq<char>, after: seq<char>, at: nat, s: seq<char>) {
    && at + |s| < |before| == |after| && after[at..at + |s|] == s && after[at + |s|] == NUL
    && forall k :: 0 <= k < |before| && !(at <= k <= at + |s|) ==> after[k] == before[k]
  }

  /** The character that the code makes of a remainder, which for a negative number is negative too. */
  function Mark(m: int): char
    requires -36 < m < 36
  {
    if m < 0 then ('0' as int + m) as char else Digit(m)
  }

  /** What comes of -val: in the place of each digit, the character as far below '0' as the digit is above it. */
  function Shadow(val: nat, base: int): seq<char>
    requires IsBase(base)
  {
    if val < base then [Mark(0 - val)]
    else Shadow(Quotient(val, base), base) + [Mark(0 - Rest(val, base))]
  }

  /** What i2a prints. */
  function Text(val: int, base: int): seq<char>
    requires IsBase(base)
  {
    if val < 0 then Shadow(-val, base) else Numeral(val, base)
  }

  /** i2a; its caller has taken the sign off where there is a number without it. */
  method I2A(val: int, base: int, buf: array<char>, at: nat)
    requires IsBase(base) && at + |Text(val, base)| < buf.Length
    modifies buf
    ensures Printed(old(buf[..]), buf[..], at, Text(val, base))
  {
    if val == 0 {
      buf[at] := '0';
      buf[at + 1] := NUL;
      return;
    }
    var end := Generate(val, base, buf, at);
    buf[end] := NUL;
    Reverse(buf, at, end);
    assert buf[..][at..end] == buf[at..end];
  }

  /** What is left to generate; nothing at 0. */
  function Front(v: int, base: int): seq<char>
    requires IsBase(base)
  {
    if v == 0 then [] else Text(v, base)
  }

  /** C's division, towards zero. */
  function QuotientOf(v: int, base: int): int
    requires IsBase(base)
  {
    if v < 0 then 0 - Quotient(-v, base) else Quotient(v, base)
  }

  function RestOf(v: int, base: int): (r: int)
    requires IsBase(base)
    ensures -36 < r < 36
  {
    if v < 0 then 0 - Rest(-v, base) else Rest(v, base)
  }

  /** The machine's division. */
  method Divide(v: int, base: int) returns (q: int, r: int)
    requires IsBase(base)
    ensures q == QuotientOf(v, base) && r == RestOf(v, base)
  {
    if v < 0 {
      DivisionIsQuotient(-v, base);
      q, r := -(-v / base), -(-v % base);
    } else {
      DivisionIsQuotient(v, base);
      q, r := v / base, v % base;
    }
  }

  lemma FrontShrinks(v: int, base: int)
    requires IsBase(base) && v != 0
    ensures Front(v, base) == Front(QuotientOf(v, base), base) + [Mark(RestOf(v, base))]
  {
  }

  lemma ReversedMore(s: seq<char>, c: char)
    ensures Reversed(s + [c]) == [c] + Reversed(s)
  {
  }

  /** The digit loop: the digits from the last to the first. */
  method Generate(val: int, base: int, buf: array<char>, at: nat) returns (p: nat)
    requires IsBase(base) && val != 0 && at + |Text(val, base)| < buf.Length
    modifies buf
    ensures p == at + |Text(val, base)|
    ensures Reversed(buf[at..p]) == Text(val, base)
    ensures forall k :: 0 <= k < buf.Length && !(at <= k < p) ==> buf[k] == old(buf[k])
  {
    p := at;
    var v := val;
    while v != 0
      invariant at <= p <= buf.Length
      invariant Front(v, base) + Reversed(buf[at..p]) == Text(val, base)
      invariant forall k :: 0 <= k < buf.Length && !(at <= k < p) ==> buf[k] == old(buf[k])
      decreases if v < 0 then -v else v
    {
      v := Emit(v, base, buf, at, p, Text(val, base));
      p := p + 1;
    }
  }

  /** The body of that loop: one digit. */
  method Emit(v: int, base: int, buf: array<char>, at: nat, p: nat, ghost whole: seq<char>) returns (q: int)
    requires IsBase(base) && v != 0 && at <= p < buf.Length
    requires Front(v, base) + Reversed(buf[at..p]) == whole
    modifies buf
    ensures (if q < 0 then -q else q) < (if v < 0 then -v else v) && Front(q, base) + Reversed(buf[at..p + 1]) == whole
    ensures forall k :: 0 <= k < buf.Length && k != p ==> buf[k] == old(buf[k])
  {
    FrontShrinks(v, base);
    var m;
    q, m := Divide(v, base);
    ghost var s := buf[at..p];
    ReversedMore(s, Mark(m));
    assert Front(q, base) + ([Mark(m)] + Reversed(s)) == Front(v, base) + Reversed(s);
    buf[p] := Mark(m);
    assert buf[at..p + 1] == s + [Mark(m)];
  }

  lemma MirrorIsReversed(was: seq<char>, now: seq<char>, at: nat, end: nat)
    requires at <= end <= |was| == |now|
    requires forall k :: at <= k < end ==> now[k] == was[at + end - 1 - k]
    ensures now[at..end] == Reversed(was[at..end])
  {
  }

  /** The reversal loop, with two indices that move towards each other. */
  method Reverse(buf: array<char>, at: nat, end: nat)
    requires at <= end <= buf.Length
    modifies buf
    ensures buf[at..end] == Reversed(old(buf[at..end]))
    ensures forall k :: 0 <= k < buf.Length && !(at <= k < end) ==> buf[k] == old(buf[k])
  {
    ghost var was := buf[..];
    var i, j := at, end - 1;
    while i < j
      invariant at <= i && i + j == at + end - 1 && i <= j + 2
      invariant forall k :: at <= k < end && (k < i || j < k) ==> buf[k] == was[at + end - 1 - k]
      invariant forall k :: 0 <= k < buf.Length && !(at <= k < end && (k < i || j < k)) ==> buf[k] == was[k]
    {
      buf[i], buf[j] := buf[j], buf[i];
      i, j := i + 1, j - 1;
    }
    MirrorIsReversed(was, buf[..], at, end);
    assert was[at..end] == old(buf[at..end]) && buf[..][at..end] == buf[at..end];
  }

  // ---------------------------------------------------------------- signed numbers

  function Signed(val: int): seq<char> {
    if val < 0 then ['-'] + Numeral(-val, 10) else Numeral(val, 10)
  }

  function SignedValue(s: seq<char>): int {
    if s != [] && s[0] == '-' then -Value(s[1..], 10) else Value(s, 10)
  }

  lemma SignedRoundTrip(val: int)
    ensures SignedValue(Signed(val)) == val && NUL !in Signed(val)
  {
    if val < 0 {
      NumeralRoundTrip(-val, 10);
      assert Signed(val)[1..] == Numeral(-val, 10);
    } else {
      NumeralRoundTrip(val, 10);
      assert DigitValue('-') == -1;
    }
  }

  lemma PrintedBehind(before: seq<char>, middle: seq<char>, after: seq<char>, at: nat, c: char, s: seq<char>)
    requires at < |before| && middle == before[at := c] && Printed(middle, after, at + 1, s)
    ensures Printed(before, after, at, [c] + s)
  {
    assert after[at] == c;
    assert after[at..at + 1 + |s|] == [c] + after[at + 1..at + 1 + |s|];
  }

  const LEAST_INT := -0x8000_0000

  /** What %d prints: the least int is its own negation, and keeps its sign for i2a. */
  function Decimal(val: int): seq<char> {
    if val == LEAST_INT then ['-'] + Text(val, 10) else Signed(val)
  }

  /** The conversion %d. */
  method PrintDecimal(val: int, buf: array<char>, at: nat)
    requires LEAST_INT <= val < 0x8000_0000 && at + |Decimal(val)| < buf.Length
    modifies buf
    ensures Printed(old(buf[..]), buf[..], at, Decimal(val))
  {
    if val < 0 {
      var m := if val == LEAST_INT then val else -val;
      buf[at] := '-';
      ghost var middle := buf[..];
      I2A(m, 10, buf, at + 1);
      PrintedBehind(old(buf[..]), middle, buf[..], at, '-', Text(m, 10));
    } else {
      I2A(val, 10, buf, at);
    }
  }

  /** No shadow stands for a positive number. */
  lemma {:induction false} ShadowStandsForNothing(val: nat, base: int)
    requires IsBase(base)
    ensures Value(Shadow(val, base), base) <= 0
  {
    if val < base {
      assert [] + [Mark(0 - val)] == [Mark(0 - val)];
      StillNothing([], val, base);
    } else {
      ShadowStandsForNothing(Quotient(val, base), base);
      StillNothing(Shadow(Quotient(val, base), base), Rest(val, base), base);
    }
  }

  lemma StillNothing(s: seq<char>, m: nat, base: int)
    requires IsBase(base) && Value(s, base) <= 0 && m < base
    ensures Value(s + [Mark(0 - m)], base) <= 0
  {
    ValueOfMore(s, Mark(0 - m), base);
    MarkStandsForNothing(m);
    NotPositive(Value(s, base), base);
  }

  lemma NotPositive(x: int, y: int)
    requires x <= 0 <= y
    ensures x * y <= 0
  {
  }

  lemma MarkStandsForNothing(m: nat)
    requires m < 36
    ensures DigitValue(Mark(0 - m)) <= 0
  {
  }

  /** What %d prints stands for the number exactly if that is not the least int. */
  lemma DecimalReadsBack(val: int)
    requires LEAST_INT <= val < 0x8000_0000
    ensures SignedValue(Decimal(val)) == val <==> val != LEAST_INT
  {
    if val == LEAST_INT {
      ShadowStandsForNothing(-val, 10);
      assert Decimal(val)[1..] == Shadow(-val, 10);
    } else {
      SignedRoundTrip(val);
    }
  }

  // ---------------------------------------------------------------- u2a

  /** val >> 4 * i. */
  function Nibbles(val: nat, i: nat): nat {
    if i == 0 then val else Nibbles(val, i - 1) / 16
  }

  function Pow16(n: nat): nat {
    if n == 0 then 1 else 16 * Pow16(n - 1)
  }

  /** The n last hexadecimal digits of val. */
  function Hex(val: nat, n: nat): (s: seq<char>)
    ensures |s| == n
  {
    if n == 0 then [] else Hex(val / 16, n - 1) + [Digit(val % 16)]
  }

  lemma {:induction false} NibblesOfRest(val: nat, i: nat)
    ensures Nibbles(val, i + 1) == Nibbles(val / 16, i)
  {
    if i > 0 {
      NibblesOfRest(val, i - 1);
    }
  }

  lemma {:induction false} HexDigit(val: nat, n: nat, k: nat)
    requires k < n
    ensures Hex(val, n)[k] == Digit(Nibbles(val, n - 1 - k) % 16)
  {
    if k < n - 1 {
      HexDigit(val / 16, n - 1, k);
      NibblesOfRest(val, n - 2 - k);
    }
  }

  /** The digits stand for the number, if it has no more of them; no two such numbers look alike. */
  lemma {:induction false} HexRoundTrip(val: nat, n: nat)
    requires val < Pow16(n)
    ensures IsNumeral(Hex(val, n), 16) && NUL !in Hex(val, n) && Value(Hex(val, n), 16) == val
  {
    if n > 0 {
      HexRoundTrip(val / 16, n - 1);
      MoreDigits(Hex(val / 16, n - 1), val % 16, 16);
    }
  }

  lemma WordHasEightDigits()
    ensures Pow16(8) == 0x1_0000_0000
  {
    assert Pow16(2) == 0x100;
    assert Pow16(4) == 0x1_0000;
    assert Pow16(6) == 0x100_0000;
  }

  lemma HexStands(s: seq<char>, at: nat, hex: seq<char>)
    requires at + 10 <= |s| && |hex| == 8 && s[at] == '0' && s[at + 1] == 'x'
    requires forall k :: at + 2 <= k < at + 10 ==> s[k] == hex[k - at - 2]
    ensures s[at + 2..at + 10] == hex && s[at..at + 10] == ['0', 'x'] + hex
  {
    assert s[at + 2..at + 10] == hex;
    assert s[at..at + 10] == [s[at], s[at + 1]] + s[at + 2..at + 10];
  }

  /** u2a: 0x and exactly eight digits. */
  method U2A(val: nat, buf: array<char>, at: nat)
    requires val < 0x1_0000_0000 && at + 10 < buf.Length
    modifies buf
    ensures Printed(old(buf[..]), buf[..], at, ['0', 'x'] + Hex(val, 8))
    ensures Value(buf[at + 2..at + 10], 16) == val
  {
    buf[at], buf[at + 1] := '0', 'x';
    var p := at + 2;
    var i := 7;
    ghost var hex := Hex(val, 8);
    while i >= 0
      invariant -1 <= i <= 7 && p == at + 9 - i
      invariant buf[at] == '0' && buf[at + 1] == 'x'
      invariant forall k :: at + 2 <= k < p ==> buf[k] == hex[k - at - 2]
      invariant forall k :: 0 <= k < buf.Length && !(at <= k < p) ==> buf[k] == old(buf[k])
    {
      HexDigit(val, 8, 7 - i);
      buf[p] := Digit(Nibbles(val, i) % 16);
      p := p + 1;
      i := i - 1;
    }
    buf[p] := NUL;
    WordHasEightDigits();
    HexRoundTrip(val, 8);
    HexStands(buf[..], at, hex);
    assert buf[..][at + 2..at + 10] == buf[at + 2..at + 10];
  }
}
