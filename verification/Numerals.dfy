/** `convert` and `convertHex`: digits by truncating division into a char array, then reversal in place. */
module Numerals {

  /** C++ integer division and remainder truncate toward zero (section 5.6 of ISO/IEC 14882:2011). */
  function TruncDiv(a: int, b: int): (q: int)
    requires b > 0
    ensures a >= 0 ==> 0 <= q * b <= a < q * b + b
    ensures a <= 0 ==> q * b - b < a <= q * b <= 0
  {
    if a >= 0 then a / b else -((-a) / b)
  }

  function TruncMod(a: int, b: int): int
    requires b > 0
  {
    a - TruncDiv(a, b) * b
  }

  function Abs(v: int): nat { if v < 0 then -v else v }

  // ---------------------------------------------------------------- specification

  const DECIMAL := "0123456789"
  const HEX := "0123456789ABCDEF"

  /** The mirrored table that `zero` points into the middle of. */
  const MIRRORED := "9876543210123456789"

  /** The numeral of `n` in the base whose digits are `table`. */
  function Numeral(n: nat, table: string): (s: string)
    requires |table| >= 2
    ensures s != []
  {
    if n < |table| then [table[n]]
    else Numeral(n / |table|, table) + [table[n % |table|]]
  }

  function DecimalText(v: int): string {
    if v < 0 then "-" + Numeral(-v, DECIMAL) else Numeral(v, DECIMAL)
  }

  function HexText(v: nat): string { Numeral(v, HEX) }

  /** What a digit stands for, in any base up to 16. */
  function ValueOf(c: char): int { if '0' <= c <= '9' then c as int - '0' as int else c as int - 'A' as int + 10 }

  function Shift(high: int, base: nat, digit: int): int { high * base + digit }

  /** Reading a numeral back, without any table. */
  function Read(s: string, base: nat): int {
    if s == [] then 0 else Shift(Read(s[..|s| - 1], base), base, ValueOf(s[|s| - 1]))
  }

  function ReadDecimal(s: string): int {
    if s != [] && s[0] == '-' then 0 - Read(s[1..], 10) else Read(s, 10)
  }

  // ---------------------------------------------------------------- round trip

  /** Every character of the table is the digit of its place. */
  predicate IsTable(table: string) { |table| >= 2 && forall i :: 0 <= i < |table| ==> ValueOf(table[i]) == i }

  lemma ShiftDivMod(n: nat, base: nat)
    requires base > 0
    ensures Shift(n / base, base, n % base) == n
  {
  }

  lemma ReadAppend(s: string, c: char, base: nat)
    ensures Read(s + [c], base) == Shift(Read(s, base), base, ValueOf(c))
  {
    assert (s + [c])[..|s|] == s;
  }

  lemma {:induction false} ReadNumeral(n: nat, table: string)
    requires IsTable(table)
    ensures Read(Numeral(n, table), |table|) == n
  {
    if n < |table| {
      ReadAppend([], table[n], |table|);
      assert [] + [table[n]] == Numeral(n, table);
    } else {
      ReadNumeral(n / |table|, table);
      ReadAppend(Numeral(n / |table|, table), table[n % |table|], |table|);
      ShiftDivMod(n, |table|);
    }
  }

  // ---------------------------------------------------------------- length and form

  function Pow(b: nat, k: nat): nat { if k == 0 then 1 else b * Pow(b, k - 1) }

  lemma MulMonotone(b: nat, x: int, y: int)
    requires x <= y
    ensures b * x <= b * y
  {
    assert b * (y - x) >= 0;
  }

  lemma {:induction false} PowPositive(b: nat, k: nat)
    requires b >= 1
    ensures Pow(b, k) >= 1
  {
    if k == 0 {
    } else {
      PowPositive(b, k - 1);
      MulMonotone(b, 1, Pow(b, k - 1));
    }
  }

  lemma DivBelow(n: nat, b: nat, p: nat)
    requires b > 0
    ensures n / b < p <==> n < b * p
  {
    if n / b < p {
      MulMonotone(b, n / b + 1, p);
    } else {
      MulMonotone(b, p, n / b);
    }
  }

  lemma PowBound(b: nat, k: nat)
    requires b >= 1 && k >= 1
    ensures b <= Pow(b, k)
  {
    PowPositive(b, k - 1);
    MulMonotone(b, 1, Pow(b, k - 1));
  }

  lemma PowOne(b: nat)
    ensures Pow(b, 1) == b
  {
    assert Pow(b, 0) == 1;
  }

  lemma OneDigit(n: nat, table: string, k: nat)
    requires |table| >= 2 && n < |table| && k >= 1
    ensures |Numeral(n, table)| <= k && n < Pow(|table|, k)
  {
    PowBound(|table|, k);
  }

  lemma OneDigitMore(n: nat, table: string, k: nat)
    requires |table| >= 2 && n >= |table| && k >= 2
    requires |Numeral(n / |table|, table)| <= k - 1 <==> n / |table| < Pow(|table|, k - 1)
    ensures |Numeral(n, table)| <= k <==> n < Pow(|table|, k)
  {
    DivBelow(n, |table|, Pow(|table|, k - 1));
    assert Pow(|table|, k) == |table| * Pow(|table|, k - 1);
  }

  /** A numeral has at most `k` digits exactly when the number is below base^k. */
  lemma {:induction false} NumeralLength(n: nat, table: string, k: nat)
    requires |table| >= 2 && k >= 1
    ensures |Numeral(n, table)| <= k <==> n < Pow(|table|, k)
    decreases k
  {
    if n < |table| {
      OneDigit(n, table, k);
    } else if k == 1 {
      PowOne(|table|);
    } else {
      NumeralLength(n / |table|, table, k - 1);
      OneDigitMore(n, table, k);
    }
  }

  lemma DivSmaller(n: nat, b: nat)
    requires 2 <= b <= n
    ensures 1 <= n / b < n
  {
    DivBelow(n, b, n);
    MulMonotone(n, 2, b);
  }

  /** Every character is a digit, and there is no superfluous zero in front. */
  lemma {:induction false} NumeralForm(n: nat, table: string)
    requires IsTable(table)
    ensures forall i :: 0 <= i < |Numeral(n, table)| ==> Numeral(n, table)[i] in table
    ensures Numeral(n, table)[0] == table[0] <==> n == 0
  {
    if n == 0 {
    } else if n < |table| {
      assert ValueOf(table[0]) != ValueOf(table[n]);
    } else {
      DivSmaller(n, |table|);
      NumeralForm(n / |table|, table);
    }
  }

  /** The formatted integers: 64 bits, signed or unsigned. */
  predicate IsInteger64(v: int) { -0x8000_0000_0000_0000 <= v < 0x1_0000_0000_0000_0000 }

  lemma DecimalBounds()
    ensures Pow(10, 19) == 10_000_000_000_000_000_000 && Pow(10, 20) == 100_000_000_000_000_000_000
  {
    assert Pow(10, 5) == 100000;
    assert Pow(10, 10) == 10000000000;
    assert Pow(10, 15) == 1000000000000000;
  }

  lemma HexBounds()
    ensures Pow(16, 16) == 0x1_0000_0000_0000_0000
  {
    assert Pow(16, 4) == 0x1_0000;
    assert Pow(16, 8) == 0x1_0000_0000;
    assert Pow(16, 12) == 0x1_0000_0000_0000;
  }

  lemma DecimalLength(n: nat)
    ensures n < 10_000_000_000_000_000_000 ==> |Numeral(n, DECIMAL)| <= 19
    ensures n < 100_000_000_000_000_000_000 ==> |Numeral(n, DECIMAL)| <= 20
  {
    NumeralLength(n, DECIMAL, 19);
    NumeralLength(n, DECIMAL, 20);
    DecimalBounds();
  }

  lemma NoMinusInNumeral(n: nat)
    ensures Numeral(n, DECIMAL)[0] != '-'
  {
    Tables();
    NumeralForm(n, DECIMAL);
  }

  /** The digits of a decimal text. */
  function Digits(text: string): string { if text != "" && text[0] == '-' then text[1..] else text }

  lemma DecimalDigits(v: int)
    ensures Digits(DecimalText(v)) == Numeral(Abs(v), DECIMAL) && (v < 0 <==> DecimalText(v)[0] == '-')
  {
    NoMinusInNumeral(Abs(v));
    if v < 0 { assert ("-" + Numeral(-v, DECIMAL))[1..] == Numeral(-v, DECIMAL); }
  }

  lemma Tables()
    ensures IsTable(DECIMAL) && |DECIMAL| == 10 && IsTable(HEX) && |HEX| == 16
    ensures forall c :: c in DECIMAL ==> '0' <= c <= '9'
    ensures forall c :: c in HEX ==> '0' <= c <= '9' || 'A' <= c <= 'F'
    ensures DECIMAL[0] == HEX[0] == '0'
  {
  }

  /** Formatting an integer loses nothing, the text is canonical (a minus sign exactly on negative
      numbers, then digits without a superfluous zero), and no 64-bit value, the most negative one
      included, needs more than 20 characters. */
  lemma DecimalRoundTrip(v: int)
    ensures ReadDecimal(DecimalText(v)) == v
    ensures v < 0 <==> DecimalText(v)[0] == '-'
    ensures var digits := Digits(DecimalText(v));
      && (forall i :: 0 <= i < |digits| ==> '0' <= digits[i] <= '9')
      && digits != [] && (digits[0] == '0' <==> v == 0) && (v == 0 ==> |digits| == 1)
    ensures IsInteger64(v) ==> |DecimalText(v)| <= 20
  {
    Tables();
    DecimalDigits(v);
    ReadNumeral(Abs(v), DECIMAL);
    NumeralForm(Abs(v), DECIMAL);
    DecimalLength(Abs(v));
  }

  lemma HexRoundTrip(v: nat)
    ensures Read(HexText(v), 16) == v
    ensures forall i :: 0 <= i < |HexText(v)| ==> '0' <= HexText(v)[i] <= '9' || 'A' <= HexText(v)[i] <= 'F'
    ensures HexText(v)[0] == '0' <==> v == 0
    ensures v == 0 ==> |HexText(v)| == 1
    ensures v < 0x1_0000_0000_0000_0000 <==> |HexText(v)| <= 16
  {
    Tables();
    ReadNumeral(v, HEX);
    NumeralForm(v, HEX);
    NumeralLength(v, HEX, 16);
    HexBounds();
  }

  // ---------------------------------------------------------------- the algorithms

  /** `buf[at..p]` holds `text` from its end to its beginning. */
  ghost predicate HoldsBackwards(buf: array<char>, at: nat, p: nat, text: string)
    reads buf
  {
    && at <= p <= buf.Length && |text| == p - at
    && forall k :: at <= k < p ==> buf[k] == text[p - 1 - k]
  }

  /** `*p++ = c`. */
  method PutChar(buf: array<char>, at: nat, p: nat, c: char, ghost done: string) returns (p': nat)
    requires p < buf.Length && HoldsBackwards(buf, at, p, done)
    modifies buf
    ensures p' == p + 1 && HoldsBackwards(buf, at, p', [c] + done)
    ensures forall k :: 0 <= k < at || p' <= k < buf.Length ==> buf[k] == old(buf[k])
  {
    buf[p] := c;
    p' := p + 1;
  }

  /** `std::reverse(buf + from, buf + to)`. */
  method ReverseRange(buf: array<char>, from: nat, to: nat)
    requires from <= to <= buf.Length
    modifies buf
    ensures forall k :: from <= k < to ==> buf[k] == old(buf[from + to - 1 - k])
    ensures forall k :: 0 <= k < from || to <= k < buf.Length ==> buf[k] == old(buf[k])
  {
    var lo, hi := from, to;
    while lo < hi
      invariant from <= lo <= hi + 1 && hi <= to && lo - from == to - hi
      invariant forall k :: 0 <= k < buf.Length ==>
        buf[k] == if from <= k < lo || hi <= k < to then old(buf[from + to - 1 - k]) else old(buf[k])
    {
      hi := hi - 1;
      buf[lo], buf[hi] := buf[hi], buf[lo];
      lo := lo + 1;
    }
  }

  /** The decimal digit that the mirrored table holds at `lsd` places from its middle. */
  function Zero(lsd: int): char
    requires -9 <= lsd <= 9
  {
    MIRRORED[9 + lsd]
  }

  lemma DecimalDigit(i: int)
    ensures -9 <= TruncMod(i, 10) <= 9
    ensures Zero(TruncMod(i, 10)) == DECIMAL[Abs(i) % 10]
    ensures Abs(TruncDiv(i, 10)) == Abs(i) / 10 && (i < 0 ==> TruncDiv(i, 10) <= 0) && (i >= 0 ==> TruncDiv(i, 10) >= 0)
  {
  }

  /** One digit more of `text` is in place, in front of those already `done`. */
  lemma DigitWritten(n: nat, table: string, done: string, text: string)
    requires |table| >= 2 && Numeral(n, table) + done == text
    ensures (if n < |table| then "" else Numeral(n / |table|, table)) + ([table[n % |table|]] + done) == text
  {
  }

  /** The same for one turn of the loop in `convert`, from `i` to `i'`. */
  lemma DecimalDigitWritten(i: int, i': int, done: string, text: string)
    requires i' == TruncDiv(i, 10) && Numeral(Abs(i), DECIMAL) + done == text
    ensures -9 <= TruncMod(i, 10) <= 9
    ensures (if i' == 0 then "" else Numeral(Abs(i'), DECIMAL)) + ([Zero(TruncMod(i, 10))] + done) == text
    ensures i' != 0 ==> Abs(i') < Abs(i)
    ensures (i <= 0 ==> i' <= 0) && (i >= 0 ==> i' >= 0)
  {
    DecimalDigit(i);
    DigitWritten(Abs(i), DECIMAL, done, text);
    assert |DECIMAL| == 10;
  }

  /** The do-while loop of `convert`: the digits from the least significant one, without any sign. */
  method WriteDigits(buf: array<char>, at: nat, value: int) returns (p: nat)
    requires at + |Numeral(Abs(value), DECIMAL)| <= buf.Length
    modifies buf
    ensures HoldsBackwards(buf, at, p, Numeral(Abs(value), DECIMAL))
    ensures forall k :: 0 <= k < at || p <= k < buf.Length ==> buf[k] == old(buf[k])
  {
    ghost var digits := Numeral(Abs(value), DECIMAL);
    ghost var done := "";
    var i, more := value, true;
    p := at;
    while more
      invariant p <= at + |digits| && HoldsBackwards(buf, at, p, done)
      invariant (if more then Numeral(Abs(i), DECIMAL) else "") + done == digits
      invariant forall k :: 0 <= k < at || p <= k < buf.Length ==> buf[k] == old(buf[k])
      decreases more, Abs(i)
    {
      DecimalDigitWritten(i, TruncDiv(i, 10), done, digits);
      var lsd := TruncMod(i, 10);
      i := TruncDiv(i, 10);
      p := PutChar(buf, at, p, Zero(lsd), done);
      more := i != 0;
      done := [Zero(lsd)] + done;
    }
  }

  /** `convert` at place `at` of `buf`. It needs room for the text and the terminator. */
  method Convert(buf: array<char>, at: nat, value: int) returns (len: nat)
    requires at + |DecimalText(value)| < buf.Length
    modifies buf
    ensures len == |DecimalText(value)|
    ensures buf[at..at + len] == DecimalText(value) && buf[at + len] == '\0'
    ensures forall k :: 0 <= k < at || at + len < k < buf.Length ==> buf[k] == old(buf[k])
  {
    var p := WriteSigned(buf, at, value);
    Finish(buf, at, p, DecimalText(value));
    len := p - at;
  }

  /** The digits and then the sign, since the text is still backwards. */
  method WriteSigned(buf: array<char>, at: nat, value: int) returns (p: nat)
    requires at + |DecimalText(value)| < buf.Length
    modifies buf
    ensures HoldsBackwards(buf, at, p, DecimalText(value))
    ensures forall k :: 0 <= k < at || p <= k < buf.Length ==> buf[k] == old(buf[k])
  {
    SignedText(value);
    p := WriteDigits(buf, at, value);
    if value < 0 {
      p := PutChar(buf, at, p, '-', Numeral(Abs(value), DECIMAL));
    }
  }

  lemma SignedText(value: int)
    ensures value < 0 ==> DecimalText(value) == ['-'] + Numeral(Abs(value), DECIMAL)
    ensures value >= 0 ==> DecimalText(value) == Numeral(Abs(value), DECIMAL)
  {
  }

  /** The end of both functions: the terminator, then the digits turned round. */
  method Finish(buf: array<char>, at: nat, p: nat, ghost text: string)
    requires p < buf.Length && HoldsBackwards(buf, at, p, text)
    modifies buf
    ensures buf[at..p] == text && buf[p] == '\0'
    ensures forall k :: 0 <= k < at || p < k < buf.Length ==> buf[k] == old(buf[k])
  {
    buf[p] := '\0';
    ReverseRange(buf, at, p);
    assert forall j :: 0 <= j < |text| ==> buf[at + j] == text[j];
  }

  /** The do-while loop of `convertHex`. */
  method WriteHexDigits(buf: array<char>, at: nat, value: nat) returns (p: nat)
    requires at + |HexText(value)| <= buf.Length
    modifies buf
    ensures HoldsBackwards(buf, at, p, HexText(value))
    ensures forall k :: 0 <= k < at || p <= k < buf.Length ==> buf[k] == old(buf[k])
  {
    ghost var digits := HexText(value);
    ghost var done := "";
    var i, more := value, true;
    p := at;
    while more
      invariant p <= at + |digits| && HoldsBackwards(buf, at, p, done)
      invariant (if more then Numeral(i, HEX) else "") + done == digits
      invariant forall k :: 0 <= k < at || p <= k < buf.Length ==> buf[k] == old(buf[k])
      decreases more, i
    {
      DigitWritten(i, HEX, done, digits);
      var lsd := i % 16;
      i := i / 16;
      p := PutChar(buf, at, p, HEX[lsd], done);
      more := i != 0;
      done := [HEX[lsd]] + done;
    }
  }

  method ConvertHex(buf: array<char>, at: nat, value: nat) returns (len: nat)
    requires at + |HexText(value)| < buf.Length
    modifies buf
    ensures len == |HexText(value)|
    ensures buf[at..at + len] == HexText(value) && buf[at + len] == '\0'
    ensures forall k :: 0 <= k < at || at + len < k < buf.Length ==> buf[k] == old(buf[k])
  {
    var p := WriteHexDigits(buf, at, value);
    Finish(buf, at, p, HexText(value));
    len := p - at;
  }
}
