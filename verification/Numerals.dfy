// The numbers both systems read: the routine, twice in the repository but for where
// it gets its text and its base, and the numbers it accepts and their values, against
// positional notation.
module Numerals {
  import opened Dataspace

  function SignExtend(b: byte): cell {
    if b < 0x80 then b else b + 0xFF00
  }

  function Digit(c: byte, base: cell): (r: int)
    ensures -1 <= r < 0x100
  {
    var d := if 97 <= c <= 122 then c - 87 else if 65 <= c <= 90 then c - 55 else if c < 128 then c - 48 else -1;
    if d >= base || d < 0 then -1 else d
  }

  datatype Conversion = Converted(value: cell) | Wrong

  // The characters from the ith on; a minus sign where the number has none yet
  // counts as a zero.
  function ReadDigits(m: Memory, a: cell, i: nat, u: nat, base: cell, acc: cell, negative: bool): Conversion
    decreases u - i
  {
    if i >= u then Converted(if negative then Wrap(-(acc as int)) else acc)
    else
      var c := m[Wrap(a + i)];
      if c == 45 then
        if negative then Wrong else ReadDigits(m, a, i + 1, u, base, Wrap(acc as int * base as int), negative)
      else
        var d := Digit(c, base);
        if d < 0 then Wrong else ReadDigits(m, a, i + 1, u, base, Wrap(acc as int * base as int + d), negative)
  }

  // A radix sign asks for at least two characters after it.
  function ReadBased(m: Memory, a: cell, u: nat, base: cell): Conversion {
    if u <= 2 then Wrong else ReadDigits(m, a, 1, u, base, 0, m[Wrap(a + 1)] == 45)
  }

  // The u characters at a, without a look at u for the first of them.
  function ReadText(m: Memory, a: cell, u: nat, base: cell): Conversion {
    var c := m[a];
    if c == 39 then
      if u == 3 && m[Wrap(a + 2)] == 39 then Converted(SignExtend(m[Wrap(a + 1)])) else Wrong
    else if c == 37 then ReadBased(m, a, u, 2)
    else if c == 35 then ReadBased(m, a, u, 10)
    else if c == 36 then ReadBased(m, a, u, 16)
    else if c == 45 then ReadDigits(m, a, 1, u, base, 0, true)
    else
      var d := Digit(c, base);
      if d < 0 then Wrong else ReadDigits(m, a, 1, u, base, d, false)
  }

  // The program's form of these.

  method ConvertDigits(mem: array<byte>, a: cell, u: nat, base: cell, first: cell, negative: bool)
      returns (n: Conversion)
    requires mem.Length == SIZE
    ensures n == ReadDigits(mem[..], a, 1, u, base, first, negative)
  {
    hide Digit, Wrap;
    ghost var m: Memory := mem[..];
    var acc := first;
    var i := 1;
    while i < u
      invariant i <= u || i == 1
      invariant ReadDigits(m, a, i, u, base, acc, negative) == ReadDigits(m, a, 1, u, base, first, negative)
    {
      var c := mem[Wrap(a as int + i)];
      if c == 45 {
        if negative {
          return Wrong;
        }
        acc := Wrap(acc as int * base as int);
      } else {
        var d := Digit(c, base);
        if d < 0 {
          return Wrong;
        }
        acc := Wrap(acc as int * base as int + d);
      }
      i := i + 1;
    }
    n := Converted(if negative then Wrap(-(acc as int)) else acc);
  }

  method ConvertText(mem: array<byte>, a: cell, u: nat, current: cell) returns (n: Conversion)
    requires mem.Length == SIZE
    ensures n == ReadText(mem[..], a, u, current)
  {
    hide ReadDigits, Digit;
    var c := mem[a];
    if c == 39 {
      if u == 3 && mem[Wrap(a as int + 2)] == 39 {
        n := Converted(SignExtend(mem[Wrap(a as int + 1)]));
      } else {
        n := Wrong;
      }
    } else if c == 37 || c == 35 || c == 36 {
      var base := if c == 37 then 2 else if c == 35 then 10 else 16;
      if u <= 2 {
        n := Wrong;
      } else {
        n := ConvertDigits(mem, a, u, base, 0, mem[Wrap(a as int + 1)] == 45);
      }
    } else if c == 45 {
      n := ConvertDigits(mem, a, u, current, 0, true);
    } else {
      var d := Digit(c, current);
      if d < 0 {
        n := Wrong;
      } else {
        n := ConvertDigits(mem, a, u, current, d, false);
      }
    }
  }

  // The digits by their place in a list: up to 35 in either case; what stands
  // between and after the letters in the code table counts on from 9, Z and z.
  const SMALL_DIGITS := "0123456789abcdefghijklmnopqrstuvwxyz"
  const CAPITAL_DIGITS := "0123456789ABCDEFGHIJKLMNOPQRSTUVWXYZ"
  const AFTER_NINE := ":;<=>?@"
  const AFTER_CAPITALS := "[\\]^_`"
  const AFTER_SMALL := "{|}~\U{7F}"

  ghost predicate DigitIs(c: byte, d: nat) {
    || (d < 36 && (c as int == SMALL_DIGITS[d] as int || c as int == CAPITAL_DIGITS[d] as int))
    || (10 <= d < 17 && c as int == AFTER_NINE[d - 10] as int)
    || (43 <= d < 49 && c as int == AFTER_CAPITALS[d - 43] as int)
    || (75 <= d < 80 && c as int == AFTER_SMALL[d - 75] as int)
  }

  const MINUS: byte := 45
  const QUOTE: byte := 39

  datatype Radix = Binary | Decimal | Hexadecimal | Current

  function Sign(r: Radix): seq<byte> {
    match r
    case Binary => [37]
    case Decimal => [35]
    case Hexadecimal => [36]
    case Current => []
  }

  function Base(r: Radix, base: cell): cell {
    match r
    case Binary => 2
    case Decimal => 10
    case Hexadecimal => 16
    case Current => base
  }

  datatype Numeral = Numeral(radix: Radix, negative: bool, digits: seq<nat>, text: seq<byte>)

  // A row of digits of the radix, in which a minus sign behind the first counts as
  // a zero unless the number is negative.  After a radix sign at least two
  // characters and no minus sign in front; after a minus sign none is needed.
  ghost predicate Formed(n: Numeral, base: cell) {
    && |n.text| == |n.digits|
    && (n.radix != Current ==> !n.negative && |n.text| >= 2)
    && (!n.negative ==> n.text != [])
    && forall i :: 0 <= i < |n.digits| ==> FormedAt(n, base, i)
  }

  ghost predicate FormedAt(n: Numeral, base: cell, i: nat)
    requires i < |n.digits| == |n.text|
  {
    && n.digits[i] < Base(n.radix, base)
    && (DigitIs(n.text[i], n.digits[i]) || (n.text[i] == MINUS && n.digits[i] == 0 && !n.negative && i > 0))
  }

  function Spelled(n: Numeral): seq<byte> {
    Sign(n.radix) + (if n.negative then [MINUS] else []) + n.text
  }

  function Positional(digits: seq<nat>, base: nat): nat {
    if digits == [] then 0 else Positional(digits[..|digits| - 1], base) * base + digits[|digits| - 1]
  }

  function ValueOf(n: Numeral, base: cell): int {
    var v := Positional(n.digits, Base(n.radix, base));
    if n.negative then -(v as int) else v
  }

  // The u characters at a, but at least one: of an empty string the routine looks at
  // the first character all the same.
  function TextOf(m: Memory, a: cell, u: nat): (r: seq<byte>)
    ensures |r| == if u == 0 then 1 else u
  {
    seq(if u == 0 then 1 else u, i requires 0 <= i => m[Wrap(a + i)])
  }

  ghost predicate IsQuoted(text: seq<byte>) {
    |text| == 3 && text[0] == QUOTE && text[2] == QUOTE
  }

  lemma DigitTables()
    ensures |SMALL_DIGITS| == |CAPITAL_DIGITS| == 36 && |AFTER_NINE| == 7 && |AFTER_CAPITALS| == 6 && |AFTER_SMALL| == 5
    ensures forall d :: 0 <= d < 36 ==>
              && SMALL_DIGITS[d] as int == (if d < 10 then 48 + d else 87 + d)
              && CAPITAL_DIGITS[d] as int == (if d < 10 then 48 + d else 55 + d)
    ensures forall d :: 0 <= d < 7 ==> AFTER_NINE[d] as int == 58 + d
    ensures forall d :: 0 <= d < 6 ==> AFTER_CAPITALS[d] as int == 91 + d
    ensures forall d :: 0 <= d < 5 ==> AFTER_SMALL[d] as int == 123 + d
  {
  }

  lemma DigitValue(c: byte, d: nat, base: cell)
    requires DigitIs(c, d) && d < base
    ensures Digit(c, base) == d && c >= 48
  {
    DigitTables();
  }

  lemma DigitFound(c: byte, base: cell)
    requires Digit(c, base) >= 0
    ensures Digit(c, base) < base && DigitIs(c, Digit(c, base)) && c >= 48
  {
    DigitTables();
  }

  // One more digit, modulo 64K.
  lemma WrapDigit(p: nat, b: nat, d: nat)
    ensures Wrap(Wrap(p) * b + d) == Wrap(p * b + d)
  {
    var q, r := p / 0x1_0000, p % 0x1_0000;
    assert p == 0x1_0000 * q + r;
    assert p * b == 0x1_0000 * (q * b) + r * b;
    WrapMore(r * b + d, q * b);
  }

  lemma WrapMore(x: int, q: int)
    ensures Wrap(x + 0x1_0000 * q) == Wrap(x)
  {
  }

  lemma WrapMinus(p: nat)
    ensures Wrap(-(Wrap(p) as int)) == Wrap(-(p as int))
  {
    WrapMore(-(Wrap(p) as int), -(p / 0x1_0000));
  }

  lemma {:induction false} DigitsRead(m: Memory, a: cell, u: nat, start: nat, n: Numeral, base: cell, k: nat)
    requires Formed(n, base) && k <= |n.digits| && 1 <= start + k
    requires |TextOf(m, a, u)| == start + |n.text| && TextOf(m, a, u)[start..] == n.text
    ensures ReadDigits(m, a, start + k, u, Base(n.radix, base),
                       Wrap(Positional(n.digits[..k], Base(n.radix, base))), n.negative)
            == Converted(Wrap(ValueOf(n, base)))
    decreases |n.digits| - k
  {
    hide Digit, DigitIs, Base, Wrap;
    var b := Base(n.radix, base);
    if k == |n.digits| {
      assert n.digits[..k] == n.digits;
      WrapMinus(Positional(n.digits, b));
    } else {
      var text := TextOf(m, a, u);
      assert text[start + k] == text[start..][k] == n.text[k];
      assert FormedAt(n, base, k);
      if n.text[k] != MINUS || DigitIs(n.text[k], n.digits[k]) { DigitValue(n.text[k], n.digits[k], b); }
      assert n.digits[..k + 1][..k] == n.digits[..k];
      WrapDigit(Positional(n.digits[..k], b), b, n.digits[k]);
      DigitsRead(m, a, u, start, n, base, k + 1);
    }
  }

  lemma NoDigits(base: nat)
    ensures Positional([], base) == 0
  {
  }

  lemma OneDigit(digits: seq<nat>, base: nat)
    requires |digits| > 0
    ensures Positional(digits[..1], base) == digits[0]
  {
    assert digits[..1][..0] == [];
  }

  // Every numeral is read as its positional value with its sign, modulo 64K.
  lemma NumeralValue(m: Memory, a: cell, u: nat, base: cell, n: Numeral)
    requires Formed(n, base) && Spelled(n) == TextOf(m, a, u)
    ensures ReadText(m, a, u, base) == Converted(Wrap(ValueOf(n, base)))
  {
    hide ReadDigits, Positional, Digit, DigitIs, Wrap;
    var text := TextOf(m, a, u);
    var b := Base(n.radix, base);
    if n.text != [] {
      assert FormedAt(n, base, 0);
      DigitValue(n.text[0], n.digits[0], b);
    }
    NoDigits(b);
    WrapZero();
    assert text[0] == m[a] by { WrapFirst(a); }
    if n.radix == Current && !n.negative {
      DigitsRead(m, a, u, 0, n, base, 1);
      OneDigit(n.digits, b);
      WrapCell(n.digits[0]);
    } else {
      var start := |Sign(n.radix)| + if n.negative then 1 else 0;
      assert text[start..] == n.text;
      assert n.digits[..0] == [];
      DigitsRead(m, a, u, start, n, base, 0);
    }
  }

  lemma WrapZero()
    ensures Wrap(0) == 0
  {
  }

  lemma WrapFirst(a: cell)
    ensures Wrap(a + 0) == a
  {
  }

  lemma WrapCell(d: nat)
    requires d < 0x1_0000
    ensures Wrap(d) == d
  {
  }

  // A character a number was read from.
  predicate Readable(c: byte, base: cell, negative: bool) {
    if c == MINUS then !negative else Digit(c, base) >= 0
  }

  lemma {:induction false} DigitsReadable(m: Memory, a: cell, u: nat, i: nat, base: cell, acc: cell, negative: bool)
    requires 1 <= i && ReadDigits(m, a, i, u, base, acc, negative).Converted?
    ensures forall j :: i <= j < |TextOf(m, a, u)| ==> Readable(TextOf(m, a, u)[j], base, negative)
    decreases |TextOf(m, a, u)| - i
  {
    hide Digit, Wrap;
    if i < |TextOf(m, a, u)| {
      var c := m[Wrap(a + i)];
      var d := if c == MINUS then 0 else Digit(c, base);
      DigitsReadable(m, a, u, i + 1, base, Wrap(acc as int * base as int + d), negative);
    }
  }

  function DigitsOf(text: seq<byte>, base: cell): (r: seq<nat>)
    ensures |r| == |text|
  {
    seq(|text|, i requires 0 <= i < |text| => if Digit(text[i], base) >= 0 then Digit(text[i], base) else 0)
  }

  function RadixOf(c: byte): Radix {
    if c == 37 then Binary else if c == 35 then Decimal else if c == 36 then Hexadecimal else Current
  }

  // Behind the first character of a number there are digits and minus signs.
  lemma ReadableText(m: Memory, a: cell, u: nat, base: cell)
    requires ReadText(m, a, u, base).Converted? && TextOf(m, a, u)[0] != QUOTE
    ensures var text := TextOf(m, a, u);
            var radix, negative := RadixOf(text[0]), text[0] == MINUS;
            var b := Base(radix, base);
            && (forall j :: 1 <= j < |text| ==> Readable(text[j], b, negative))
            && (radix != Current ==> |text| > 2 && text[1] != MINUS)
            && (radix == Current && !negative ==> Readable(text[0], b, negative))
  {
    hide ReadDigits, Digit, Wrap;
    WrapFirst(a);
    var text := TextOf(m, a, u);
    var b := Base(RadixOf(text[0]), base);
    if RadixOf(text[0]) != Current {
      DigitsReadable(m, a, u, 1, b, 0, text[1] == MINUS);
      assert Readable(text[1], b, text[1] == MINUS);
    } else if text[0] == MINUS {
      DigitsReadable(m, a, u, 1, base, 0, true);
    } else {
      DigitsReadable(m, a, u, 1, base, Digit(text[0], base), false);
    }
  }

  // A converted string that is not a quoted character is spelled like a numeral.
  lemma NumberForm(m: Memory, a: cell, u: nat, base: cell) returns (n: Numeral)
    requires ReadText(m, a, u, base).Converted? && TextOf(m, a, u)[0] != QUOTE
    ensures Formed(n, base) && Spelled(n) == TextOf(m, a, u)
  {
    hide ReadText, TextOf, FormedAt, Readable, Wrap;
    var text := TextOf(m, a, u);
    ReadableText(m, a, u, base);
    var radix, negative := RadixOf(text[0]), text[0] == MINUS;
    var b := Base(radix, base);
    var start := if radix != Current || negative then 1 else 0;
    n := Numeral(radix, negative, DigitsOf(text[start..], b), text[start..]);
    forall j | 0 <= j < |text| - start ensures Readable(text[start..][j], b, negative) {
      assert text[start..][j] == text[start + j];
    }
    AllFormed(n, base);
    assert text == text[..start] + text[start..];
  }

  lemma AllFormed(n: Numeral, base: cell)
    requires n.digits == DigitsOf(n.text, Base(n.radix, base))
    requires forall j :: 0 <= j < |n.text| ==> Readable(n.text[j], Base(n.radix, base), n.negative)
    requires n.text != [] && !n.negative ==> n.text[0] != MINUS
    ensures forall i :: 0 <= i < |n.digits| ==> FormedAt(n, base, i)
  {
    hide Digit, DigitIs;
    forall i | 0 <= i < |n.digits| ensures FormedAt(n, base, i) {
      assert Readable(n.text[i], Base(n.radix, base), n.negative);
      assert Readable(n.text[0], Base(n.radix, base), n.negative);
      DigitBelow(n.text[0], Base(n.radix, base));
      if n.text[i] == MINUS { MinusNoDigit(Base(n.radix, base)); } else { DigitFound(n.text[i], Base(n.radix, base)); }
    }
  }

  lemma DigitBelow(c: byte, base: cell)
    ensures Digit(c, base) < base || Digit(c, base) < 0
  {
  }

  lemma MinusNoDigit(base: cell)
    ensures Digit(MINUS, base) < 0
  {
  }

  // The whole language: a counted string converts to k exactly when it is a quoted
  // character of that signed code, or a numeral of that value modulo 64K.
  lemma NumbersRead(m: Memory, a: cell, u: nat, base: cell, k: cell)
    ensures var text := TextOf(m, a, u);
            ReadText(m, a, u, base) == Converted(k) <==>
            || (IsQuoted(text) && k == Wrap(if text[1] < 128 then text[1] as int else text[1] as int - 256))
            || exists n :: Formed(n, base) && Spelled(n) == text && k == Wrap(ValueOf(n, base))
  {
    hide Formed, ReadDigits, Digit, ValueOf;
    var text := TextOf(m, a, u);
    WrapFirst(a);
    if n :| Formed(n, base) && Spelled(n) == text && k == Wrap(ValueOf(n, base)) {
      NumeralValue(m, a, u, base, n);
      SpelledStart(n, base);
    }
    if text[0] != QUOTE && ReadText(m, a, u, base) == Converted(k) {
      var n := NumberForm(m, a, u, base);
      NumeralValue(m, a, u, base, n);
      assert Formed(n, base) && Spelled(n) == text && k == Wrap(ValueOf(n, base));
    }
    if text[0] == QUOTE { QuotedRead(m, a, u, base, k); }
  }

  lemma QuotedRead(m: Memory, a: cell, u: nat, base: cell, k: cell)
    requires TextOf(m, a, u)[0] == QUOTE
    ensures var text := TextOf(m, a, u);
            ReadText(m, a, u, base) == Converted(k) <==>
            IsQuoted(text) && k == Wrap(if text[1] < 128 then text[1] as int else text[1] as int - 256)
  {
    hide ReadDigits, Digit, ReadBased;
    WrapFirst(a);
  }

  // So a radix sign with one digit is no number, nor one with a minus sign behind
  // it.
  lemma RadixSigns(m: Memory, a: cell, u: nat, base: cell)
    requires TextOf(m, a, u)[0] in {37, 35, 36}
    requires |TextOf(m, a, u)| <= 2 || TextOf(m, a, u)[1] == MINUS
    ensures ReadText(m, a, u, base) == Wrong
  {
    hide Digit, Formed, ValueOf;
    var text := TextOf(m, a, u);
    if ReadText(m, a, u, base).Converted? {
      var n := NumberForm(m, a, u, base);
      RadixText(n, base);
    }
  }

  lemma RadixText(n: Numeral, base: cell)
    requires Formed(n, base) && Spelled(n)[0] in {37, 35, 36}
    ensures |Spelled(n)| > 2 && Spelled(n)[1] != MINUS
  {
    hide DigitIs;
    if n.text != [] {
      assert FormedAt(n, base, 0);
      if DigitIs(n.text[0], n.digits[0]) { DigitValue(n.text[0], n.digits[0], Base(n.radix, base)); }
    }
  }

  lemma SpelledStart(n: Numeral, base: cell)
    requires Formed(n, base)
    ensures Spelled(n) != [] && Spelled(n)[0] != QUOTE
  {
    hide DigitIs;
    if n.text != [] {
      assert FormedAt(n, base, 0);
      DigitValue(n.text[0], n.digits[0], Base(n.radix, base));
    }
  }

  // The routine looks at nothing but the text and two characters behind it.

  lemma {:induction false} DigitsSame(m: Memory, n: Memory, hi: int, a: cell, i: nat, u: nat, base: cell, acc: cell,
      negative: bool)
    requires SameOn(m, n, 0, hi) && a + u <= hi < SIZE
    ensures ReadDigits(m, a, i, u, base, acc, negative) == ReadDigits(n, a, i, u, base, acc, negative)
    decreases u - i
  {
    hide SameOn, Wrap, Digit;
    if i < u {
      ByteSame(m, n, 0, hi, a + i);
      WrapSum(a + i, 0, 0);
      var c := m[a + i];
      DigitsSame(m, n, hi, a, i + 1, u, base, Wrap(acc as int * base as int), negative);
      DigitsSame(m, n, hi, a, i + 1, u, base, Wrap(acc as int * base as int + Digit(c, base)), negative);
    }
  }

  lemma BasedSame(m: Memory, n: Memory, hi: int, a: cell, u: nat, base: cell)
    requires SameOn(m, n, 0, hi) && a + u <= hi < SIZE && a + 3 <= hi
    ensures ReadBased(m, a, u, base) == ReadBased(n, a, u, base)
  {
    hide SameOn, Digit, Wrap, ReadDigits;
    WrapSum(a + 1, 0, 0);
    ByteSame(m, n, 0, hi, a + 1);
    DigitsSame(m, n, hi, a, 1, u, base, 0, m[a + 1] == 45);
  }

  lemma TextSame(m: Memory, n: Memory, hi: int, a: cell, u: nat, base: cell)
    requires SameOn(m, n, 0, hi) && a + u <= hi < SIZE && a + 3 <= hi
    ensures ReadText(m, a, u, base) == ReadText(n, a, u, base)
  {
    hide SameOn, Digit, Wrap, ReadDigits, ReadBased, SignExtend;
    WrapSum(a + 1, 0, 0);
    WrapSum(a + 2, 0, 0);
    ByteSame(m, n, 0, hi, a);
    ByteSame(m, n, 0, hi, a + 1);
    ByteSame(m, n, 0, hi, a + 2);
    BasedSame(m, n, hi, a, u, 2);
    BasedSame(m, n, hi, a, u, 10);
    BasedSame(m, n, hi, a, u, 16);
    DigitsSame(m, n, hi, a, 1, u, base, 0, true);
    if Digit(m[a], base) >= 0 { DigitsSame(m, n, hi, a, 1, u, base, Digit(m[a], base), false); }
  }
}
