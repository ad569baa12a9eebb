// Symbols and numbers of the assembler: the symbol table with its first-match
// search, and read_number against the positional value of a numeral.
module AsmNumbers {
  import opened Dataspace

  const MAX_SYMBOL_SIZE := 32
  const MAX_SYMBOLS := 1024

  datatype Symbol = Symbol(name: string, value: cell)

  datatype Search = Value(value: cell) | Missing

  function FindSymbol(t: seq<Symbol>, name: string): Search {
    if t == [] then Missing
    else if t[0].name == name then Value(t[0].value)
    else FindSymbol(t[1..], name)
  }

  // A symbol found in a table is found, with the same value, in every table
  // that continues it.
  lemma {:induction false} FoundStays(t: seq<Symbol>, more: seq<Symbol>, name: string)
    ensures FindSymbol(t + more, name) == if FindSymbol(t, name).Value? then FindSymbol(t, name)
            else FindSymbol(more, name)
    decreases |t|
  {
    if t == [] {
      assert t + more == more;
    } else {
      assert (t + more)[1..] == t[1..] + more;
      FoundStays(t[1..], more, name);
    }
  }

  // The search answers with the first symbol of that name.
  ghost predicate FirstNamed(t: seq<Symbol>, name: string, k: nat) {
    k < |t| && t[k].name == name && forall i :: 0 <= i < k ==> t[i].name != name
  }

  lemma {:induction false} FindsFirst(t: seq<Symbol>, name: string)
    ensures FindSymbol(t, name) == Missing <==> forall i :: 0 <= i < |t| ==> t[i].name != name
    ensures forall k: nat :: FirstNamed(t, name, k) ==> FindSymbol(t, name) == Value(t[k].value)
    decreases |t|
  {
    if t != [] {
      FindsFirst(t[1..], name);
      assert forall i :: 0 < i < |t| ==> t[i] == t[1..][i - 1];
      forall k: nat | FirstNamed(t, name, k) ensures FindSymbol(t, name) == Value(t[k].value) {
        if k > 0 { assert FirstNamed(t[1..], name, k - 1); }
      }
    }
  }

  // What read_number returns.
  datatype Number = Number(value: int, negative: bool) | Malformed | NoSuchLabel

  function ToDigit(c: char, base: nat): int {
    var d :=
      if 'a' <= c <= 'z' then 10 + (c as int - 'a' as int)
      else if 'A' <= c <= 'Z' then 10 + (c as int - 'A' as int)
      else c as int - '0' as int;
    if d >= base || d < 0 then -1 else d
  }

  // The digits from position i on; a minus sign among them shifts the value of
  // a number that did not start with one.
  function ReadDigits(word: string, i: nat, base: nat, result: int, negative: bool): Number
    decreases |word| - i
  {
    if i >= |word| then Number(if negative then -result else result, negative)
    else if word[i] == '-' then
      if negative then Malformed else ReadDigits(word, i + 1, base, result * base, negative)
    else
      var d := ToDigit(word[i], base);
      if d < 0 then Malformed else ReadDigits(word, i + 1, base, result * base + d, negative)
  }

  // A number after a radix sign.
  function ReadBased(word: string, base: nat): Number {
    if |word| <= 1 then Malformed
    else
      var negative := word[1] == '-';
      if negative && |word| == 2 && base != 16 then Malformed
      else ReadDigits(word, if negative then 2 else 1, base, 0, negative)
  }

  function ReadNumber(word: string, t: seq<Symbol>): Number {
    if word != "" && word[0] == '\'' then
      if |word| == 3 && word[2] == '\'' then Number(word[1] as int, false) else Malformed
    else if word != "" && word[0] == '%' then ReadBased(word, 2)
    else if word != "" && word[0] == '#' then ReadBased(word, 10)
    else if word != "" && word[0] == '$' then ReadBased(word, 16)
    else if word != "" && word[0] == '-' then ReadDigits(word, 1, 10, 0, true)
    else if word == "" || ToDigit(word[0], 10) < 0 then
      match FindSymbol(t, word)
      case Value(v) => Number(v, false)
      case Missing => NoSuchLabel
    else ReadDigits(word, 1, 10, ToDigit(word[0], 10), false)
  }

  // Numerals, as the manual's grammar has them.

  datatype Radix = Binary | Decimal | Hexadecimal | Plain

  function Base(r: Radix): nat {
    match r
    case Binary => 2
    case Decimal => 10
    case Hexadecimal => 16
    case Plain => 10
  }

  function Sign(r: Radix): string {
    match r
    case Binary => "%"
    case Decimal => "#"
    case Hexadecimal => "$"
    case Plain => ""
  }

  // The value of a digit, by its place in the list of digits.
  const DIGITS := "0123456789abcdef"
  const CAPITALS := "0123456789ABCDEF"

  ghost predicate DigitIs(c: char, d: nat) {
    d < 16 && (c == DIGITS[d] || c == CAPITALS[d])
  }

  datatype Numeral = Numeral(radix: Radix, negative: bool, digits: seq<nat>, text: string)

  // The text is a non-empty row of digits of the radix.
  ghost predicate WellFormed(n: Numeral) {
    && |n.text| == |n.digits| > 0
    && forall i :: 0 <= i < |n.digits| ==> n.digits[i] < Base(n.radix) && DigitIs(n.text[i], n.digits[i])
  }

  function Positional(digits: seq<nat>, base: nat): nat {
    if digits == [] then 0 else Positional(digits[..|digits| - 1], base) * base + digits[|digits| - 1]
  }

  function Spelled(n: Numeral): string {
    Sign(n.radix) + (if n.negative then "-" else "") + n.text
  }

  function ValueOf(n: Numeral): int {
    if n.negative then -(Positional(n.digits, Base(n.radix)) as int) else Positional(n.digits, Base(n.radix))
  }

  // What read_number takes beyond the grammar.  The six characters after 9 count
  // as the digits ten to fifteen, a minus sign inside a number that did not
  // start with one counts as the digit zero, and after $ and on its own a minus
  // sign needs no digits.

  const AFTER_NINE := ":;<=>?"

  ghost predicate LooseDigit(c: char, d: nat) {
    DigitIs(c, d) || (10 <= d < 16 && c == AFTER_NINE[d - 10])
  }

  ghost predicate LooselyFormed(n: Numeral) {
    && |n.text| == |n.digits|
    && (n.text == "" ==> n.negative && (n.radix.Hexadecimal? || n.radix.Plain?))
    && forall i :: 0 <= i < |n.digits| ==> LooseAt(n, i)
  }

  ghost predicate LooseAt(n: Numeral, i: nat)
    requires i < |n.digits| == |n.text|
  {
    && n.digits[i] < Base(n.radix)
    && (LooseDigit(n.text[i], n.digits[i]) || (n.text[i] == '-' && n.digits[i] == 0 && !n.negative && i > 0))
  }

  lemma DigitValue(c: char, d: nat, base: nat)
    requires LooseDigit(c, d) && d < base
    ensures ToDigit(c, base) == d && c != '-' && c != '\'' && c != '%' && c != '#' && c != '$'
  {
  }

  lemma DigitFound(c: char, base: nat)
    requires base <= 16 && ToDigit(c, base) >= 0
    ensures ToDigit(c, base) < base && LooseDigit(c, ToDigit(c, base))
  {
    var d: nat := ToDigit(c, base);
    assert DIGITS[d] == c || CAPITALS[d] == c || (d >= 10 && AFTER_NINE[d - 10] == c);
  }

  lemma {:induction false} DigitsRead(word: string, start: nat, n: Numeral, k: nat)
    requires LooselyFormed(n) && k <= |n.digits| && |word| == start + |n.text| && word[start..] == n.text
    ensures ReadDigits(word, start + k, Base(n.radix), Positional(n.digits[..k], Base(n.radix)), n.negative) ==
            Number(ValueOf(n), n.negative)
    decreases |n.digits| - k
  {
    hide ToDigit, LooseDigit;
    if k == |n.digits| {
      assert n.digits[..k] == n.digits;
    } else {
      assert word[start + k] == word[start..][k] == n.text[k];
      assert LooseAt(n, k);
      if n.text[k] != '-' { DigitValue(n.text[k], n.digits[k], Base(n.radix)); }
      if LooseDigit(n.text[k], n.digits[k]) { DigitValue(n.text[k], n.digits[k], Base(n.radix)); }
      assert n.digits[..k + 1][..k] == n.digits[..k];
      DigitsRead(word, start, n, k + 1);
    }
  }

  // Every numeral of the wider kind is read as its positional value with its
  // sign.
  lemma LooseValue(n: Numeral, t: seq<Symbol>)
    requires LooselyFormed(n)
    ensures ReadNumber(Spelled(n), t) == Number(ValueOf(n), n.negative)
  {
    hide ReadDigits, Positional, ToDigit, LooseDigit;
    var word := Spelled(n);
    var b := Base(n.radix);
    if n.text != "" {
      assert LooseAt(n, 0);
      if LooseDigit(n.text[0], n.digits[0]) { DigitValue(n.text[0], n.digits[0], b); }
    }
    NoDigits(b);
    if n.radix.Plain? && !n.negative {
      DigitsRead(word, 0, n, 1);
      OneDigit(n.digits, b);
    } else {
      var start := |Sign(n.radix)| + if n.negative then 1 else 0;
      assert word[start..] == n.text;
      assert n.digits[..0] == [];
      DigitsRead(word, start, n, 0);
    }
  }

  // Every well-formed numeral is read as its positional value with its sign.
  lemma NumeralValue(n: Numeral, t: seq<Symbol>)
    requires WellFormed(n)
    ensures ReadNumber(Spelled(n), t) == Number(ValueOf(n), n.negative)
  {
    hide DigitIs, ReadNumber;
    assert LooselyFormed(n) by {
      forall i | 0 <= i < |n.digits| ensures LooseAt(n, i) { assert DigitIs(n.text[i], n.digits[i]); }
    }
    LooseValue(n, t);
  }

  lemma NoDigits(base: nat)
    ensures Positional([], base) == 0
  {
  }

  lemma OneDigit(digits: seq<nat>, base: nat)
    requires |digits| > 0
    ensures Positional(digits[..1], base) == digits[0]
  {
    assert digits[..1][..0] == [];
  }

  lemma CharacterValue(c: char, t: seq<Symbol>)
    ensures ReadNumber(['\'', c, '\''], t) == Number(c as int, false)
  {
  }

  // The characters a number was read from are digits or minus signs.
  predicate Readable(c: char, base: nat, negative: bool) {
    if c == '-' then !negative else ToDigit(c, base) >= 0
  }

  lemma {:induction false} DigitsReadable(word: string, i: nat, base: nat, result: int, negative: bool)
    requires ReadDigits(word, i, base, result, negative).Number? && i <= |word|
    ensures forall j :: i <= j < |word| ==> Readable(word[j], base, negative)
    decreases |word| - i
  {
    hide ToDigit;
    if i < |word| {
      DigitsReadable(word, i + 1, base,
                     if word[i] == '-' then result * base else result * base + ToDigit(word[i], base), negative);
    }
  }

  function DigitsOf(text: string, base: nat): (r: seq<nat>)
    ensures |r| == |text|
  {
    seq(|text|, i requires 0 <= i < |text| => if ToDigit(text[i], base) >= 0 then ToDigit(text[i], base) else 0)
  }

  lemma ReadableForm(radix: Radix, negative: bool, text: string)
    requires text == "" ==> negative && (radix.Hexadecimal? || radix.Plain?)
    requires forall j :: 0 <= j < |text| ==> Readable(text[j], Base(radix), negative)
    requires text != "" && !negative ==> text[0] != '-'
    ensures LooselyFormed(Numeral(radix, negative, DigitsOf(text, Base(radix)), text))
  {
    hide ToDigit, LooseDigit;
    var n := Numeral(radix, negative, DigitsOf(text, Base(radix)), text);
    forall i | 0 <= i < |n.digits| ensures LooseAt(n, i) {
      assert Readable(text[i], Base(radix), negative);
      if text[i] == '-' { MinusNoDigit(Base(radix)); } else { DigitFound(text[i], Base(radix)); }
    }
  }

  lemma MinusNoDigit(base: nat)
    ensures ToDigit('-', base) < 0
  {
  }

  // A word that starts like a number: with a radix sign, a minus sign or a
  // decimal digit.
  predicate StartsNumber(word: string) {
    word != "" && (word[0] in "%#$-" || '0' <= word[0] <= '9')
  }

  lemma NumberForm(word: string, t: seq<Symbol>) returns (n: Numeral)
    requires StartsNumber(word) && ReadNumber(word, t).Number?
    ensures LooselyFormed(n) && Spelled(n) == word
  {
    hide ReadDigits, ToDigit;
    var radix := if word[0] == '%' then Binary else if word[0] == '#' then Decimal
      else if word[0] == '$' then Hexadecimal else Plain;
    var start := |Sign(radix)|;
    var negative := start < |word| && word[start] == '-';
    var text := if negative then word[start + 1..] else word[start..];
    n := Numeral(radix, negative, DigitsOf(text, Base(radix)), text);
    assert word == Sign(radix) + (if negative then "-" else "") + text by { SignFirst(word, radix); }
    if radix == Plain && !negative {
      PlainDigit(word[0]);
      DigitsReadable(word, 1, 10, ToDigit(word[0], 10), false);
    } else {
      DigitsReadable(word, start + if negative then 1 else 0, Base(radix), 0, negative);
    }
    forall j | 0 <= j < |text| ensures Readable(text[j], Base(radix), negative) {
      assert text[j] == word[start + (if negative then 1 else 0) + j];
    }
    ReadableForm(radix, negative, text);
  }

  lemma PlainDigit(c: char)
    requires '0' <= c <= '9'
    ensures ToDigit(c, 10) >= 0 && c != '-'
  {
  }

  lemma SignFirst(word: string, radix: Radix)
    requires word != ""
             && radix == if word[0] == '%' then Binary else if word[0] == '#' then Decimal
             else if word[0] == '$' then Hexadecimal else Plain
    ensures |Sign(radix)| <= |word| && word[..|Sign(radix)|] == Sign(radix)
    ensures |Sign(radix)| < |word| && word[|Sign(radix)|] == '-' ==>
            word == Sign(radix) + "-" + word[|Sign(radix)| + 1..]
    ensures word == Sign(radix) + word[|Sign(radix)|..]
  {
    var k := |Sign(radix)|;
    assert word == word[..k] + word[k..];
  }

  predicate QuotedCharacter(word: string) {
    |word| == 3 && word[0] == '\'' && word[2] == '\''
  }

  lemma SpelledStarts(n: Numeral)
    requires LooselyFormed(n)
    ensures StartsNumber(Spelled(n))
  {
    hide LooseDigit;
    if n.radix.Plain? && !n.negative {
      assert LooseAt(n, 0);
      assert LooseDigit(n.text[0], n.digits[0]);
      assert '0' <= n.text[0] <= '9' by { PlainText(n.text[0], n.digits[0]); }
    }
  }

  lemma PlainText(c: char, d: nat)
    requires LooseDigit(c, d) && d < 10
    ensures '0' <= c <= '9'
  {
  }

  // The whole language: a word is read as a number exactly when it is a quoted
  // character, a numeral of the wider kind, or the name of a symbol that does not
  // start like a number.
  lemma NumbersRead(word: string, t: seq<Symbol>)
    ensures ReadNumber(word, t).Number? <==>
            QuotedCharacter(word) || (exists n :: LooselyFormed(n) && Spelled(n) == word)
            || (!StartsNumber(word) && (word == "" || word[0] != '\'') && FindSymbol(t, word).Value?)
    ensures ReadNumber(word, t) == NoSuchLabel ==> !StartsNumber(word) && FindSymbol(t, word).Missing?
  {
    hide LooselyFormed, ReadDigits;
    if StartsNumber(word) {
      if ReadNumber(word, t).Number? {
        var n := NumberForm(word, t);
      }
      assert ReadNumber(word, t) != NoSuchLabel by { StartsDigit(word, t); }
    } else {
      if word != "" && word[0] != '\'' { NoStart(word); }
    }
    if n :| LooselyFormed(n) && Spelled(n) == word {
      SpelledStarts(n);
      LooseValue(n, t);
    }
  }

  lemma NoStart(word: string)
    requires word != "" && !StartsNumber(word) && word[0] != '\''
    ensures ToDigit(word[0], 10) < 0
  {
  }

  lemma StartsDigit(word: string, t: seq<Symbol>)
    requires StartsNumber(word)
    ensures ReadNumber(word, t) != NoSuchLabel
  {
    hide ReadDigits;
    NeverLabel(word);
  }

  lemma {:induction false} NeverLabelFrom(word: string, i: nat, base: nat, result: int, negative: bool)
    ensures ReadDigits(word, i, base, result, negative) != NoSuchLabel
    decreases |word| - i
  {
    hide ToDigit;
    if i < |word| {
      NeverLabelFrom(word, i + 1, base,
                     if word[i] == '-' then result * base else result * base + ToDigit(word[i], base), negative);
    }
  }

  lemma NeverLabel(word: string)
    ensures forall i: nat, base: nat, result, negative :: ReadDigits(word, i, base, result, negative) != NoSuchLabel
  {
    hide ReadDigits;
    forall i: nat, base: nat, result, negative ensures ReadDigits(word, i, base, result, negative) != NoSuchLabel {
      NeverLabelFrom(word, i, base, result, negative);
    }
  }

  // Words outside the grammar, as instances.
  lemma LooseNumbers(t: seq<Symbol>)
    ensures ReadNumber("$-", t) == ReadNumber("-", t) == Number(0, true)
    ensures ReadNumber("#-", t) == ReadNumber("%-", t) == Malformed
    ensures ReadNumber("1-2", t) == Number(102, false) && ReadNumber("$:", t) == Number(10, false)
  {
    hide ReadNumber, ReadDigits;
    NoDigits(10);
    NoDigits(16);
    LooseValue(Numeral(Hexadecimal, true, [], ""), t);
    LooseValue(Numeral(Plain, true, [], ""), t);
    assert Spelled(Numeral(Hexadecimal, true, [], "")) == "$-" && Spelled(Numeral(Plain, true, [], "")) == "-";
    LonelySigns(t);
    InnerMinus(t);
    AfterNine(t);
  }

  lemma InnerMinus(t: seq<Symbol>)
    ensures ReadNumber("1-2", t) == Number(102, false)
  {
    hide ReadNumber, ReadDigits;
    var n := Numeral(Plain, false, [1, 0, 2], "1-2");
    assert LooseAt(n, 0) && LooseAt(n, 1) && LooseAt(n, 2);
    LooseValue(n, t);
    assert [1, 0, 2][..2] == [1, 0] && [1, 0][..1] == [1] && [1][..0] == [];
    assert Positional([1], 10) == 1 && Positional([1, 0], 10) == 10 && Positional([1, 0, 2], 10) == 102;
    assert Spelled(n) == "1-2";
  }

  lemma AfterNine(t: seq<Symbol>)
    ensures ReadNumber("$:", t) == Number(10, false)
  {
    hide ReadNumber, ReadDigits;
    var h := Numeral(Hexadecimal, false, [10], ":");
    assert LooseAt(h, 0);
    LooseValue(h, t);
    assert [10][..0] == [] && Positional([10], 16) == 10;
    assert Spelled(h) == "$:";
  }

  lemma LonelySigns(t: seq<Symbol>)
    ensures ReadNumber("#-", t) == ReadNumber("%-", t) == Malformed
  {
  }
}
