// The symbol file: the .def lines that dump_symbol_table writes, assembled
// again, rebuild the table.
module AsmSymbolFile {
  import opened Dataspace
  import opened AsmNumbers
  import opened AsmText
  import opened AsmPasses

  function LowerDigit(d: nat): char
    requires d < 16
  {
    if d < 10 then '0' + d as char else 'a' + (d - 10) as char
  }

  function UpperDigit(d: nat): char
    requires d < 16
  {
    if d < 10 then '0' + d as char else 'A' + (d - 10) as char
  }

  function Nibbles(v: cell): (r: seq<nat>)
    ensures |r| == 4 && forall i :: 0 <= i < 4 ==> r[i] < 16
  {
    [v / 0x1000, v / 0x100 % 16, v / 0x10 % 16, v % 16]
  }

  // .def NAME $hhhh, with four lower-case digits.
  function DumpLine(s: Symbol): string {
    var ds := Nibbles(s.value);
    ".def " + s.name + " $" + [LowerDigit(ds[0]), LowerDigit(ds[1]), LowerDigit(ds[2]), LowerDigit(ds[3])] + "\n"
  }

  function Digits(v: cell): string {
    var ds := Nibbles(v);
    [UpperDigit(ds[0]), UpperDigit(ds[1]), UpperDigit(ds[2]), UpperDigit(ds[3])]
  }

  predicate NameChar(c: char) {
    'A' <= c <= 'Z' || '0' <= c <= '9' || c == '_'
  }

  // Identifier-like and in capitals, as stripping leaves them.
  predicate NameOk(name: string) {
    0 < |name| < MAX_SYMBOL_SIZE && forall i :: 0 <= i < |name| ==> NameChar(name[i])
  }

  // Characters that neither end a line early nor start a quotation.
  predicate Ordinary(line: string) {
    ';' !in line && '"' !in line && '\'' !in line
  }

  lemma {:induction false} NoRemark(line: string)
    requires Ordinary(line)
    ensures RemarkLess(line, false) == line
    decreases |line|
  {
    if line != "" {
      NoRemark(line[1..]);
    }
  }

  lemma {:induction false} NoQuotes(line: string)
    requires Ordinary(line)
    ensures Closed(line, false, false)
    ensures |UpperCase(line, false, false)| == |line|
    ensures forall i :: 0 <= i < |line| ==> UpperCase(line, false, false)[i] == ToUpper(line[i])
    decreases |line|
  {
    if line != "" {
      NoQuotes(line[1..]);
      assert forall i :: 0 < i < |line| ==> line[i] == line[1..][i - 1];
    }
  }

  lemma UpperDigits(d: nat)
    requires d < 16
    ensures ToUpper(LowerDigit(d)) == UpperDigit(d) && DigitIs(UpperDigit(d), d)
    ensures LowerDigit(d) != ';' && LowerDigit(d) != '"' && LowerDigit(d) != '\'' && !IsSpace(UpperDigit(d))
    ensures UpperDigit(d) != ' '
  {
  }

  // The line as the parser sees it.
  function DefLine(s: Symbol): string {
    ".DEF " + s.name + " $" + Digits(s.value)
  }

  lemma DumpStrips(s: Symbol)
    requires NameOk(s.name)
    ensures StripsCleanly(DumpLine(s)) && Stripped(DumpLine(s)) == DefLine(s)
  {
    hide UpperDigit, LowerDigit, Nibbles;
    var line := DumpLine(s);
    var ds := Nibbles(s.value);
    UpperDigits(ds[0]);
    UpperDigits(ds[1]);
    UpperDigits(ds[2]);
    UpperDigits(ds[3]);
    DumpOrdinary(s);
    NoRemark(line);
    assert DropSpaces(line) == line;
    NoQuotes(line);
    var upper := UpperCase(line, false, false);
    UpperDump(s, upper);
    assert upper == DefLine(s) + "\n";
    assert upper[..|upper| - 1] == DefLine(s);
    assert DefLine(s)[|DefLine(s)| - 1] == UpperDigit(ds[3]);
    OneNewline(DefLine(s));
  }

  lemma OneNewline(line: string)
    requires line != "" && !IsSpace(line[|line| - 1])
    ensures DropTrailing(line + "\n") == line
  {
    assert (line + "\n")[..|line|] == line;
    assert DropTrailing(line) == line;
  }

  lemma DumpOrdinary(s: Symbol)
    requires NameOk(s.name)
    ensures Ordinary(DumpLine(s))
  {
    hide LowerDigit, Nibbles, Ordinary;
    var ds := Nibbles(s.value);
    var digits := [LowerDigit(ds[0]), LowerDigit(ds[1]), LowerDigit(ds[2]), LowerDigit(ds[3])];
    assert Ordinary(s.name) && Ordinary(".def ") && Ordinary(" $") && Ordinary("\n") by { NameOrdinary(s.name); }
    assert Ordinary(digits) by {
      UpperDigits(ds[0]);
      UpperDigits(ds[1]);
      UpperDigits(ds[2]);
      UpperDigits(ds[3]);
      FourOrdinary(digits);
    }
    OrdinaryJoin(".def ", s.name);
    OrdinaryJoin(".def " + s.name, " $");
    OrdinaryJoin(".def " + s.name + " $", digits);
    OrdinaryJoin(".def " + s.name + " $" + digits, "\n");
  }

  lemma OrdinaryJoin(x: string, y: string)
    requires Ordinary(x) && Ordinary(y)
    ensures Ordinary(x + y)
  {
  }

  lemma FourOrdinary(digits: string)
    requires |digits| == 4
    requires forall i :: 0 <= i < 4 ==> digits[i] != ';' && digits[i] != '"' && digits[i] != '\''
    ensures Ordinary(digits)
  {
  }

  lemma NameOrdinary(name: string)
    requires NameOk(name)
    ensures Ordinary(name) && Ordinary(".def ") && Ordinary(" $") && Ordinary("\n")
  {
    assert forall c :: c in name ==> NameChar(c);
  }

  lemma UpperDump(s: Symbol, upper: string)
    requires NameOk(s.name) && |upper| == |DumpLine(s)|
    requires forall i :: 0 <= i < |upper| ==> upper[i] == ToUpper(DumpLine(s)[i])
    ensures upper == DefLine(s) + "\n"
  {
    hide LowerDigit, UpperDigit, Nibbles, ToUpper;
    var line, n := DumpLine(s), |s.name|;
    var ds := Nibbles(s.value);
    UpperDigits(ds[0]);
    UpperDigits(ds[1]);
    UpperDigits(ds[2]);
    UpperDigits(ds[3]);
    LettersUpper();
    DumpShape(s);
    hide DumpLine;
    UpperPart(upper, line, 0, ".def ", ".DEF ");
    forall i | 0 <= i < n ensures s.name[i] == ToUpper(s.name[i]) { CapitalStays(s.name[i]); }
    UpperPart(upper, line, 5, s.name, s.name);
    UpperPart(upper, line, 5 + n, line[5 + n..], " $" + Digits(s.value) + "\n");
    assert upper == upper[..5] + upper[5..5 + n] + upper[5 + n..];
  }

  lemma DumpShape(s: Symbol)
    ensures var line, n, ds := DumpLine(s), |s.name|, Nibbles(s.value);
            && |line| == 12 + n && line[..5] == ".def " && line[5..5 + n] == s.name
            && line[5 + n..]
               == " $" + [LowerDigit(ds[0]), LowerDigit(ds[1]), LowerDigit(ds[2]), LowerDigit(ds[3])] + "\n"
  {
    hide LowerDigit, Nibbles;
  }

  lemma UpperPart(upper: string, line: string, at: nat, x: string, y: string)
    requires |upper| == |line| && |x| == |y| && at + |x| <= |line| && line[at..at + |x|] == x
    requires forall i :: 0 <= i < |upper| ==> upper[i] == ToUpper(line[i])
    requires forall i :: 0 <= i < |x| ==> y[i] == ToUpper(x[i])
    ensures upper[at..at + |x|] == y
  {
    forall i | 0 <= i < |x| ensures upper[at + i] == y[i] {
      assert line[at..at + |x|][i] == x[i];
    }
  }

  lemma LettersUpper()
    ensures ToUpper('.') == '.' && ToUpper('d') == 'D' && ToUpper('e') == 'E' && ToUpper('f') == 'F'
    ensures ToUpper(' ') == ' ' && ToUpper('$') == '$' && ToUpper('\n') == '\n'
  {
  }

  lemma CapitalStays(c: char)
    requires NameChar(c)
    ensures ToUpper(c) == c && !IsSpace(c) && c != ' ' && c != ':'
  {
  }

  lemma {:induction false} WordIs(line: string, i: nat, max: nat, n: nat)
    requires i + n <= |line| && n < max && (forall k :: i <= k < i + n ==> line[k] != ' ')
    requires i + n < |line| ==> line[i + n] == ' '
    ensures WordLength(line, i, ' ', max) == n
    decreases n
  {
    if n > 0 { WordIs(line, i + 1, max - 1, n - 1); }
  }

  lemma {:induction false} SkipWordIs(line: string, i: nat, n: nat)
    requires i + n <= |line| && (forall k :: i <= k < i + n ==> !IsSpace(line[k]))
             && (i + n < |line| ==> IsSpace(line[i + n]))
    ensures SkipWord(line, i) == i + n
    decreases n
  {
    if n > 0 { SkipWordIs(line, i + 1, n - 1); }
  }

  lemma OneSpace(line: string, i: nat)
    requires i + 1 < |line| && IsSpace(line[i]) && !IsSpace(line[i + 1])
    ensures SkipSpaces(line, i) == i + 1
  {
  }

  lemma DefIsNoLabel(line: string)
    requires ".DEF " <= line
    ensures !IsLabel(line)
  {
    var l1, l2, l3, l4 := line[1..], line[2..], line[3..], line[4..];
    assert l1[1..] == l2 && l2[1..] == l3 && l3[1..] == l4;
    assert line[0] == '.' && l1[0] == 'D' && l2[0] == 'E' && l3[0] == 'F' && l4[0] == ' ';
    assert !IsLabel(l4);
    assert !IsLabel(l3);
    assert !IsLabel(l2);
  }

  lemma DefParses(s: Symbol)
    requires NameOk(s.name)
    ensures Parse(DefLine(s)) == Def(s.name, "$" + Digits(s.value))
  {
    hide WordLength, SkipWord, SkipSpaces, IsLabel, Nibbles, UpperDigit, NameChar, DefLine, Digits;
    hide ParseStr, ParseBytes, ParseAlign, ParseOrg, ParseCode;
    var line, n := DefLine(s), |s.name|;
    DefShape(s);
    DefIsNoLabel(line);
    WordIs(line, 0, MAX_WORD_SIZE, 4);
    SkipWordIs(line, 0, 4);
    OneSpace(line, 4);
    WordIs(line, 5, MAX_WORD_SIZE, n);
    SkipWordIs(line, 5, n);
    OneSpace(line, 5 + n);
    WordIs(line, 6 + n, MAX_WORD_SIZE, 5);
  }

  lemma DefShape(s: Symbol)
    requires NameOk(s.name)
    ensures var line, n := DefLine(s), |s.name|;
            && |line| == 11 + n && ".DEF " <= line && line[5 + n] == ' '
            && line[0..4] == ".DEF" && line[5..5 + n] == s.name && line[6 + n..11 + n] == "$" + Digits(s.value)
            && (forall k :: 5 <= k < 5 + n ==> !IsSpace(line[k]) && line[k] != ' ')
            && (forall k :: 6 + n <= k < 11 + n ==> !IsSpace(line[k]) && line[k] != ' ')
  {
    hide Nibbles, UpperDigit;
    var line, n := DefLine(s), |s.name|;
    var ds := Nibbles(s.value);
    UpperDigits(ds[0]);
    UpperDigits(ds[1]);
    UpperDigits(ds[2]);
    UpperDigits(ds[3]);
    forall k | 5 <= k < 5 + n ensures !IsSpace(line[k]) && line[k] != ' ' {
      assert line[k] == s.name[k - 5];
      CapitalStays(s.name[k - 5]);
    }
  }

  lemma HexValue(v: cell, t: seq<Symbol>)
    ensures ReadNumber("$" + Digits(v), t) == Number(v, false)
  {
    hide UpperDigit, ReadNumber;
    var ds := Nibbles(v);
    UpperDigits(ds[0]);
    UpperDigits(ds[1]);
    UpperDigits(ds[2]);
    UpperDigits(ds[3]);
    var n := Numeral(Hexadecimal, false, ds, Digits(v));
    hide DigitIs;
    assert WellFormed(n);
    NumeralValue(n, t);
    assert Spelled(n) == "$" + Digits(v);
    NibbleValue(v);
  }

  lemma NibbleValue(v: cell)
    ensures Positional(Nibbles(v), 16) == v
  {
    hide Nibbles;
    var ds := Nibbles(v);
    FourDigits(ds, 16);
    assert ((ds[0] * 16 + ds[1]) * 16 + ds[2]) * 16 + ds[3] == v by { NibbleSum(v); }
  }

  lemma NibbleSum(v: cell)
    ensures var ds := Nibbles(v); ((ds[0] * 16 + ds[1]) * 16 + ds[2]) * 16 + ds[3] == v
  {
    assert v / 16 == (v / 0x100) * 16 + v / 0x10 % 16;
    assert v / 0x100 == (v / 0x1000) * 16 + v / 0x100 % 16;
  }

  lemma FourDigits(ds: seq<nat>, base: nat)
    requires |ds| == 4
    ensures Positional(ds, base) == ((ds[0] * base + ds[1]) * base + ds[2]) * base + ds[3]
  {
    assert ds[..3][..2] == ds[..2] && ds[..2][..1] == ds[..1] && ds[..1][..0] == [];
    assert Positional(ds[..1], base) == ds[0];
    assert Positional(ds[..2], base) == ds[0] * base + ds[1];
    assert Positional(ds[..3], base) == (ds[0] * base + ds[1]) * base + ds[2];
  }

  // The lines of a symbol file, parsed.
  function Reparsed(t: seq<Symbol>): (r: seq<Line>)
    ensures |r| == |t| && LinesOk(r)
  {
    seq(|t|, i requires 0 <= i < |t| => Parse(Stripped(DumpLine(t[i]))))
  }

  // Scanning the dump of a table rebuilds the table, in the same order.
  lemma {:induction false} SymbolFileRoundTrip(t: seq<Symbol>)
    requires |t| <= MAX_SYMBOLS && forall i :: 0 <= i < |t| ==> NameOk(t[i].name)
    ensures FirstPass(Reparsed(t)) == Scanned(0, t, true)
    decreases |t|
  {
    hide Parse, Stripped, DumpLine, DefLine, ReadNumber, Digits;
    if t != [] {
      var n := |t| - 1;
      var s := t[n];
      SymbolFileRoundTrip(t[..n]);
      assert Reparsed(t)[..n] == Reparsed(t[..n]);
      assert Reparsed(t)[n] == Parse(Stripped(DumpLine(s)));
      DumpStrips(s);
      DefParses(s);
      HexValue(s.value, t[..n]);
      assert t == t[..n] + [s];
    }
  }
}
