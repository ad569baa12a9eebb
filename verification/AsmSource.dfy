// From the text of a source line to its statement: however a statement is indented,
// spaced, written in capitals or small letters and remarked on, the assembler reads
// it as that statement.
module AsmSource {
  import opened AsmNumbers
  import opened AsmText
  import opened AsmSymbolFile

  const SMALL := "abcdefghijklmnopqrstuvwxyz"
  const CAPITAL := "ABCDEFGHIJKLMNOPQRSTUVWXYZ"

  // y is x, but for a small letter the capital at the same place in the alphabet.
  ghost predicate CapitalOf(x: char, y: char) {
    if x in SMALL then exists i :: 0 <= i < 26 && SMALL[i] == x && CAPITAL[i] == y else x == y
  }

  ghost predicate CapitalsOf(x: string, y: string) {
    |x| == |y| && forall i :: 0 <= i < |x| ==> CapitalOf(x[i], y[i])
  }

  lemma UpperIs(x: char, y: char)
    ensures ToUpper(x) == y <==> CapitalOf(x, y)
  {
    Letters();
    if 'a' <= x <= 'z' {
      var i := x as int - 'a' as int;
      assert SMALL[i] == x && CAPITAL[i] == ToUpper(x);
      if CapitalOf(x, y) {
        var j :| 0 <= j < 26 && SMALL[j] == x && CAPITAL[j] == y;
        assert SMALL[j] as int == 'a' as int + j;
      }
    }
  }

  lemma Letters()
    ensures |SMALL| == |CAPITAL| == 26
    ensures forall i :: 0 <= i < 26 ==> SMALL[i] as int == 'a' as int + i && CAPITAL[i] as int == 'A' as int + i
    ensures forall c :: c in SMALL ==> 'a' <= c <= 'z'
  {
  }

  // White space.
  predicate Space(s: string) {
    forall i :: 0 <= i < |s| ==> IsSpace(s[i])
  }

  // Nothing, or a semicolon and whatever follows it.
  predicate Remark(s: string) {
    s == "" || s[0] == ';'
  }

  // A statement starts and ends with something that is not white space.
  predicate Solid(s: string) {
    s != "" && !IsSpace(s[0]) && !IsSpace(s[|s| - 1])
  }

  lemma {:induction false} RemarkGone(x: string, remark: string)
    requires Ordinary(x) && Remark(remark)
    ensures RemarkLess(x + remark, false) == x
    decreases |x|
  {
    if x == "" {
      assert x + remark == remark;
    } else {
      assert (x + remark)[1..] == x[1..] + remark;
      RemarkGone(x[1..], remark);
    }
  }

  lemma {:induction false} SpacesGone(pad: string, x: string)
    requires Space(pad) && x != "" && !IsSpace(x[0])
    ensures DropSpaces(pad + x) == x
    decreases |pad|
  {
    if pad == "" {
      assert pad + x == x;
    } else {
      assert (pad + x)[1..] == pad[1..] + x;
      SpacesGone(pad[1..], x);
    }
  }

  lemma {:induction false} TrailingGone(x: string, pad: string)
    requires Space(pad) && x != "" && !IsSpace(x[|x| - 1])
    ensures DropTrailing(x + pad) == x
    decreases |pad|
  {
    if pad == "" {
      assert x + pad == x;
    } else {
      assert (x + pad)[..|x + pad| - 1] == x + pad[..|pad| - 1];
      TrailingGone(x, pad[..|pad| - 1]);
    }
  }

  lemma SpaceOrdinary(pad: string)
    requires Space(pad)
    ensures Ordinary(pad)
  {
  }

  lemma UpperSpace(c: char)
    ensures IsSpace(ToUpper(c)) == IsSpace(c) && (IsSpace(c) ==> ToUpper(c) == c)
  {
  }

  lemma UpperPlain(x: string, pad: string, y: string)
    requires Ordinary(x + pad) && Space(pad) && CapitalsOf(x, y)
    ensures UpperCase(x + pad, false, false) == y + pad
  {
    hide IsSpace, ToUpper, CapitalOf, UpperCase;
    NoQuotes(x + pad);
    var upper := UpperCase(x + pad, false, false);
    forall i | 0 <= i < |x| ensures upper[i] == y[i] {
      UpperIs(x[i], y[i]);
      assert (x + pad)[i] == x[i];
    }
    forall i | 0 <= i < |pad| ensures upper[|x| + i] == pad[i] {
      UpperSpace(pad[i]);
      assert (x + pad)[|x| + i] == pad[i];
    }
    assert upper == y + pad;
  }

  // A statement without quotation marks: what is left of its line is the statement in
  // capitals.
  lemma PlainStrips(indent: string, x: string, pad: string, remark: string, y: string)
    requires Space(indent) && Space(pad) && Remark(remark) && Solid(x) && Ordinary(x) && CapitalsOf(x, y)
    ensures var line := indent + x + pad + remark; StripsCleanly(line) && Stripped(line) == y
  {
    hide IsSpace, ToUpper, CapitalOf, UpperCase, DropSpaces, DropTrailing, RemarkLess, Closed, Ordinary;
    var core := indent + x + pad;
    SpaceOrdinary(indent);
    SpaceOrdinary(pad);
    OrdinaryJoin(indent, x);
    OrdinaryJoin(indent + x, pad);
    RemarkGone(core, remark);
    assert core == indent + (x + pad);
    SpacesGone(indent, x + pad);
    OrdinaryJoin(x, pad);
    NoQuotes(x + pad);
    UpperPlain(x, pad, y);
    UpperIs(x[|x| - 1], y[|y| - 1]);
    UpperSpace(x[|x| - 1]);
    TrailingGone(y, pad);
  }

  // A string in double quotes keeps its letters, and may hold semicolons and single
  // quotes.

  lemma {:induction false} QuotedRemark(body: string, rest: string)
    requires '"' !in body
    ensures RemarkLess(body + "\"" + rest, true) == body + "\"" + RemarkLess(rest, false)
    decreases |body|
  {
    var line := body + "\"" + rest;
    if body == "" {
      assert line == "\"" + rest && line[1..] == rest;
    } else {
      assert line[1..] == body[1..] + "\"" + rest;
      QuotedRemark(body[1..], rest);
      assert line[0] == body[0];
    }
  }

  lemma {:induction false} PlainThen(x: string, rest: string)
    requires Ordinary(x)
    ensures RemarkLess(x + rest, false) == x + RemarkLess(rest, false)
    decreases |x|
  {
    if x == "" {
      assert x + rest == rest;
    } else {
      assert (x + rest)[1..] == x[1..] + rest;
      PlainThen(x[1..], rest);
    }
  }

  lemma {:induction false} UpperThen(x: string, rest: string)
    requires Ordinary(x)
    ensures UpperCase(x + rest, false, false) == UpperCase(x, false, false) + UpperCase(rest, false, false)
    ensures Closed(x + rest, false, false) == Closed(rest, false, false)
    decreases |x|
  {
    if x == "" {
      assert x + rest == rest;
    } else {
      assert (x + rest)[1..] == x[1..] + rest;
      UpperThen(x[1..], rest);
    }
  }

  lemma {:induction false} QuotedUpper(body: string, rest: string)
    requires '"' !in body
    ensures UpperCase(body + "\"" + rest, true, false) == body + "\"" + UpperCase(rest, false, false)
    ensures Closed(body + "\"" + rest, true, false) == Closed(rest, false, false)
    decreases |body|
  {
    var line := body + "\"" + rest;
    if body == "" {
      assert line == "\"" + rest && line[1..] == rest;
    } else {
      assert line[1..] == body[1..] + "\"" + rest;
      QuotedUpper(body[1..], rest);
      assert line[0] == body[0];
    }
  }

  lemma QuoteOpens(rest: string)
    ensures RemarkLess("\"" + rest, false) == "\"" + RemarkLess(rest, true)
    ensures UpperCase("\"" + rest, false, false) == "\"" + UpperCase(rest, true, false)
    ensures Closed("\"" + rest, false, false) == Closed(rest, true, false)
  {
    assert ("\"" + rest)[1..] == rest;
  }

  lemma StringStrips(indent: string, x: string, body: string, pad: string, remark: string, y: string)
    requires Space(indent) && Space(pad) && Remark(remark) && x != "" && !IsSpace(x[0]) && Ordinary(x)
    requires CapitalsOf(x, y) && '"' !in body
    ensures var line := indent + x + "\"" + body + "\"" + pad + remark;
            StripsCleanly(line) && Stripped(line) == y + "\"" + body + "\""
  {
    hide IsSpace, ToUpper, CapitalOf, RemarkLess, UpperCase, Closed, DropSpaces, DropTrailing, Ordinary;
    SpaceOrdinary(indent);
    SpaceOrdinary(pad);
    OrdinaryJoin(indent, x);
    var tail := body + "\"" + (pad + remark);
    var line := indent + x + "\"" + body + "\"" + pad + remark;
    assert line == (indent + x) + ("\"" + tail);
    PlainThen(indent + x, "\"" + tail);
    QuoteOpens(tail);
    QuotedRemark(body, pad + remark);
    RemarkGone(pad, remark);
    var kept := body + "\"" + pad;
    assert RemarkLess(line, false) == indent + x + ("\"" + kept);
    assert indent + x + ("\"" + kept) == indent + (x + ("\"" + kept));
    SpacesGone(indent, x + ("\"" + kept));
    UpperThen(x, "\"" + kept);
    QuoteOpens(kept);
    QuotedUpper(body, pad);
    NoQuotes(pad);
    NoQuotes(x);
    forall i | 0 <= i < |x| ensures UpperCase(x, false, false)[i] == y[i] { UpperIs(x[i], y[i]); }
    forall i | 0 <= i < |pad| ensures UpperCase(pad, false, false)[i] == pad[i] { UpperSpace(pad[i]); }
    assert UpperCase(x, false, false) == y && UpperCase(pad, false, false) == pad;
    var core := y + "\"" + body + "\"";
    assert UpperCase(x + ("\"" + kept), false, false) == core + pad;
    assert !IsSpace(core[|core| - 1]) by { QuoteSolid(); }
    TrailingGone(core, pad);
  }

  lemma QuoteSolid()
    ensures !IsSpace('"')
  {
  }

  // Words with blanks between them.

  predicate WordOk(w: string) {
    0 < |w| < MAX_WORD_SIZE && forall i :: 0 <= i < |w| ==> !IsSpace(w[i])
  }

  predicate WordsOk(ws: seq<string>) {
    ws != [] && forall i :: 0 <= i < |ws| ==> WordOk(ws[i])
  }

  function Blanks(n: nat): (r: string)
    ensures |r| == n && forall i :: 0 <= i < n ==> r[i] == ' '
  {
    seq(n, i => ' ')
  }

  function Laid(ws: seq<string>, gaps: seq<nat>): string
    requires ws != [] && |gaps| + 1 == |ws|
  {
    if |ws| == 1 then ws[0] else ws[0] + Blanks(gaps[0] + 1) + Laid(ws[1..], gaps[1..])
  }

  lemma {:induction false} LaidStarts(ws: seq<string>, gaps: seq<nat>)
    requires WordsOk(ws) && |gaps| + 1 == |ws|
    ensures Laid(ws, gaps) != "" && !IsSpace(Laid(ws, gaps)[0]) && Laid(ws, gaps)[0] == ws[0][0]
  {
    hide IsSpace;
    assert WordOk(ws[0]);
  }

  lemma {:induction false} SpacesAre(line: string, i: nat, g: nat)
    requires i + g <= |line| && (forall k :: i <= k < i + g ==> line[k] == ' ')
    requires i + g < |line| ==> !IsSpace(line[i + g])
    ensures SkipSpaces(line, i) == i + g
    decreases g
  {
    if g > 0 { SpacesAre(line, i + 1, g - 1); }
  }

  lemma WordHere(line: string, i: nat, w: string)
    requires WordOk(w) && i + |w| <= |line| && line[i..i + |w|] == w && (i + |w| < |line| ==> line[i + |w|] == ' ')
    ensures LengthAt(line, i) == |w| && WordAt(line, i) == w && SkipWord(line, i) == i + |w| && !IsSpace(line[i])
  {
    hide WordLength, SkipWord, IsSpace;
    forall k | i <= k < i + |w| ensures !IsSpace(line[k]) && line[k] != ' ' {
      assert line[k] == w[k - i];
      BlankIsSpace();
    }
    BlankIsSpace();
    WordIs(line, i, MAX_WORD_SIZE, |w|);
    SkipWordIs(line, i, |w|);
  }

  // Where the first word ends, and the others.
  lemma LaidApart(line: string, i: nat, w: string, g: nat, more: string)
    requires i <= |line| && line[i..] == w + Blanks(g) + more && more != "" && !IsSpace(more[0])
    ensures i + |w| + g < |line| && line[i..i + |w|] == w && line[i + |w| + g..] == more
    ensures SkipSpaces(line, i + |w|) == i + |w| + g && (g > 0 ==> line[i + |w|] == ' ')
  {
    hide SkipSpaces, IsSpace;
    var rest, n := line[i..], |w|;
    assert line[i..i + n] == rest[..n] == w;
    assert rest[n + g..] == more;
    assert line[i + n + g..] == rest[n + g..];
    assert line[i + n + g] == more[0];
    forall k | i + n <= k < i + n + g ensures line[k] == ' ' {
      assert line[k] == rest[k - i] == Blanks(g)[k - i - n];
    }
    SpacesAre(line, i + n, g);
  }

  // The first of the words that stand at i, and where the next one starts.
  lemma FirstLaid(line: string, i: nat, ws: seq<string>, gaps: seq<nat>)
    requires WordsOk(ws) && |gaps| + 1 == |ws| && i <= |line| && line[i..] == Laid(ws, gaps)
    ensures i < |line| && !IsSpace(line[i]) && LengthAt(line, i) == |ws[0]| && WordAt(line, i) == ws[0]
    ensures SkipWord(line, i) == i + |ws[0]|
    ensures |ws| == 1 ==> i + |ws[0]| == |line| && SkipSpaces(line, i + |ws[0]|) == |line|
    ensures |ws| > 1 ==>
              var j := i + |ws[0]| + gaps[0] + 1;
              && j < |line| && SkipSpaces(line, i + |ws[0]|) == j && line[j..] == Laid(ws[1..], gaps[1..])
  {
    hide WordLength, SkipSpaces, SkipWord, IsSpace, GetWord;
    var w := ws[0];
    assert WordOk(w);
    if |ws| > 1 {
      hide Laid;
      LaidShape(ws, gaps);
      LaidStarts(ws[1..], gaps[1..]);
      LaidApart(line, i, w, gaps[0] + 1, Laid(ws[1..], gaps[1..]));
    } else {
      assert line[i..i + |w|] == line[i..] == w;
      SpacesAre(line, i + |w|, 0);
    }
    WordHere(line, i, w);
  }

  lemma LaidShape(ws: seq<string>, gaps: seq<nat>)
    requires WordsOk(ws) && |gaps| + 1 == |ws| > 1
    ensures Laid(ws, gaps) == ws[0] + Blanks(gaps[0] + 1) + Laid(ws[1..], gaps[1..]) && WordsOk(ws[1..])
  {
  }

  lemma {:induction false} WordsLaid(line: string, i: nat, ws: seq<string>, gaps: seq<nat>, k: nat)
    requires WordsOk(ws) && |gaps| + 1 == |ws| && k < 6
    requires i < |line| && !IsSpace(line[i]) && line[i..] == Laid(ws, gaps)
    ensures if k + |ws| <= 6 then Words(line, i, k) == (ws, true) else !Words(line, i, k).1
    decreases |ws|
  {
    hide WordLength, SkipSpaces, SkipWord, Laid, IsSpace, GetWord, Words;
    FirstLaid(line, i, ws, gaps);
    assert |ws[0]| < MAX_WORD_SIZE by { assert WordOk(ws[0]); }
    WordsStep(line, i, k);
    if |ws| > 1 {
      assert WordsOk(ws[1..]);
      var j := i + |ws[0]| + gaps[0] + 1;
      FirstLaid(line, j, ws[1..], gaps[1..]);
      if k + 1 < 6 { WordsLaid(line, j, ws[1..], gaps[1..], k + 1); }
      assert ws == [ws[0]] + ws[1..];
    } else {
      assert ws == [ws[0]];
    }
  }

  lemma WordsStep(line: string, i: nat, k: nat)
    requires i < |line| && !IsSpace(line[i]) && LengthAt(line, i) < MAX_WORD_SIZE
    ensures var j := SkipSpaces(line, i + LengthAt(line, i));
            Words(line, i, k) ==
            if j == |line| then ([WordAt(line, i)], true)
            else if k + 1 == MAX_WORDS then ([WordAt(line, i)], false)
            else ([WordAt(line, i)] + Words(line, j, k + 1).0, Words(line, j, k + 1).1)
  {
    hide WordLength, SkipSpaces, GetWord;
  }

  lemma {:induction false} ValuesLaid(line: string, i: nat, ws: seq<string>, gaps: seq<nat>)
    requires WordsOk(ws) && |gaps| + 1 == |ws| && i <= |line| && line[i..] == Laid(ws, gaps)
    ensures Values(line, i) == ws
    decreases |ws|
  {
    hide WordLength, SkipSpaces, SkipWord, Laid, GetWord;
    FirstLaid(line, i, ws, gaps);
    if |ws| > 1 {
      ValuesLaid(line, i + |ws[0]| + gaps[0] + 1, ws[1..], gaps[1..]);
      assert ws == [ws[0]] + ws[1..];
    } else {
      NoMore(line);
      assert ws == [ws[0]];
    }
  }

  lemma NoMore(line: string)
    ensures Values(line, |line|) == []
  {
  }

  // A statement without a colon in its first word is no label.
  lemma {:induction false} NoLabel(line: string, n: nat)
    requires n <= |line| && (forall k :: 0 <= k < n ==> line[k] != ':') && (n < |line| ==> IsSpace(line[n]))
    ensures !IsLabel(line)
    decreases n
  {
    if n > 0 { NoLabel(line[1..], n - 1); } else { SpaceNoColon(); }
  }

  lemma SpaceNoColon()
    ensures !IsSpace(':')
  {
  }

  lemma LaidNoLabel(ws: seq<string>, gaps: seq<nat>)
    requires WordsOk(ws) && |gaps| + 1 == |ws| && ':' !in ws[0]
    ensures !IsLabel(Laid(ws, gaps))
  {
    hide IsLabel;
    var line, n := Laid(ws, gaps), |ws[0]|;
    if |ws| > 1 {
      assert line[n] == Blanks(gaps[0] + 1)[0];
      BlankIsSpace();
    }
    NoLabel(line, n);
  }

  lemma BlankIsSpace()
    ensures IsSpace(' ')
  {
  }

  // Instructions: a mnemonic and its operands, six words at most; a line with more is
  // passed over.
  lemma CodeParses(ws: seq<string>, gaps: seq<nat>)
    requires WordsOk(ws) && |gaps| + 1 == |ws| && ':' !in ws[0] && ws[0][0] != '.'
    ensures Parse(Laid(ws, gaps)) == if |ws| <= 6 then Code(ws) else Skipped
  {
    hide IsLabel, Laid, Words, ParseDirective;
    var line := Laid(ws, gaps);
    LaidNoLabel(ws, gaps);
    LaidStarts(ws, gaps);
    assert line[0..] == line;
    WordsLaid(line, 0, ws, gaps, 0);
  }

  // Directives: .B with its values, .ORG and .DEF with theirs, .ALIGN with a letter,
  // .W and .L with anything.
  lemma DirectiveParses(ws: seq<string>, gaps: seq<nat>)
    requires WordsOk(ws) && |gaps| + 1 == |ws|
    ensures |ws| > 1 && ws[0] == ".B" ==> Parse(Laid(ws, gaps)) == Bytes(ws[1..])
    ensures |ws| > 1 && ws[0] == ".ORG" ==> Parse(Laid(ws, gaps)) == Org(ws[1])
    ensures |ws| > 2 && ws[0] == ".DEF" ==> Parse(Laid(ws, gaps)) == Def(ws[1], ws[2])
    ensures |ws| > 1 && ws[0] == ".ALIGN" && ws[1][0] == 'W' ==> Parse(Laid(ws, gaps)) == Align(2)
    ensures |ws| > 1 && ws[0] == ".ALIGN" && ws[1][0] == 'L' ==> Parse(Laid(ws, gaps)) == Align(4)
  {
    hide IsLabel, Laid, ParseDirective, ParseCode, ParseBytes, ParseOrg, ParseAlign, ParseDef, IsSpace;
    if ws[0] in {".B", ".ORG", ".DEF", ".ALIGN"} && |ws| > 1 {
      var line := Laid(ws, gaps);
      LaidNoLabel(ws, gaps);
      LaidStarts(ws, gaps);
      assert line[0..] == line;
      OperandsLaid(line, ws, gaps);
      DirectiveNamed(line, ws[0]);
      if ws[0] == ".B" { BytesLaid(line, ws, gaps); }
      if ws[0] == ".ORG" { OrgLaid(line, ws, gaps); }
      if ws[0] == ".DEF" && |ws| > 2 { DefLaid(line, ws, gaps); }
      if ws[0] == ".ALIGN" { AlignLaid(line, ws, gaps); }
    }
  }

  // Where the operands of a directive are.
  lemma OperandsLaid(line: string, ws: seq<string>, gaps: seq<nat>)
    requires WordsOk(ws) && |gaps| + 1 == |ws| > 1 && line == Laid(ws, gaps)
    ensures Operands(line) == |ws[0]| + gaps[0] + 1 < |line| && line[Operands(line)..] == Laid(ws[1..], gaps[1..])
    ensures WordsOk(ws[1..]) && LengthAt(line, 0) == |ws[0]| < MAX_WORD_SIZE && WordAt(line, 0) == ws[0]
  {
    hide WordLength, SkipSpaces, SkipWord, Laid, IsSpace, GetWord;
    assert line[0..] == line;
    FirstLaid(line, 0, ws, gaps);
    assert WordOk(ws[0]);
    LaidShape(ws, gaps);
  }

  lemma DirectiveNamed(line: string, name: string)
    requires LengthAt(line, 0) < MAX_WORD_SIZE && WordAt(line, 0) == name
    ensures name == ".B" ==> ParseDirective(line) == ParseBytes(line)
    ensures name == ".ORG" ==> ParseDirective(line) == ParseOrg(line)
    ensures name == ".DEF" ==> ParseDirective(line) == ParseDef(line)
    ensures name == ".ALIGN" ==> ParseDirective(line) == ParseAlign(line)
  {
    hide WordLength, GetWord, ParseStr, ParseBytes, ParseOrg, ParseDef, ParseAlign;
  }

  lemma BytesLaid(line: string, ws: seq<string>, gaps: seq<nat>)
    requires WordsOk(ws) && |gaps| + 1 == |ws| > 1 && line == Laid(ws, gaps)
    ensures ParseBytes(line) == Bytes(ws[1..])
  {
    hide Laid, Values, Operands;
    OperandsLaid(line, ws, gaps);
    ValuesLaid(line, Operands(line), ws[1..], gaps[1..]);
  }

  lemma OrgLaid(line: string, ws: seq<string>, gaps: seq<nat>)
    requires WordsOk(ws) && |gaps| + 1 == |ws| > 1 && line == Laid(ws, gaps)
    ensures ParseOrg(line) == Org(ws[1])
  {
    hide Laid, Operands, WordLength, GetWord;
    OperandsLaid(line, ws, gaps);
    FirstLaid(line, Operands(line), ws[1..], gaps[1..]);
    assert WordOk(ws[1]);
  }

  lemma DefLaid(line: string, ws: seq<string>, gaps: seq<nat>)
    requires WordsOk(ws) && |gaps| + 1 == |ws| > 2 && line == Laid(ws, gaps)
    ensures ParseDef(line) == Def(ws[1], ws[2])
  {
    hide Laid, Operands, LengthAt, WordAt, SkipSpaces, SkipWord, IsSpace;
    OperandsLaid(line, ws, gaps);
    var i, rest, more := Operands(line), ws[1..], gaps[1..];
    FirstLaid(line, i, rest, more);
    SecondLaid(line, i, rest, more);
    assert WordOk(ws[1]) && WordOk(ws[2]);
  }

  lemma SecondLaid(line: string, i: nat, ws: seq<string>, gaps: seq<nat>)
    requires WordsOk(ws) && |gaps| + 1 == |ws| > 1 && i <= |line| && line[i..] == Laid(ws, gaps)
    ensures SkipWord(line, i) <= |line|
    ensures var j := SkipSpaces(line, SkipWord(line, i)); LengthAt(line, j) == |ws[1]| && WordAt(line, j) == ws[1]
  {
    hide Laid, LengthAt, WordAt, SkipSpaces, SkipWord, IsSpace, WordsOk;
    FirstLaid(line, i, ws, gaps);
    RestOk(ws);
    var j := i + |ws[0]| + gaps[0] + 1;
    assert SkipSpaces(line, SkipWord(line, i)) == j;
    FirstLaid(line, j, ws[1..], gaps[1..]);
    assert ws[1..][0] == ws[1];
  }

  lemma RestOk(ws: seq<string>)
    requires WordsOk(ws) && |ws| > 1
    ensures WordsOk(ws[1..])
  {
    hide WordOk;
  }

  lemma AlignLaid(line: string, ws: seq<string>, gaps: seq<nat>)
    requires WordsOk(ws) && |gaps| + 1 == |ws| > 1 && line == Laid(ws, gaps)
    ensures ws[1] != "" && ParseAlign(line) == if ws[1][0] == 'W' then Align(2) else if ws[1][0] == 'L' then Align(4)
      else Wrong
  {
    hide Laid, Operands, IsSpace;
    OperandsLaid(line, ws, gaps);
    LaidStarts(ws[1..], gaps[1..]);
    assert line[Operands(line)] == line[Operands(line)..][0];
    assert WordOk(ws[1]);
  }

  // A label and its colon.
  lemma LabelParses(name: string, rest: string)
    requires |name| < MAX_SYMBOL_SIZE && ':' !in name && forall i :: 0 <= i < |name| ==> !IsSpace(name[i])
    ensures Parse(name + ":" + rest) == Label(name)
  {
    hide WordLength, IsLabel;
    var line := name + ":" + rest;
    ColonFound(name, rest);
    ColonWord(line, 0, MAX_SYMBOL_SIZE, |name|);
    assert line[0..|name|] == name;
    ColonNoSpace(line, name);
  }

  lemma ColonNoSpace(line: string, name: string)
    requires name <= line && |line| > |name| && line[|name|] == ':' && forall i :: 0 <= i < |name| ==> !IsSpace(name[i])
    ensures line != "" && !IsSpace(line[0])
  {
    if name != "" { assert line[0] == name[0]; } else { SpaceNoColon(); }
  }

  lemma {:induction false} ColonFound(name: string, rest: string)
    requires forall i :: 0 <= i < |name| ==> !IsSpace(name[i])
    ensures IsLabel(name + ":" + rest)
    decreases |name|
  {
    var line := name + ":" + rest;
    if name != "" {
      assert line[1..] == name[1..] + ":" + rest;
      ColonFound(name[1..], rest);
    }
  }

  lemma {:induction false} ColonWord(line: string, i: nat, max: nat, n: nat)
    requires i + n < |line| && n < max && (forall k :: i <= k < i + n ==> line[k] != ':') && line[i + n] == ':'
    ensures WordLength(line, i, ':', max) == n
    decreases n
  {
    if n > 0 { ColonWord(line, i + 1, max - 1, n - 1); }
  }

  lemma {:induction false} QuotedIs(line: string, i: nat, body: string)
    requires i + |body| + 1 <= |line| && line[i..i + |body|] == body && line[i + |body|] == '"' && '"' !in body
    ensures Quoted(line, i) == body
    decreases |body|
  {
    if body != "" {
      assert line[i] == line[i..i + |body|][0] == body[0];
      assert line[i + 1..i + |body|] == line[i..i + |body|][1..] == body[1..];
      QuotedIs(line, i + 1, body[1..]);
    }
  }

  // .STR and its string.
  lemma StringParses(gap: nat, body: string)
    requires '"' !in body
    ensures Parse(".STR" + Blanks(gap + 1) + "\"" + body + "\"") == Str(body)
  {
    hide WordLength, SkipSpaces, IsLabel, Quoted, IsSpace, ParseBytes, ParseDef, ParseOrg, ParseAlign, ParseCode;
    var line := ".STR" + Blanks(gap + 1) + "\"" + body + "\"";
    var j := 5 + gap;
    assert line[..4] == ".STR" && line[0..4] == ".STR";
    forall k | 4 <= k < j ensures line[k] == ' ' {
      assert line[k] == Blanks(gap + 1)[k - 4];
    }
    assert line[j] == '"';
    BlankIsSpace();
    QuoteSolid();
    DotSolid();
    NoLabel(line, 4);
    WordIs(line, 0, MAX_WORD_SIZE, 4);
    SpacesAre(line, 4, gap + 1);
    assert line[j + 1..j + 1 + |body|] == body;
    QuotedIs(line, j + 1, body);
  }

  lemma DotSolid()
    ensures !IsSpace('.')
  {
  }

  // Text and statement together.

  // A line of words, in any case, indented, spaced and with a remark.
  lemma WordsLine(indent: string, x: string, pad: string, remark: string, ws: seq<string>, gaps: seq<nat>)
    requires Space(indent) && Space(pad) && Remark(remark) && Solid(x) && Ordinary(x)
    requires WordsOk(ws) && |gaps| + 1 == |ws| <= 6 && CapitalsOf(x, Laid(ws, gaps))
    requires ':' !in ws[0] && ws[0][0] != '.'
    ensures var line := indent + x + pad + remark; StripsCleanly(line) && Parse(Stripped(line)) == Code(ws)
  {
    hide Laid, IsSpace, Stripped, Parse, CapitalsOf, Ordinary;
    PlainStrips(indent, x, pad, remark, Laid(ws, gaps));
    CodeParses(ws, gaps);
  }

  // A line with a string: the string is as it was written.
  lemma StringLine(indent: string, x: string, gap: nat, body: string, pad: string, remark: string)
    requires Space(indent) && Space(pad) && Remark(remark) && '"' !in body
    requires Ordinary(x) && CapitalsOf(x, ".STR" + Blanks(gap + 1)) && x[0] == '.'
    ensures var line := indent + x + "\"" + body + "\"" + pad + remark;
            StripsCleanly(line) && Parse(Stripped(line)) == Str(body)
  {
    hide IsSpace, Stripped, Parse, CapitalOf, Ordinary;
    DotSolid();
    StringStrips(indent, x, body, pad, remark, ".STR" + Blanks(gap + 1));
    StringParses(gap, body);
  }
}
