// The two passes agree, labels mean the addresses of what follows them, and
// the loaded hex file holds what the second pass emitted.
module AsmTheorem {
  import opened Dataspace
  import opened AsmNumbers
  import opened AsmCode
  import opened AsmText
  import opened AsmPasses
  import opened HexFormat
  import opened HexRoundTrip

  // A line only adds to the table.
  lemma ScanGrows(s: Scanned, line: Line)
    requires LineOk(line)
    ensures s.table <= Scan(s, line).table
  {
    hide ReadNumber, ByteCount;
  }

  lemma {:induction false} ScanAllGrows(s: Scanned, lines: seq<Line>, k: nat)
    requires LinesOk(lines) && k <= |lines|
    ensures ScanAll(s, lines[..k]).table <= ScanAll(s, lines).table
    ensures ScanAll(s, lines).ok ==> ScanAll(s, lines[..k]).ok || k == 0
    decreases |lines| - k
  {
    hide Scan;
    if k == |lines| {
      assert lines[..k] == lines;
    } else {
      ScanAllGrows(s, lines, k + 1);
      assert lines[..k + 1][..k] == lines[..k];
      var r := ScanAll(s, lines[..k]);
      if r.ok { ScanGrows(r, lines[k]); }
    }
  }

  // What both passes read off a symbol of the table so far.
  lemma SameTarget(number: string, t: seq<Symbol>, u: seq<Symbol>)
    requires t <= u && OrgTarget(number, t).Value?
    ensures OrgTarget(number, u) == OrgTarget(number, t)
  {
    hide ReadDigits, ReadBased;
    FoundStays(t, u[|t|..], number);
    assert u == t + u[|t|..];
  }

  // From the same address a line that succeeds in both passes leads to the
  // same address; the second pass may know more symbols.
  lemma StepAgrees(s: Scanned, e: Emitted, line: Line, u: seq<Symbol>)
    requires LineOk(line) && s.address == e.address && s.table <= u
    requires Scan(s, line).ok && EmitLine(e, line, u).ok
    ensures Scan(s, line).address == EmitLine(e, line, u).address
  {
    hide ReadNumber, Generate, EmitBytes, ByteCount, OrgTarget, EmitWords;
    match line
    case Org(number) => SameTarget(number, s.table, u);
    case Code(words) => GeneratedSize(words, e.address, u);
    case _ =>
  }

  // Pass agreement: whenever the second pass gets as far as line k, it does so
  // at the address the first pass had there.
  lemma {:induction false} PassesAgree(lines: seq<Line>, k: nat)
    requires LinesOk(lines) && FirstPass(lines).ok && k <= |lines|
    requires SecondPass(lines[..k], FirstPass(lines).table).ok
    ensures FirstPass(lines[..k]).ok
    ensures SecondPass(lines[..k], FirstPass(lines).table).address == FirstPass(lines[..k]).address
    decreases k
  {
    hide Scan, EmitLine;
    var u := FirstPass(lines).table;
    if k > 0 {
      assert lines[..k][..k - 1] == lines[..k - 1];
      PassesAgree(lines, k - 1);
      ScanAllGrows(START, lines, k);
      ScanAllGrows(START, lines, k - 1);
      StepAgrees(FirstPass(lines[..k - 1]), SecondPass(lines[..k - 1], u), lines[k - 1], u);
    } else {
      assert lines[..0] == [];
    }
  }

  // The symbol line k of the source defines, if it does.
  lemma LabelAdded(s: Scanned, name: string)
    requires Scan(s, Label(name)).ok
    ensures Scan(s, Label(name)).table == s.table + [Symbol(name, s.address)]
  {
  }

  // In the second pass a label that the first pass accepted is never missing,
  // and its address does not match exactly when an earlier symbol of the same
  // name has another value.
  lemma LabelCheck(lines: seq<Line>, k: nat)
    requires LinesOk(lines) && FirstPass(lines).ok && k < |lines| && lines[k].Label?
    requires SecondPass(lines[..k], FirstPass(lines).table).ok
    ensures var t, u, name := FirstPass(lines[..k]).table, FirstPass(lines).table, lines[k].name;
            var a := SecondPass(lines[..k], u).address;
            && FindSymbol(u, name).Value?
            && (SecondPass(lines[..k + 1], u).ok
               <==> (FindSymbol(t, name) == Missing || FindSymbol(t, name) == Value(a)))
  {
    hide Scan, EmitLine, FindSymbol;
    var t, u, name := FirstPass(lines[..k]).table, FirstPass(lines).table, lines[k].name;
    PassesAgree(lines, k);
    ScanAllGrows(START, lines, k + 1);
    assert lines[..k + 1][..k] == lines[..k];
    var s := FirstPass(lines[..k]);
    LabelAdded(s, name);
    var t' := t + [Symbol(name, s.address)];
    assert FirstPass(lines[..k + 1]).table == t';
    FoundStays(t, [Symbol(name, s.address)], name);
    FoundStays(t', u[|t'|..], name);
    assert u == t' + u[|t'|..];
    OneSymbol(name, s.address);
    var e := SecondPass(lines[..k], u);
    assert EmitLine(e, Label(name), u).ok == (FindSymbol(u, name) == Value(e.address)) by { LabelEmits(e, name, u); }
  }

  lemma OneSymbol(name: string, value: cell)
    ensures FindSymbol([Symbol(name, value)], name) == Value(value)
  {
  }

  lemma LabelEmits(e: Emitted, name: string, u: seq<Symbol>)
    ensures EmitLine(e, Label(name), u) == e.(ok := FindSymbol(u, name) == Value(e.address))
  {
  }

  predicate Distinct(t: seq<Symbol>) {
    forall i, j :: 0 <= i < j < |t| ==> t[i].name != t[j].name
  }

  // With distinct names no label check can fail.
  lemma DistinctLabels(lines: seq<Line>, k: nat)
    requires LinesOk(lines) && FirstPass(lines).ok && k < |lines| && lines[k].Label?
    requires SecondPass(lines[..k], FirstPass(lines).table).ok
    requires Distinct(FirstPass(lines).table)
    ensures SecondPass(lines[..k + 1], FirstPass(lines).table).ok
  {
    hide Scan, EmitLine, FindSymbol, ScanAll;
    LabelCheck(lines, k);
    var t, u, name := FirstPass(lines[..k]).table, FirstPass(lines).table, lines[k].name;
    PassesAgree(lines, k);
    ScanAllGrows(START, lines, k + 1);
    ScanStep(lines, k);
    FindsFirst(t, name);
    assert u[|t|].name == name;
    forall i | 0 <= i < |t| ensures t[i].name != name {
      assert u[i] == t[i];
    }
  }

  lemma ScanStep(lines: seq<Line>, k: nat)
    requires LinesOk(lines) && k < |lines| && lines[k].Label? && FirstPass(lines[..k]).ok
             && FirstPass(lines[..k + 1]).ok
    ensures FirstPass(lines[..k + 1]).table ==
            FirstPass(lines[..k]).table + [Symbol(lines[k].name, FirstPass(lines[..k]).address)]
  {
    hide Scan;
    assert lines[..k + 1][..k] == lines[..k];
    LabelAdded(FirstPass(lines[..k]), lines[k].name);
  }

  // Emission keeps the writer's position and the assembler's address together.

  lemma {:induction false} PositionAppend(start: nat, xs: seq<Op>, ys: seq<Op>)
    ensures Position(start, xs + ys) == Position(Position(start, xs), ys)
    decreases |ys|
  {
    if ys == [] {
      assert xs + ys == xs;
    } else {
      assert (xs + ys)[..|xs + ys| - 1] == xs + ys[..|ys| - 1];
      PositionAppend(start, xs, ys[..|ys| - 1]);
    }
  }

  predicate OnlyBytes(ops: seq<Op>) {
    forall i :: 0 <= i < |ops| ==> ops[i].Emit?
  }

  lemma {:induction false} BytesAdvance(start: nat, ops: seq<Op>)
    requires OnlyBytes(ops)
    ensures Position(start, ops) == start + |ops|
    decreases |ops|
  {
    if ops != [] { BytesAdvance(start, ops[..|ops| - 1]); }
  }

  lemma {:induction false} WordsAreBytes(code: seq<cell>)
    ensures OnlyBytes(EmitWords(code))
    ensures forall i :: 0 <= i < |code| ==>
              EmitWords(code)[2 * i] == Emit(code[i] % 0x100) && EmitWords(code)[2 * i + 1] == Emit(code[i] / 0x100)
    decreases |code|
  {
    if code != [] { WordsAreBytes(code[..|code| - 1]); }
  }

  lemma {:induction false} PaddingIsBytes(n: nat)
    ensures OnlyBytes(Padding(n))
    decreases n
  {
    if n > 0 { PaddingIsBytes(n - 1); }
  }

  lemma {:induction false} ValuesAreBytes(words: seq<string>, t: seq<Symbol>)
    ensures OnlyBytes(EmitBytes(words, t).0)
    decreases |words|
  {
    hide ByteValue, ReadNumber;
    if words != [] { ValuesAreBytes(words[1..], t); }
  }

  // A line only adds to the requests.
  lemma LineAdds(e: Emitted, line: Line, t: seq<Symbol>)
    requires LineOk(line)
    ensures e.ops <= EmitLine(e, line, t).ops
  {
    hide EmitBytes, EmitWords, Generate, OrgTarget, ByteCount, Padding, EmitText;
  }

  lemma PositionStep(e: Emitted, line: Line, t: seq<Symbol>)
    requires LineOk(line) && !line.Stub? && EmitLine(e, line, t).ok && e.address == Wrap(Position(0, e.ops))
    ensures EmitLine(e, line, t).address == Wrap(Position(0, EmitLine(e, line, t).ops))
  {
    hide EmitBytes, EmitWords, Generate, OrgTarget, ByteCount, Padding, Position, AlignDelta, Wrap, EmitText, OnlyBytes;
    var p := Position(0, e.ops);
    match line
    case Str(body) =>
      PositionAppend(0, e.ops, EmitText(body));
      BytesAdvance(p, EmitText(body)) by { TextIsBytes(body); }
      WrapAdd(p, |body|);
      TextIsBytes(body);
    case Bytes(words) =>
      var ops := EmitBytes(words, t).0;
      ValuesAreBytes(words, t);
      PositionAppend(0, e.ops, ops);
      BytesAdvance(p, ops);
      WrapAdd(p, |ops|);
    case Org(number) =>
      var a := OrgTarget(number, t).value;
      PositionAppend(0, e.ops, [Origin(a)]);
      OriginPosition(p, a);
      WrapCell(a);
    case Align(unit) =>
      var n := AlignDelta(e.address, unit);
      PaddingIsBytes(n);
      PositionAppend(0, e.ops + Padding(n), [Cut]);
      PositionAppend(0, e.ops, Padding(n));
      BytesAdvance(p, Padding(n));
      CutPosition(p + n);
      WrapAdd(p, n);
    case Code(words) =>
      GeneratedSize(words, e.address, t);
      var g := Generate(words, e.address, t);
      WordsAreBytes(g.code);
      PositionAppend(0, e.ops, EmitWords(g.code));
      BytesAdvance(p, EmitWords(g.code));
      WrapAdd(p, ByteCount(words[0]));
    case _ =>
  }

  lemma WrapAdd(p: nat, n: nat)
    ensures Wrap(Wrap(p) + n) == Wrap(p + n)
  {
  }

  lemma WrapCell(a: cell)
    ensures Wrap(a) == a
  {
  }

  lemma TextIsBytes(body: string)
    ensures OnlyBytes(EmitText(body)) && |EmitText(body)| == |body|
  {
  }

  lemma OriginPosition(p: nat, a: cell)
    ensures Position(p, [Origin(a)]) == a
  {
  }

  lemma CutPosition(p: nat)
    ensures Position(p, [Cut]) == p
  {
    assert [Cut][..0] == [];
  }

  predicate NoStubs(lines: seq<Line>) {
    forall i :: 0 <= i < |lines| ==> !lines[i].Stub?
  }

  // Without .W and .L the assembler's address is, modulo 64K, where the writer
  // puts the next byte.
  lemma {:induction false} AddressIsPosition(lines: seq<Line>, t: seq<Symbol>, k: nat)
    requires LinesOk(lines) && NoStubs(lines) && k <= |lines| && SecondPass(lines[..k], t).ok
    ensures SecondPass(lines[..k], t).address == Wrap(Position(0, SecondPass(lines[..k], t).ops))
    decreases k
  {
    hide EmitLine;
    if k > 0 {
      assert lines[..k][..k - 1] == lines[..k - 1];
      AddressIsPosition(lines, t, k - 1);
      PositionStep(SecondPass(lines[..k - 1], t), lines[k - 1], t);
    } else {
      assert lines[..0] == [];
    }
  }

  lemma {:induction false} SecondPassGrows(lines: seq<Line>, t: seq<Symbol>, k: nat)
    requires LinesOk(lines) && k <= |lines| && SecondPass(lines, t).ok
    ensures SecondPass(lines[..k], t).ok && SecondPass(lines[..k], t).ops <= SecondPass(lines, t).ops
    decreases |lines| - k
  {
    hide EmitLine;
    if k == |lines| {
      assert lines[..k] == lines;
    } else {
      SecondPassGrows(lines, t, k + 1);
      assert lines[..k + 1][..k] == lines[..k];
      if SecondPass(lines[..k], t).ok { LineAdds(SecondPass(lines[..k], t), lines[k], t); }
    }
  }

  // No request from the ith on puts a byte at a.
  ghost predicate Untouched(ops: seq<Op>, i: nat, a: int) {
    forall j :: i <= j < |ops| && ops[j].Emit? ==> Position(0, ops[..j]) != a
  }

  // Bytes emitted in a row go to addresses in a row.
  lemma RowPosition(before: seq<Op>, row: seq<Op>, ops: seq<Op>, j: nat)
    requires before + row <= ops && OnlyBytes(row) && j < |row|
    ensures |before| + j < |ops| && ops[|before| + j] == row[j]
    ensures Position(0, ops[..|before| + j]) == Position(0, before) + j
  {
    assert ops[..|before| + j] == before + row[..j];
    PositionAppend(0, before, row[..j]);
    BytesAdvance(Position(0, before), row[..j]);
  }

  // A byte of the row stays in the image if nothing after the row takes its
  // place.
  lemma RowByte(m: Memory, before: seq<Op>, row: seq<Op>, ops: seq<Op>, j: nat)
    requires before + row <= ops && OnlyBytes(row) && j < |row| && Fits(0, ops)
    requires Untouched(ops, |before| + |row|, Position(0, before) + j)
    ensures Position(0, before) + j < SIZE
    ensures PlaceAll(Image(m, 0), ops).mem[Position(0, before) + j] == row[j].value
  {
    hide PlaceAll, Position;
    var k := |before| + j;
    RowPosition(before, row, ops, j);
    var a := Position(0, before) + j;
    forall i | k < i < |ops| && ops[i].Emit? ensures Position(0, ops[..i]) != a {
      if i < |before| + |row| { RowPosition(before, row, ops, i - |before|); }
    }
    assert LastAt(ops, a, k);
    ImageByte(m, ops, a);
  }

  // The whole chain, assembler to loader: if assembling succeeds and stays
  // inside the address space, the hex file loads, into the image of what the
  // second pass emitted.
  lemma EndToEnd(lines: seq<Line>, m: Memory)
    requires LinesOk(lines) && Assembled(lines).Output?
    requires Fits(0, SecondPass(lines, FirstPass(lines).table).ops)
    ensures LoadText(Assembled(lines).text, m) ==
            Loaded(true, PlaceAll(Image(m, 0), SecondPass(lines, FirstPass(lines).table).ops).mem)
  {
    hide FirstPass, SecondPass, LoadText, PlaceAll, Fits;
    RoundTrip(m, SecondPass(lines, FirstPass(lines).table).ops);
  }

  // Every word of an instruction line is in the loaded memory at the address
  // the line had, forward references included, unless a later line overwrote it.
  lemma InstructionLoaded(lines: seq<Line>, m: Memory, k: nat, j: nat)
    requires LinesOk(lines) && NoStubs(lines) && Assembled(lines).Output? && k < |lines| && lines[k].Code?
    requires ByteCount(lines[k].words[0]) > 0
    requires Fits(0, SecondPass(lines, FirstPass(lines).table).ops)
    requires var u := FirstPass(lines).table;
             var e := SecondPass(lines[..k], u);
             j < |Generate(lines[k].words, e.address, u).code|
    requires var u := FirstPass(lines).table;
             var ops := SecondPass(lines, u).ops;
             var a := SecondPass(lines[..k], u).address + 2 * j;
             Untouched(ops, |SecondPass(lines[..k + 1], u).ops|, a)
               && Untouched(ops, |SecondPass(lines[..k + 1], u).ops|, a + 1)
    ensures var u := FirstPass(lines).table;
            var a := SecondPass(lines[..k], u).address;
            && a + 2 * j + 1 < SIZE
            && LoadText(Assembled(lines).text, m).Loaded?
            && Fetch16(LoadText(Assembled(lines).text, m).mem, a + 2 * j) == Generate(lines[k].words, a, u).code[j]
  {
    hide LoadText, PlaceAll, Fits, Untouched, Scan, EmitLine, Generate, EmitWords, Position, Assembled;
    EndToEnd(lines, m);
    var u := FirstPass(lines).table;
    assert SecondPass(lines, u).ok by { AssembledOk(lines); }
    var ops := SecondPass(lines, u).ops;
    SecondPassGrows(lines, u, k);
    SecondPassGrows(lines, u, k + 1);
    var e, e' := SecondPass(lines[..k], u), SecondPass(lines[..k + 1], u);
    AddressIsPosition(lines, u, k);
    CodeAdds(lines, u, k);
    var g := Generate(lines[k].words, e.address, u);
    var row := EmitWords(g.code);
    WordsAreBytes(g.code);
    assert e.address == Position(0, e.ops) by { InsideAddress(e.ops, row, ops); }
    RowByte(m, e.ops, row, ops, 2 * j);
    RowByte(m, e.ops, row, ops, 2 * j + 1);
    assert g.code[j] == g.code[j] % 0x100 + 0x100 * (g.code[j] / 0x100);
  }

  lemma AssembledOk(lines: seq<Line>)
    requires LinesOk(lines) && Assembled(lines).Output?
    ensures FirstPass(lines).ok && SecondPass(lines, FirstPass(lines).table).ok
  {
    hide FirstPass, SecondPass;
  }

  lemma InsideAddress(before: seq<Op>, row: seq<Op>, ops: seq<Op>)
    requires before + row <= ops && row != [] && OnlyBytes(row) && Fits(0, ops)
    ensures Position(0, before) == Wrap(Position(0, before))
  {
    hide Position;
    assert ops[|before|] == row[0] && ops[..|before|] == before;
  }

  lemma CodeAdds(lines: seq<Line>, u: seq<Symbol>, k: nat)
    requires LinesOk(lines) && k < |lines| && lines[k].Code? && ByteCount(lines[k].words[0]) > 0
    requires SecondPass(lines[..k], u).ok
    ensures SecondPass(lines[..k + 1], u).ops ==
            SecondPass(lines[..k], u).ops
              + EmitWords(Generate(lines[k].words, SecondPass(lines[..k], u).address, u).code)
  {
    hide Generate, EmitWords;
    assert lines[..k + 1][..k] == lines[..k];
    assert lines[..k + 1][k] == lines[k];
  }

  // The value the table gives a label is where the writer puts the next byte
  // after it, whether it is used before or after its definition.
  lemma LabelIsAddress(lines: seq<Line>, k: nat)
    requires LinesOk(lines) && NoStubs(lines) && Assembled(lines).Output? && k < |lines| && lines[k].Label?
    ensures var u := FirstPass(lines).table;
            FindSymbol(u, lines[k].name) == Value(Wrap(Position(0, SecondPass(lines[..k + 1], u).ops)))
  {
    hide EmitLine, Position, FindSymbol, FirstPass, Wrap;
    AssembledOk(lines);
    var u := FirstPass(lines).table;
    SecondPassGrows(lines, u, k);
    SecondPassGrows(lines, u, k + 1);
    assert lines[..k + 1][..k] == lines[..k] && lines[..k + 1][k] == lines[k];
    AddressIsPosition(lines, u, k);
    LabelEmits(SecondPass(lines[..k], u), lines[k].name, u);
  }
}
