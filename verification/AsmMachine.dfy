// The assembler as the program keeps it: a symbol table, an address and the
// hex writer, updated line by line in two passes over the source.
module AsmMachine {
  import opened Dataspace
  import opened AsmNumbers
  import opened AsmCode
  import opened AsmText
  import opened AsmParser
  import opened AsmPasses
  import opened HexFormat
  import opened HexRoundTrip
  import opened HexOutput
  import opened AsmTheorem

  lemma {:induction false} DoAllAppend(w: Writer, xs: seq<Op>, ys: seq<Op>)
    requires WriterOk(w)
    ensures DoAll(w, xs + ys) == DoAll(DoAll(w, xs), ys)
    decreases |ys|
  {
    hide Do;
    if ys == [] {
      assert xs + ys == xs;
    } else {
      assert (xs + ys)[..|xs + ys| - 1] == xs + ys[..|ys| - 1];
      DoAllAppend(w, xs, ys[..|ys| - 1]);
    }
  }

  lemma DoOne(w: Writer, op: Op)
    requires WriterOk(w)
    ensures DoAll(w, [op]) == Do(w, op)
  {
    hide Do;
    assert [op][..0] == [];
  }

  lemma DoNext(w: Writer, xs: seq<Op>, op: Op)
    requires WriterOk(w)
    ensures DoAll(w, xs + [op]) == Do(DoAll(w, xs), op)
  {
    hide Do;
    DoAllAppend(w, xs, [op]);
    DoOne(DoAll(w, xs), op);
  }

  // What a line does depends on the requests before it only in coming after
  // them.
  lemma LineShift(a: cell, ops: seq<Op>, line: Line, t: seq<Symbol>)
    requires LineOk(line)
    ensures var e, f := EmitLine(Emitted(a, ops, true), line, t), EmitLine(Emitted(a, [], true), line, t);
            e == f.(ops := ops + f.ops)
  {
    hide EmitBytes, EmitWords, Generate, OrgTarget, ByteCount, Padding, EmitText, FindSymbol;
  }

  // The statements of a source text.
  function ParseAll(source: seq<string>): (r: seq<Line>)
    ensures |r| == |source| && LinesOk(r)
  {
    seq(|source|, i requires 0 <= i < |source| => Parse(Stripped(source[i])))
  }

  // What running the two passes must leave.
  ghost predicate Finished(lines: seq<Line>, ok: bool, out: string, table: seq<Symbol>)
    requires LinesOk(lines)
  {
    match Assembled(lines)
    case Output(text, t) => ok && out == text && table == t
    case Error => !ok
  }

  // The state of the passes before line i of phase 0 or 1.
  ghost predicate Reached(lines: seq<Line>, phase: nat, i: nat, address: cell, table: seq<Symbol>, w: Writer, ok: bool)
    requires LinesOk(lines) && i <= |lines|
  {
    if phase == 0 then w == Writer("", 0, []) && Scanned(address, table, ok) == FirstPass(lines[..i])
    else
      var s := FirstPass(lines);
      s.ok && table == s.table
      && var e := SecondPass(lines[..i], table);
         address == e.address && ok == e.ok && w == DoAll(Writer("", 0, []), e.ops)
  }

  lemma ReachedScan(lines: seq<Line>, i: nat, s: Scanned, s': Scanned)
    requires LinesOk(lines) && i < |lines| && s == FirstPass(lines[..i]) && s.ok && s' == Scan(s, lines[i])
    ensures s' == FirstPass(lines[..i + 1])
  {
    hide Scan;
    assert lines[..i + 1][..i] == lines[..i] && lines[..i + 1][i] == lines[i];
  }

  lemma ReachedEmit(lines: seq<Line>, i: nat, t: seq<Symbol>, e: Emitted, w: Writer)
    requires LinesOk(lines) && i < |lines| && e == SecondPass(lines[..i], t) && e.ok
    requires w == DoAll(Writer("", 0, []), e.ops)
    ensures var f := Effect(e.address, lines[i], t);
            var e' := SecondPass(lines[..i + 1], t);
            e'.address == f.address && e'.ok == f.ok && DoAll(w, f.ops) == DoAll(Writer("", 0, []), e'.ops)
  {
    hide EmitLine, DoAll;
    assert lines[..i + 1][..i] == lines[..i] && lines[..i + 1][i] == lines[i];
    LineShift(e.address, e.ops, lines[i], t);
    DoAllAppend(Writer("", 0, []), e.ops, Effect(e.address, lines[i], t).ops);
  }

  lemma Starts(lines: seq<Line>, phase: nat, table: seq<Symbol>)
    requires LinesOk(lines)
    requires if phase == 0 then table == [] else FirstPass(lines).ok && table == FirstPass(lines).table
    ensures Reached(lines, phase, 0, 0, table, Writer("", 0, []), true)
  {
    assert lines[..0] == [];
  }

  lemma PassEnds(lines: seq<Line>, phase: nat, address: cell, table: seq<Symbol>, w: Writer)
    requires LinesOk(lines) && Reached(lines, phase, |lines|, address, table, w, true)
    ensures phase == 0 ==> FirstPass(lines) == Scanned(address, table, true) && w == Writer("", 0, [])
  {
    hide FirstPass, SecondPass;
    assert lines[..|lines|] == lines;
  }

  lemma Ends(lines: seq<Line>, address: cell, table: seq<Symbol>, w: Writer)
    requires LinesOk(lines) && Reached(lines, 1, |lines|, address, table, w, true) && WriterOk(w)
    ensures Assembled(lines) == Output(Flush(w).out + END_OF_FILE, table)
  {
    hide FirstPass, SecondPass, DoAll, Flush;
    assert lines[..|lines|] == lines;
  }

  lemma StrippedIs(raw: string)
    ensures Stripped(raw) == DropTrailing(UpperCase(DropSpaces(RemarkLess(raw, false)), false, false))
  {
  }

  // A pass that fails on the way fails.
  lemma FailsForGood(lines: seq<Line>, phase: nat, i: nat, address: cell, table: seq<Symbol>, w: Writer)
    requires LinesOk(lines) && i <= |lines| && Reached(lines, phase, i, address, table, w, false)
    ensures Assembled(lines) == Error
  {
    hide Scan, EmitLine, DoAll;
    assert lines[..0] == [];
    if phase == 0 {
      ScanAllGrows(START, lines, i);
    } else if SecondPass(lines, table).ok {
      SecondPassGrows(lines, table, i);
    }
  }

  // One line emitted: address, requests, no error.
  ghost function Effect(a: cell, line: Line, t: seq<Symbol>): Emitted
    requires LineOk(line)
  {
    EmitLine(Emitted(a, [], true), line, t)
  }

  class Assembler {
    var table: seq<Symbol>
    var address: cell
    const writer: HexWriter

    ghost predicate Valid()
      reads this, writer
    {
      writer.Valid()
    }

    constructor ()
      ensures Valid() && fresh(writer) && fresh(writer.buffer) && table == [] && address == 0
      ensures writer.State() == Writer("", 0, [])
    {
      table, address := [], 0;
      writer := new HexWriter();
    }

    // find_symbol.
    method Find(name: string) returns (r: Search)
      ensures r == FindSymbol(table, name)
    {
      var i := 0;
      assert table[0..] == table;
      while i < |table|
        invariant 0 <= i <= |table| && FindSymbol(table[i..], name) == FindSymbol(table, name)
      {
        assert table[i..][0] == table[i] && table[i..][1..] == table[i + 1..];
        if table[i].name == name {
          return Value(table[i].value);
        }
        i := i + 1;
      }
      r := Missing;
    }

    // add_symbol.
    method Add(name: string, value: cell) returns (ok: bool)
      modifies this`table
      ensures Scanned(address, table, ok) == AddSymbol(Scanned(address, old(table), true), name, value)
    {
      ok := |table| < MAX_SYMBOLS;
      if ok {
        table := table + [Symbol(name, value)];
      }
    }

    // The digit loop of read_number.
    method ReadDigitLoop(word: string, start: nat, base: nat, result0: int, negative: bool) returns (r: Number)
      requires start <= |word|
      ensures r == ReadDigits(word, start, base, result0, negative)
    {
      hide ToDigit;
      var i := start;
      var result := result0;
      while i < |word|
        invariant start <= i <= |word|
        invariant ReadDigits(word, i, base, result, negative) == ReadDigits(word, start, base, result0, negative)
      {
        result := result * base;
        if word[i] == '-' {
          if negative {
            return Malformed;
          }
        } else {
          var d := ToDigit(word[i], base);
          if d < 0 {
            return Malformed;
          }
          result := result + d;
        }
        i := i + 1;
      }
      if negative {
        result := 0 - result;
      }
      r := Number(result, negative);
    }

    // read_number.
    method ReadWord(word: string) returns (r: Number)
      ensures r == ReadNumber(word, table)
    {
      hide ReadDigits, ToDigit, FindSymbol;
      if word == "" {
        var s := Find(word);
        r := match s case Value(v) => Number(v, false) case Missing => NoSuchLabel;
      } else if word[0] == '\'' {
        r := if |word| == 3 && word[2] == '\'' then Number(word[1] as int, false) else Malformed;
      } else if word[0] == '%' || word[0] == '#' || word[0] == '$' {
        var base := if word[0] == '%' then 2 else if word[0] == '#' then 10 else 16;
        if |word| <= 1 {
          return Malformed;
        }
        var negative := word[1] == '-';
        if negative && |word| == 2 && base != 16 {
          return Malformed;
        }
        r := ReadDigitLoop(word, if negative then 2 else 1, base, 0, negative);
      } else if word[0] == '-' {
        r := ReadDigitLoop(word, 1, 10, 0, true);
      } else if ToDigit(word[0], 10) >= 0 {
        r := ReadDigitLoop(word, 1, 10, ToDigit(word[0], 10), false);
      } else {
        var s := Find(word);
        r := match s case Value(v) => Number(v, false) case Missing => NoSuchLabel;
      }
    }

    // The operand of .ORG.
    method ReadOrigin(number: string) returns (r: Search)
      ensures r == OrgTarget(number, table)
    {
      hide ReadNumber;
      var n := ReadWord(number);
      match n
      case Number(v, negative) => r := if negative || v > 0xFFFF || v < 0 then Missing else Value(v);
      case _ => r := Missing;
    }

    // The first pass on one line.
    method ScanLine(line: Line) returns (ok: bool)
      requires LineOk(line)
      modifies this`table, this`address
      ensures Scanned(address, table, ok) == Scan(old(Scanned(address, table, true)), line)
    {
      hide ReadNumber, OrgTarget, ByteCount, AlignDelta, Wrap;
      ok := true;
      match line
      case Label(name) =>
        ok := Add(name, address);
      case Str(body) =>
        address := Wrap(address + |body|);
      case Bytes(words) =>
        address := Wrap(address + |words|);
      case Def(symbol, number) =>
        var n := ReadWord(number);
        if !n.Number? || n.value > 65535 || n.value < -32768 {
          ok := false;
        } else {
          ok := Add(symbol, Wrap(n.value));
        }
      case Org(number) =>
        var a := ReadOrigin(number);
        if a.Value? {
          address := a.value;
        } else {
          ok := false;
        }
      case Align(unit) =>
        address := Wrap(address + AlignDelta(address, unit));
      case Stub =>
        address := 0;
      case Code(words) =>
        if ByteCount(words[0]) == 0 {
          ok := false;
        } else {
          address := Wrap(address + ByteCount(words[0]));
        }
      case LongLabel => ok := false;
      case BadDef => ok := false;
      case Wrong => ok := false;
      case Blank =>
      case Skipped =>
    }

    // emit_code: low byte first.
    method EmitWord(word: cell)
      requires Valid()
      modifies writer, writer.buffer
      ensures Valid()
      ensures writer.State() == DoAll(old(writer.State()), [Emit(word % 0x100), Emit(word / 0x100)])
    {
      hide DoAll, Push;
      ghost var w := writer.State();
      writer.PushByte(word % 0x100);
      writer.PushByte(word / 0x100);
      DoOne(w, Emit(word % 0x100));
      DoNext(w, [Emit(word % 0x100)], Emit(word / 0x100));
      assert [Emit(word % 0x100)] + [Emit(word / 0x100)] == [Emit(word % 0x100), Emit(word / 0x100)];
    }

    // The words a generator emits.
    method EmitCodeWords(code: seq<cell>)
      requires Valid()
      modifies writer, writer.buffer
      ensures Valid() && writer.State() == DoAll(old(writer.State()), EmitWords(code))
    {
      hide DoAll;
      ghost var w := writer.State();
      var i := 0;
      assert code[..0] == [] && DoAll(w, []) == w by { DoNothing(w); }
      while i < |code|
        invariant 0 <= i <= |code| && Valid() && writer.State() == DoAll(w, EmitWords(code[..i]))
      {
        EmitWord(code[i]);
        assert code[..i + 1][..i] == code[..i];
        DoAllAppend(w, EmitWords(code[..i]), [Emit(code[i] % 0x100), Emit(code[i] / 0x100)]);
        i := i + 1;
      }
      assert code[..i] == code;
    }

    // .STR: one byte for each character.
    method EmitCharacters(body: string)
      requires Valid()
      modifies writer, writer.buffer
      ensures Valid() && writer.State() == DoAll(old(writer.State()), EmitText(body))
    {
      hide DoAll, Push;
      ghost var w := writer.State();
      var i := 0;
      assert EmitText(body)[..0] == [] && DoAll(w, []) == w by { DoNothing(w); }
      while i < |body|
        invariant 0 <= i <= |body| && Valid() && writer.State() == DoAll(w, EmitText(body)[..i])
      {
        writer.PushByte(body[i] as int % 0x100);
        assert EmitText(body)[..i + 1] == EmitText(body)[..i] + [Emit(body[i] as int % 0x100)];
        DoNext(w, EmitText(body)[..i], Emit(body[i] as int % 0x100));
        i := i + 1;
      }
      assert EmitText(body)[..i] == EmitText(body);
    }

    // .ALIGN: padding, then a flush.
    method EmitPadding(n: nat)
      requires Valid()
      modifies writer, writer.buffer
      ensures Valid() && writer.State() == DoAll(old(writer.State()), Padding(n) + [Cut])
    {
      hide DoAll, Push, Flush;
      ghost var w := writer.State();
      var i := 0;
      assert DoAll(w, []) == w by { DoNothing(w); }
      while i < n
        invariant 0 <= i <= n && Valid() && writer.State() == DoAll(w, Padding(i))
      {
        writer.PushByte(0xAA);
        DoNext(w, Padding(i), Emit(0xAA));
        i := i + 1;
      }
      writer.FlushBytes();
      DoNext(w, Padding(n), Cut);
    }

    // .B: the values are read and emitted one by one.
    method EmitValues(words: seq<string>) returns (count: nat, ok: bool)
      requires Valid()
      modifies writer, writer.buffer
      ensures Valid() && writer.State() == DoAll(old(writer.State()), EmitBytes(words, table).0)
      ensures count == EmitBytes(words, table).1 && ok == EmitBytes(words, table).2
    {
      hide DoAll, Push, ReadNumber, ByteValue, EmitBytes;
      ghost var w := writer.State();
      ghost var all := EmitBytes(words, table);
      ghost var done: seq<Op> := [];
      count, ok := 0, true;
      assert DoAll(w, []) == w by { DoNothing(w); }
      assert words[0..] == words && [] + all.0 == all.0;
      while count < |words|
        invariant 0 <= count <= |words| && Valid() && writer.State() == DoAll(w, done)
        invariant var rest := EmitBytes(words[count..], table);
                  all.0 == done + rest.0 && all.1 == count + rest.1 && all.2 == (ok && rest.2)
      {
        var word := words[count];
        ValuesStep(words[count..], table);
        assert words[count..][0] == word && words[count..][1..] == words[count + 1..];
        var n := ReadWord(word);
        var b := ValueToByte(n, word);
        ghost var rest := EmitBytes(words[count + 1..], table).0;
        count := count + 1;
        if b.Value? {
          assert done + ([Emit(b.value % 0x100)] + rest) == done + [Emit(b.value % 0x100)] + rest;
          writer.PushByte(b.value % 0x100);
          DoNext(w, done, Emit(b.value % 0x100));
          done := done + [Emit(b.value % 0x100)];
        } else {
          ok := false;
          if n.Number? {
            assert done + [] == done;
            return;
          }
        }
      }
      assert words[count..] == [] && done + [] == done;
      NoValues(table);
    }

    method ValueToByte(n: Number, ghost word: string) returns (r: Search)
      requires n == ReadNumber(word, table)
      ensures r == ByteValue(word, table)
    {
      hide ReadNumber;
      r := Missing;
      if n.Number? {
        if n.negative && -128 <= n.value < 128 {
          r := Value(n.value % 0x100);
        } else if !n.negative && 0 <= n.value < 256 {
          r := Value(n.value);
        }
      }
    }

    // parse_instruction in the second pass.
    method EmitInstruction(words: seq<string>) returns (ok: bool)
      requires Valid() && words != []
      modifies this`address, writer, writer.buffer
      ensures Valid()
      ensures var e := EmitCode(Emitted(old(address), [], true), words, table);
              address == e.address && ok == e.ok && writer.State() == DoAll(old(writer.State()), e.ops)
    {
      hide Generate, EmitWords, ByteCount, DoAll, Wrap;
      ghost var w := writer.State();
      assert DoAll(w, []) == w by { DoNothing(w); }
      if ByteCount(words[0]) == 0 {
        return false;
      }
      var g := Generate(words, address, table);
      EmitCodeWords(g.code);
      assert [] + EmitWords(g.code) == EmitWords(g.code);
      ok := g.ok && Wrap(g.next - address) == ByteCount(words[0]);
      address := g.next;
    }

    // check_label.
    method CheckLabel(name: string) returns (ok: bool)
      ensures ok == (FindSymbol(table, name) == Value(address))
    {
      hide FindSymbol;
      var s := Find(name);
      ok := s.Value? && s.value == address;
    }

    // The second pass on one line.
    method AssembleLine(line: Line) returns (ok: bool)
      requires Valid() && LineOk(line)
      modifies this`address, writer, writer.buffer
      ensures Valid()
      ensures var e := Effect(old(address), line, table);
              address == e.address && ok == e.ok && writer.State() == DoAll(old(writer.State()), e.ops)
    {
      hide EmitBytes, EmitCode, OrgTarget, Padding, EmitText, FindSymbol, DoAll, Wrap, AlignDelta, Flush, SetStart;
      hide WriterOk;
      ghost var w := writer.State();
      DoNothing(w);
      Joined(line, address, table);
      ok := true;
      match line
      case Label(name) =>
        ok := CheckLabel(name);
      case Str(body) =>
        EmitCharacters(body);
        address := Wrap(address + |body|);
      case Bytes(words) =>
        var count;
        count, ok := EmitValues(words);
        address := Wrap(address + count);
      case Org(number) =>
        var a := ReadOrigin(number);
        if a.Value? {
          address := a.value;
          writer.FlushBytes();
          writer.SetStartAddress(a.value);
          DoOne(w, Origin(a.value));
        } else {
          ok := false;
        }
      case Align(unit) =>
        var delta := AlignDelta(address, unit);
        EmitPadding(delta);
        address := Wrap(address + delta);
      case Stub =>
        address := 0;
      case Code(words) =>
        ok := EmitInstruction(words);
      case LongLabel => ok := false;
      case Wrong => ok := false;
      case Def(_, _) =>
      case BadDef =>
      case Blank =>
      case Skipped =>
    }

    // The next line, in either phase.
    method OneLine(line: Line, phase: nat, ghost lines: seq<Line>, ghost i: nat) returns (ok: bool)
      requires Valid() && phase < 2 && LinesOk(lines) && i < |lines| && line == lines[i]
      requires Reached(lines, phase, i, address, table, writer.State(), true)
      modifies this`table, this`address, writer, writer.buffer
      ensures Valid() && Reached(lines, phase, i + 1, address, table, writer.State(), ok)
    {
      hide DoAll, FirstPass, SecondPass, EmitLine, Scan, Effect;
      if phase == 0 {
        ghost var s := Scanned(address, table, true);
        ok := ScanLine(line);
        ReachedScan(lines, i, s, Scanned(address, table, ok));
      } else {
        ReachedEmit(lines, i, table, SecondPass(lines[..i], table), writer.State());
        ok := AssembleLine(line);
      }
    }

    // assemble: both passes over the same source; the writer starts at 0 in
    // each, the file is ended only when both succeed.
    method Assemble(source: seq<string>) returns (ok: bool)
      requires Valid() && table == [] && writer.State() == Writer("", 0, [])
      requires forall i :: 0 <= i < |source| ==> StripsCleanly(source[i])
      modifies this`table, this`address, writer, writer.buffer
      ensures Valid() && Finished(ParseAll(source), ok, writer.out, table)
    {
      hide DoAll, FirstPass, SecondPass, Reached, Assembled, EmitLine, Scan, Parse, Stripped, StripsCleanly, Effect;
      ghost var lines := ParseAll(source);
      ok := true;
      var phase := 0;
      while phase < 2 && ok
        invariant 0 <= phase <= 2 && Valid()
        invariant phase == 0 ==> ok && table == [] && writer.State() == Writer("", 0, [])
        invariant phase == 1 && ok ==> FirstPass(lines) == Scanned(address, table, true)
        invariant phase == 1 && ok ==> writer.State() == Writer("", 0, [])
        invariant phase == 2 && ok ==> Reached(lines, 1, |lines|, address, table, writer.State(), true)
        invariant !ok ==> Assembled(lines) == Error
        decreases 2 - phase
      {
        address := 0;
        writer.SetStartAddress(0);
        var i := 0;
        Starts(lines, phase, table);
        while i < |source| && ok
          invariant 0 <= i <= |source| && Valid() && Reached(lines, phase, i, address, table, writer.State(), ok)
        {
          assert lines[i] == Parse(Stripped(source[i]));
          var text := StripRemarks(source[i]);
          var clean;
          text, clean := Strip(text);
          assert text == Stripped(source[i]) by { StrippedIs(source[i]); }
          var line := ReadLine(text);
          ok := OneLine(line, phase, lines, i);
          i := i + 1;
        }
        if !ok {
          FailsForGood(lines, phase, i, address, table, writer.State());
        } else {
          PassEnds(lines, phase, address, table, writer.State());
        }
        phase := phase + 1;
      }
      if ok {
        Ends(lines, address, table, writer.State());
        writer.FlushBytes();
        writer.WriteEndOfFile();
      }
    }
  }

  lemma NoValues(t: seq<Symbol>)
    ensures EmitBytes([], t) == ([], 0, true)
  {
  }

  lemma ValuesStep(words: seq<string>, t: seq<Symbol>)
    requires words != []
    ensures var rest := EmitBytes(words[1..], t);
            match ByteValue(words[0], t)
            case Value(b) => EmitBytes(words, t) == ([Emit(b % 0x100)] + rest.0, rest.1 + 1, rest.2)
            case Missing =>
              EmitBytes(words, t) == if ReadNumber(words[0], t).Number? then ([], 1, false)
                else (rest.0, rest.1 + 1, false)
  {
    hide ByteValue, ReadNumber;
  }

  lemma DoNothing(w: Writer)
    requires WriterOk(w)
    ensures DoAll(w, []) == w
  {
  }

  lemma Joined(line: Line, a: cell, t: seq<Symbol>)
    requires LineOk(line)
    ensures line.Str? ==> Effect(a, line, t).ops == EmitText(line.body)
    ensures line.Bytes? ==> Effect(a, line, t).ops == EmitBytes(line.words, t).0
    ensures line.Align? ==> Effect(a, line, t).ops == Padding(AlignDelta(a, line.unit)) + [Cut]
    ensures line.Org? && OrgTarget(line.number, t).Value? ==>
            Effect(a, line, t).ops == [Origin(OrgTarget(line.number, t).value)]
  {
    hide EmitBytes, OrgTarget, Padding, EmitText, FindSymbol, EmitCode, AlignDelta, Wrap;
  }
}
