// What the data directives leave in memory once the assembled text is loaded,
// read off the source line.
module AsmData {
  import opened Dataspace
  import opened AsmNumbers
  import opened AsmCode
  import opened AsmText
  import opened AsmPasses
  import opened AsmTheorem
  import opened HexFormat
  import opened HexRoundTrip

  // The source is assembled and stays inside the address space.
  ghost predicate Placed(lines: seq<Line>) {
    && LinesOk(lines) && NoStubs(lines) && Assembled(lines).Output?
    && Fits(0, SecondPass(lines, FirstPass(lines).table).ops)
  }

  // Where line k starts.
  ghost function AddressOf(lines: seq<Line>, k: nat): cell
    requires LinesOk(lines) && k <= |lines|
  {
    SecondPass(lines[..k], FirstPass(lines).table).address
  }

  // No line behind line k puts a byte at a.
  ghost predicate Unchanged(lines: seq<Line>, k: nat, a: int)
    requires LinesOk(lines) && k < |lines|
  {
    var u := FirstPass(lines).table;
    Untouched(SecondPass(lines, u).ops, |SecondPass(lines[..k + 1], u).ops|, a)
  }

  ghost function Memory64K(lines: seq<Line>, m: Memory): Memory
    requires LinesOk(lines) && Assembled(lines).Output? && LoadText(Assembled(lines).text, m).Loaded?
  {
    LoadText(Assembled(lines).text, m).mem
  }

  // A line that adds a row of bytes, and nothing behind them but a cut.
  lemma RowLoaded(lines: seq<Line>, m: Memory, k: nat, row: seq<Op>, j: nat)
    requires Placed(lines) && k < |lines| && OnlyBytes(row) && j < |row|
    requires var u := FirstPass(lines).table;
             SecondPass(lines[..k + 1], u).ops in
             {SecondPass(lines[..k], u).ops + row, SecondPass(lines[..k], u).ops + row + [Cut]}
    requires Unchanged(lines, k, AddressOf(lines, k) as int + j)
    ensures LoadText(Assembled(lines).text, m).Loaded? && AddressOf(lines, k) as int + j < SIZE
    ensures Memory64K(lines, m)[AddressOf(lines, k) as int + j] == row[j].value
  {
    hide LoadText, PlaceAll, Fits, EmitLine, Position, Assembled;
    EndToEnd(lines, m);
    var u := FirstPass(lines).table;
    assert SecondPass(lines, u).ok by { AssembledOk(lines); }
    var ops := SecondPass(lines, u).ops;
    SecondPassGrows(lines, u, k);
    SecondPassGrows(lines, u, k + 1);
    var e := SecondPass(lines[..k], u);
    AddressIsPosition(lines, u, k);
    assert e.ops + row <= ops;
    assert e.address == Position(0, e.ops) by { InsideAddress(e.ops, row, ops); }
    RowByte(m, e.ops, row, ops, j);
  }

  lemma LineEmits(lines: seq<Line>, k: nat)
    requires Placed(lines) && k < |lines|
    ensures var u := FirstPass(lines).table;
            && SecondPass(lines[..k], u).ok && SecondPass(lines[..k + 1], u).ok
            && SecondPass(lines[..k + 1], u) == EmitLine(SecondPass(lines[..k], u), lines[k], u)
  {
    hide EmitLine, Fits, Assembled;
    var u := FirstPass(lines).table;
    assert SecondPass(lines, u).ok by { AssembledOk(lines); }
    SecondPassGrows(lines, u, k);
    SecondPassGrows(lines, u, k + 1);
    assert lines[..k + 1][..k] == lines[..k] && lines[..k + 1][k] == lines[k];
  }

  // The characters of a string stand in memory in their order.
  lemma StringLoaded(lines: seq<Line>, m: Memory, k: nat, j: nat)
    requires Placed(lines) && k < |lines| && lines[k].Str? && j < |lines[k].body|
    requires Unchanged(lines, k, AddressOf(lines, k) as int + j)
    ensures LoadText(Assembled(lines).text, m).Loaded? && AddressOf(lines, k) as int + j < SIZE
    ensures Memory64K(lines, m)[AddressOf(lines, k) as int + j] == lines[k].body[j] as int % 0x100
  {
    hide LoadText, Fits, FirstPass, SecondPass, Assembled, AddressOf, Unchanged;
    LineEmits(lines, k);
    TextIsBytes(lines[k].body);
    assert SecondPass(lines[..k + 1], FirstPass(lines).table).ops ==
           SecondPass(lines[..k], FirstPass(lines).table).ops + EmitText(lines[k].body);
    RowLoaded(lines, m, k, EmitText(lines[k].body), j);
  }

  lemma {:induction false} ByteEmitted(words: seq<string>, t: seq<Symbol>, j: nat)
    requires EmitBytes(words, t).2 && j < |words|
    ensures var n := ReadNumber(words[j], t);
            && n.Number? && (if n.negative then -128 <= n.value < 128 else 0 <= n.value < 256)
            && |EmitBytes(words, t).0| == |words| && EmitBytes(words, t).0[j] == Emit(n.value % 0x100)
    decreases |words|
  {
    hide ReadNumber;
    if j > 0 {
      ByteEmitted(words[1..], t, j - 1);
      assert words[1..][j - 1] == words[j];
    }
  }

  // The values of .B stand there in their order, modulo 256; each fits a byte,
  // signed or not.
  lemma ValuesLoaded(lines: seq<Line>, m: Memory, k: nat, j: nat)
    requires Placed(lines) && k < |lines| && lines[k].Bytes? && j < |lines[k].words|
    requires Unchanged(lines, k, AddressOf(lines, k) as int + j)
    ensures LoadText(Assembled(lines).text, m).Loaded? && AddressOf(lines, k) as int + j < SIZE
    ensures var n := ReadNumber(lines[k].words[j], FirstPass(lines).table);
            && n.Number? && (if n.negative then -128 <= n.value < 128 else 0 <= n.value < 256)
            && Memory64K(lines, m)[AddressOf(lines, k) as int + j] == n.value % 0x100
  {
    hide LoadText, Fits, FirstPass, SecondPass, Assembled, AddressOf, Unchanged, ReadNumber, EmitBytes;
    var u := FirstPass(lines).table;
    LineEmits(lines, k);
    ValuesAreBytes(lines[k].words, u);
    ByteEmitted(lines[k].words, u, j);
    RowLoaded(lines, m, k, EmitBytes(lines[k].words, u).0, j);
  }

  lemma {:induction false} PaddingByte(n: nat, j: nat)
    requires j < n
    ensures Padding(n)[j] == Emit(0xAA)
    decreases n
  {
    if j < n - 1 { PaddingByte(n - 1, j); }
  }

  // .ALIGN fills with 0xAA up to the next multiple of its unit, where the next line
  // starts.
  lemma PaddingLoaded(lines: seq<Line>, m: Memory, k: nat) returns (next: nat)
    requires Placed(lines) && k < |lines| && lines[k].Align?
    ensures lines[k].unit in {2, 4} && next % lines[k].unit == 0
    ensures AddressOf(lines, k) as int <= next < AddressOf(lines, k) as int + lines[k].unit
    ensures AddressOf(lines, k + 1) == next % 0x1_0000
    ensures LoadText(Assembled(lines).text, m).Loaded?
    ensures forall a :: AddressOf(lines, k) as int <= a < next && Unchanged(lines, k, a) ==>
              a < SIZE && Memory64K(lines, m)[a] == 0xAA
  {
    hide LoadText, FirstPass, SecondPass, Assembled, Unchanged, Fits;
    var u := FirstPass(lines).table;
    LineEmits(lines, k);
    var e := SecondPass(lines[..k], u);
    var n := AlignDelta(e.address, lines[k].unit);
    assert LineOk(lines[k]);
    next := e.address as int + n;
    assert EmitLine(e, lines[k], u).address == Wrap(e.address + n);
    NextMultiple(e.address, lines[k].unit);
    PaddingIsBytes(n);
    EndToEnd(lines, m);
    forall a | e.address as int <= a < next && Unchanged(lines, k, a)
      ensures a < SIZE && Memory64K(lines, m)[a] == 0xAA
    {
      var j := a - e.address;
      PaddingByte(n, j);
      RowLoaded(lines, m, k, Padding(n), j);
    }
  }

  // The line behind .ORG starts at its number.
  lemma OrgPlaced(lines: seq<Line>, k: nat) returns (n: cell)
    requires Placed(lines) && k < |lines| && lines[k].Org?
    ensures ReadNumber(lines[k].number, FirstPass(lines).table) == Number(n, false)
    ensures AddressOf(lines, k + 1) == n
  {
    hide FirstPass, SecondPass, Assembled, Fits, ReadNumber;
    LineEmits(lines, k);
    n := OrgTarget(lines[k].number, FirstPass(lines).table).value;
  }

  lemma NextMultiple(a: cell, unit: nat)
    requires unit == 2 || unit == 4
    ensures (a + AlignDelta(a, unit)) % unit == 0 && AlignDelta(a, unit) < unit
  {
  }
}
