// The two passes of the assembler over the same lines: the scan that collects
// symbols and the pass that emits.
module AsmPasses {
  import opened Dataspace
  import opened AsmNumbers
  import opened AsmCode
  import opened AsmText
  import opened HexRoundTrip

  function AlignDelta(address: cell, unit: nat): nat
    requires unit > 0
  {
    if address % unit == 0 then 0 else unit - address % unit
  }

  predicate LineOk(line: Line) {
    && (line.Code? ==> line.words != [])
    && (line.Align? ==> line.unit == 2 || line.unit == 4)
  }

  // The operand of .ORG.
  function OrgTarget(number: string, t: seq<Symbol>): Search {
    match ReadNumber(number, t)
    case Number(v, negative) => if negative || v > 0xFFFF || v < 0 then Missing else Value(v)
    case _ => Missing
  }

  // The first pass on one line: address, symbols, no error.
  datatype Scanned = Scanned(address: cell, table: seq<Symbol>, ok: bool)

  function AddSymbol(s: Scanned, name: string, value: cell): Scanned {
    if |s.table| >= MAX_SYMBOLS then s.(ok := false) else s.(table := s.table + [Symbol(name, value)])
  }

  function Scan(s: Scanned, line: Line): Scanned
    requires LineOk(line)
  {
    match line
    case Blank => s
    case Label(name) => AddSymbol(s, name, s.address)
    case LongLabel => s.(ok := false)
    case Str(body) => s.(address := Wrap(s.address + |body|))
    case Bytes(words) => s.(address := Wrap(s.address + |words|))
    case Def(symbol, number) =>
      (match ReadNumber(number, s.table)
       case Number(v, _) => if v > 65535 || v < -32768 then s.(ok := false) else AddSymbol(s, symbol, Wrap(v))
       case _ => s.(ok := false))
    case BadDef => s.(ok := false)
    case Org(number) =>
      (match OrgTarget(number, s.table)
       case Value(a) => s.(address := a)
       case Missing => s.(ok := false))
    case Align(unit) => s.(address := Wrap(s.address + AlignDelta(s.address, unit)))
    case Stub => s.(address := 0)
    case Wrong => s.(ok := false)
    case Code(words) =>
      if ByteCount(words[0]) == 0 then s.(ok := false) else s.(address := Wrap(s.address + ByteCount(words[0])))
    case Skipped => s
  }

  function ScanAll(s: Scanned, lines: seq<Line>): Scanned
    requires forall i :: 0 <= i < |lines| ==> LineOk(lines[i])
    decreases |lines|
  {
    if lines == [] then s
    else
      var r := ScanAll(s, lines[..|lines| - 1]);
      if r.ok then Scan(r, lines[|lines| - 1]) else r
  }

  // The second pass on one line: address, requests to the writer, no error.
  datatype Emitted = Emitted(address: cell, ops: seq<Op>, ok: bool)

  function EmitText(body: string): seq<Op> {
    seq(|body|, i requires 0 <= i < |body| => Emit(body[i] as int % 0x100))
  }

  function EmitWords(code: seq<cell>): (r: seq<Op>)
    ensures |r| == 2 * |code|
  {
    if code == [] then []
      else EmitWords(code[..|code| - 1]) + [Emit(code[|code| - 1] % 0x100), Emit(code[|code| - 1] / 0x100)]
  }

  function Padding(n: nat): (r: seq<Op>)
    ensures |r| == n
  {
    if n == 0 then [] else Padding(n - 1) + [Emit(0xAA)]
  }

  // One .B value: a signed or an unsigned byte, as it is written.
  function ByteValue(word: string, t: seq<Symbol>): Search {
    match ReadNumber(word, t)
    case Number(v, negative) =>
      if negative && -128 <= v < 128 then Value(v % 0x100)
      else if !negative && 0 <= v < 256 then Value(v)
      else Missing
    case _ => Missing
  }

  // The values of .B.  One that does not fit ends the line; one that cannot be
  // read is passed over; both are errors.
  function EmitBytes(words: seq<string>, t: seq<Symbol>): (r: (seq<Op>, nat, bool))
    ensures r.2 ==> |r.0| == r.1 == |words|
    ensures r.1 <= |words|
  {
    if words == [] then ([], 0, true)
    else
      match ByteValue(words[0], t)
      case Value(b) =>
        var (ops, n, ok) := EmitBytes(words[1..], t);
        ([Emit(b % 0x100)] + ops, n + 1, ok)
      case Missing =>
        if ReadNumber(words[0], t).Number? then ([], 1, false)
        else
          var (ops, n, _) := EmitBytes(words[1..], t);
          (ops, n + 1, false)
  }

  function EmitCode(e: Emitted, words: seq<string>, t: seq<Symbol>): Emitted
    requires words != []
  {
    if ByteCount(words[0]) == 0 then e.(ok := false)
    else
      var g := Generate(words, e.address, t);
      Emitted(g.next, e.ops + EmitWords(g.code), g.ok && Wrap(g.next - e.address) == ByteCount(words[0]))
  }

  function EmitLine(e: Emitted, line: Line, t: seq<Symbol>): Emitted
    requires LineOk(line)
  {
    match line
    case Blank => e
    case Label(name) => e.(ok := FindSymbol(t, name) == Value(e.address))
    case LongLabel => e.(ok := false)
    case Str(body) => e.(address := Wrap(e.address + |body|), ops := e.ops + EmitText(body))
    case Bytes(words) =>
      var (ops, n, ok) := EmitBytes(words, t);
      Emitted(Wrap(e.address + n), e.ops + ops, ok)
    case Def(_, _) => e
    case BadDef => e
    case Org(number) =>
      (match OrgTarget(number, t)
       case Value(a) => e.(address := a, ops := e.ops + [Origin(a)])
       case Missing => e.(ok := false))
    case Align(unit) =>
      var delta := AlignDelta(e.address, unit);
      e.(address := Wrap(e.address + delta), ops := e.ops + Padding(delta) + [Cut])
    case Stub => e.(address := 0)
    case Wrong => e.(ok := false)
    case Code(words) => EmitCode(e, words, t)
    case Skipped => e
  }

  function EmitAll(e: Emitted, lines: seq<Line>, t: seq<Symbol>): Emitted
    requires forall i :: 0 <= i < |lines| ==> LineOk(lines[i])
    decreases |lines|
  {
    if lines == [] then e
    else
      var r := EmitAll(e, lines[..|lines| - 1], t);
      if r.ok then EmitLine(r, lines[|lines| - 1], t) else r
  }

  predicate LinesOk(lines: seq<Line>) {
    forall i :: 0 <= i < |lines| ==> LineOk(lines[i])
  }

  const START := Scanned(0, [], true)
  const BEGIN := Emitted(0, [], true)

  function FirstPass(lines: seq<Line>): Scanned
    requires LinesOk(lines)
  {
    ScanAll(START, lines)
  }

  function SecondPass(lines: seq<Line>, t: seq<Symbol>): Emitted
    requires LinesOk(lines)
  {
    EmitAll(BEGIN, lines, t)
  }

  // What assemble leaves: the text of the hex file, or an error.
  datatype Output = Output(text: string, table: seq<Symbol>) | Error

  function Assembled(lines: seq<Line>): Output
    requires LinesOk(lines)
  {
    var s := FirstPass(lines);
    if !s.ok then Error
    else
      var e := SecondPass(lines, s.table);
      if e.ok then Output(Written(e.ops), s.table) else Error
  }
}
