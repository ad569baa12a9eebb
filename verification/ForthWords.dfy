// What every word does to the state: one function per instr_* routine, and the
// step of the inner interpreter that dispatches on the code field.
module ForthWords {
  import opened Dataspace
  import opened Letters
  import opened Numerals
  import opened ForthState

  // ABORT: empty the input buffer and the stacks; scrub the definition that is
  // being compiled, if there is one.
  function AbortState(st: State): (r: State)
    ensures Sound(st, r)
  {
    var state := Fetch16(st.mem, LOC_STATE);
    var m := Store8(st.mem, LOC_INPUT_BUFFER, 0);
    var m := Store16(m, LOC_INDEX, 0);
    var m := Store16(m, LOC_COUNT, 0);
    var s := InitStacks(st.(mem := m));
    if state == COMPILING then
      s.(dictHead := Previous(s.mem, s.dictHead), mem := Store16(s.mem, LOC_STATE, INTERPRETING))
    else
      s
  }

  function Abort(st: State): (r: Outcome)
    ensures r.Next? && Sound(st, r.st)
  {
    Next(AbortState(st), st.recover)
  }

  // The dictionary search both find_via_opcode and FIND use: walk the chain of
  // previous links from h until an entry matches or the link is 0.  A link that
  // does not go down would make the original loop; Cyclic reports it.
  datatype Lookup = Found(entry: cell) | Absent | Cyclic

  function FindOpcode(m: Memory, h: cell, op: nat): Lookup
    decreases h
  {
    if CodeField(m, h) == op then Found(h)
    else if Previous(m, h) == 0 then Absent
    else if Previous(m, h) < h then FindOpcode(m, Previous(m, h), op)
    else Cyclic
  }

  // compare_packed_string on the counted string at `word` and an entry's name.
  predicate NameMatches(m: Memory, word: cell, entry: cell) {
    var n := Fetch8(m, word);
    && n == NameCount(m, entry)
    && word + 1 + n <= 0xFFFF
    && entry + DE_NAME + 1 + n <= 0xFFFF
    && SameName(m, word + 1, entry + DE_NAME + 1, n)
  }

  function FindName(m: Memory, h: cell, word: cell): Lookup
    decreases h
  {
    if NameMatches(m, word, h) then Found(h)
    else if Previous(m, h) == 0 then Absent
    else if Previous(m, h) < h then FindName(m, Previous(m, h), word)
    else Cyclic
  }

  // Append cells at HERE, as the compiling words do.
  function AppendCell(st: State, v: cell): State {
    var here := Here(st.mem);
    var s := st.(mem := Store16(st.mem, here, v));
    SetHere(s, Wrap(here + 2))
  }

  predicate Room(st: State, n: nat) {
    Here(st.mem) + n <= st.top
  }

  // Stack words.

  function Drop(st: State): (r: Outcome)
    requires StacksOk(st)
    ensures r.Next? ==> Sound(st, r.st)
  {
    if Empty(st.data) then Abort(st) else Continue(DropData(st))
  }

  function Dup(st: State): (r: Outcome)
    requires StacksOk(st)
    ensures r.Next? ==> Sound(st, r.st)
  {
    if Empty(st.data) then Abort(st)
    else if Full(st.data) then Abort(st)
    else Continue(PushData(st, TopData(st)))
  }

  function Binary(st: State, f: (cell, cell) -> cell): (r: Outcome)
    requires StacksOk(st)
    ensures r.Next? ==> Sound(st, r.st)
  {
    if Empty(st.data) then Abort(st)
    else
      var n1 := TopData(st);
      var s1 := DropData(st);
      if Empty(s1.data) then Abort(s1)
      else
        var n2 := TopData(s1);
        Continue(PushData(DropData(s1), f(n1, n2)))
  }

  function Add(st: State): (r: Outcome)
    requires StacksOk(st)
    ensures r.Next? ==> Sound(st, r.st)
  {
    Binary(st, (a: cell, b: cell) => Wrap(a as int + b as int))
  }

  function Equal(st: State): (r: Outcome)
    requires StacksOk(st)
    ensures r.Next? ==> Sound(st, r.st)
  {
    Binary(st, (a, b) => if a == b then 1 else 0)
  }

  function PushVariable(st: State, v: cell): (r: Outcome)
    requires StacksOk(st)
    ensures r.Next? ==> Sound(st, r.st)
  {
    if Full(st.data) then Abort(st) else Continue(PushData(st, v))
  }

  // EMIT without the output.
  function Emit(st: State): (r: Outcome)
    requires StacksOk(st)
    ensures r.Next? ==> Sound(st, r.st)
  {
    Drop(st)
  }

  // @ guards against overflow where it should guard against underflow.
  function At(st: State): (r: Outcome)
    requires StacksOk(st)
    ensures r.Next? ==> Sound(st, r.st)
  {
    if Full(st.data) then Abort(st)
    else if Empty(st.data) then Stop(StackAssertion)
    else Continue(PushData(DropData(st), Fetch16(st.mem, TopData(st))))
  }

  // C@ sign-extends.
  function CAt(st: State): (r: Outcome)
    requires StacksOk(st)
    ensures r.Next? ==> Sound(st, r.st)
  {
    if Empty(st.data) then Abort(st)
    else
      Continue(PushData(DropData(st), SignExtend(Fetch8(st.mem, TopData(st)))))
  }

  function QImmediate(st: State): (r: Outcome)
    requires StacksOk(st)
    ensures r.Next? ==> Sound(st, r.st)
  {
    if Empty(st.data) then Abort(st)
    else
      Continue(PushData(DropData(st), if IsImmediate(st.mem, TopData(st)) then 1 else 0))
  }

  function Immediate(st: State): (r: Outcome)
    requires StacksOk(st)
    ensures r.Next? ==> Sound(st, r.st)
  {
    var a := Wrap(st.dictHead + DE_FLAGS);
    var f := Fetch8(st.mem, a);
    Continue(st.(mem := Store8(st.mem, a, if f / 2 % 2 == 1 then f else f + 2)))
  }

  // Control flow of the inner interpreter.

  function Jump(st: State): (r: Outcome)
    requires StacksOk(st)
    ensures r.Next? ==> Sound(st, r.st)
  {
    Next(st, Fetch16(st.mem, Wrap(st.ip + 2)))
  }

  function JumpIf(st: State): (r: Outcome)
    requires StacksOk(st)
    ensures r.Next? ==> Sound(st, r.st)
  {
    if Empty(st.data) then Abort(st)
    else
      var n := TopData(st);
      var s := DropData(st);
      Next(s, if n == 0 then Fetch16(s.mem, Wrap(s.ip + 2)) else Wrap(s.ip + 4))
  }

  function PushLiteral(st: State): (r: Outcome)
    requires StacksOk(st)
    ensures r.Next? ==> Sound(st, r.st)
  {
    if Full(st.data) then Abort(st)
    else Next(PushData(st, Fetch16(st.mem, Wrap(st.ip + 2))), Wrap(st.ip + 4))
  }

  function Enter(st: State, word: cell): (r: Outcome)
    requires StacksOk(st)
    ensures r.Next? ==> Sound(st, r.st)
  {
    if Full(st.ret) then Abort(st)
    else
      var s := PushReturn(st, Wrap(st.ip + 2));
      Next(s, ParameterField(s.mem, word))
  }

  function Exit(st: State): (r: Outcome)
    requires StacksOk(st)
    ensures r.Next? ==> Sound(st, r.st)
  {
    if Empty(st.ret) then Abort(st) else Next(DropReturn(st), TopReturn(st))
  }

  function CreateEnter(st: State, word: cell): (r: Outcome)
    requires StacksOk(st)
    ensures r.Next? ==> Sound(st, r.st)
  {
    if Full(st.data) then Abort(st)
    else Continue(PushData(st, ParameterField(st.mem, word)))
  }

  function DoesEnter(st: State, word: cell): (r: Outcome)
    requires StacksOk(st)
    ensures r.Next? ==> Sound(st, r.st)
  {
    if Full(st.data) then Abort(st)
    else
      var s := PushData(st, ParameterField(st.mem, word));
      if Full(s.ret) then Abort(s)
      else
        var s' := PushReturn(s, Wrap(s.ip + 2));
        Next(s', DoesCode(s'.mem, word))
  }

  // Compiling words.  Each writes at HERE without looking for room; `limit` is
  // how far the model follows it.  As words of the model they stop where the
  // stacks begin.

  const UNCHECKED := 0x2_0000

  function CommaUpTo(st: State, limit: int): (r: Outcome)
    requires StacksOk(st)
    ensures r.Next? ==> Sound(st, r.st)
  {
    if Empty(st.data) then Abort(st)
    else if Here(st.mem) + 2 > limit then Stop(DictionaryFull)
    else Continue(AppendCell(DropData(st), TopData(st)))
  }

  function Comma(st: State): (r: Outcome)
    requires StacksOk(st)
    ensures r.Next? ==> Sound(st, r.st)
  {
    CommaUpTo(st, st.top)
  }

  function LiteralUpTo(st: State, limit: int): (r: Outcome)
    requires StacksOk(st)
    ensures r.Next? ==> Sound(st, r.st)
  {
    if Empty(st.data) then Abort(st)
    else
      match FindOpcode(st.mem, st.dictHead, OP_PUSH)
      case Found(push) =>
        if Here(st.mem) + 4 > limit then Stop(DictionaryFull)
        else
          var here := Here(st.mem);
          var n := TopData(st);
          var s := DropData(st);
          var s := s.(mem := Store16(s.mem, here, push));
          var s := s.(mem := Store16(s.mem, Wrap(here + 2), n));
          Continue(SetHere(s, Wrap(here + 4)))
      case Absent => Stop(Assertion)
      case Cyclic => Stop(NotModelled)
  }

  function Literal(st: State): (r: Outcome)
    requires StacksOk(st)
    ensures r.Next? ==> Sound(st, r.st)
  {
    LiteralUpTo(st, st.top)
  }

  function Begin(st: State): (r: Outcome)
    requires StacksOk(st)
    ensures r.Next? ==> Sound(st, r.st)
  {
    if Full(st.control) then Abort(st) else Continue(PushControl(st, Here(st.mem)))
  }

  function IfUpTo(st: State, limit: int): (r: Outcome)
    requires StacksOk(st)
    ensures r.Next? ==> Sound(st, r.st)
  {
    if Full(st.control) then Abort(st)
    else
      match FindOpcode(st.mem, st.dictHead, OP_JUMP_IF)
      case Found(jumpIf) =>
        if Here(st.mem) + 4 > limit then Stop(DictionaryFull)
        else
          var here := Here(st.mem);
          var s := st.(mem := Store16(st.mem, here, jumpIf));
          var s := s.(mem := Store16(s.mem, Wrap(here + 2), 0));
          var s := PushControl(s, Wrap(here + 2));
          Continue(SetHere(s, Wrap(here + 4)))
      case Absent => Stop(Assertion)
      case Cyclic => Stop(NotModelled)
  }

  function If(st: State): (r: Outcome)
    requires StacksOk(st)
    ensures r.Next? ==> Sound(st, r.st)
  {
    IfUpTo(st, st.top)
  }

  function Then(st: State): (r: Outcome)
    requires StacksOk(st)
    ensures r.Next? ==> Sound(st, r.st)
  {
    if Empty(st.control) then Abort(st)
    else
      var s := DropControl(st);
      Continue(s.(mem := Store16(s.mem, TopControl(st), Here(st.mem))))
  }

  function ElseUpTo(st: State, limit: int): (r: Outcome)
    requires StacksOk(st)
    ensures r.Next? ==> Sound(st, r.st)
  {
    if Empty(st.control) then Abort(st)
    else
      match FindOpcode(st.mem, st.dictHead, OP_JUMP)
      case Found(jump) =>
        if Here(st.mem) + 4 > limit then Stop(DictionaryFull)
        else
          var here := Here(st.mem);
          var s := st.(mem := Store16(st.mem, here, jump));
          var a := TopControl(s);
          var s := DropControl(s);
          var s := s.(mem := Store16(s.mem, a, Wrap(here + 4)));
          var s := PushControl(s, Wrap(here + 2));
          Continue(SetHere(s, Wrap(here + 4)))
      case Absent => Stop(Assertion)
      case Cyclic => Stop(NotModelled)
  }

  function Else(st: State): (r: Outcome)
    requires StacksOk(st)
    ensures r.Next? ==> Sound(st, r.st)
  {
    ElseUpTo(st, st.top)
  }

  function AgainUpTo(st: State, limit: int): (r: Outcome)
    requires StacksOk(st)
    ensures r.Next? ==> Sound(st, r.st)
  {
    if Empty(st.control) then Abort(st)
    else
      match FindOpcode(st.mem, st.dictHead, OP_JUMP)
      case Found(jump) =>
        if Here(st.mem) + 4 > limit then Stop(DictionaryFull)
        else
          var here := Here(st.mem);
          var s := st.(mem := Store16(st.mem, here, jump));
          var a := TopControl(s);
          var s := DropControl(s);
          var s := s.(mem := Store16(s.mem, Wrap(here + 2), a));
          Continue(SetHere(s, Wrap(here + 4)))
      case Absent => Stop(Assertion)
      case Cyclic => Stop(NotModelled)
  }

  function Again(st: State): (r: Outcome)
    requires StacksOk(st)
    ensures r.Next? ==> Sound(st, r.st)
  {
    AgainUpTo(st, st.top)
  }

  function SemicolonUpTo(st: State, limit: int): (r: Outcome)
    requires StacksOk(st)
    ensures r.Next? ==> Sound(st, r.st)
  {
    match FindOpcode(st.mem, st.dictHead, OP_EXIT)
    case Found(exit) =>
      if Here(st.mem) + 2 > limit then Stop(DictionaryFull)
      else
        var s := AppendCell(st, exit);
        var m := Store16(s.mem, LOC_STATE, INTERPRETING);
        var a := Wrap(s.dictHead + DE_FLAGS);
        var f := Fetch8(m, a);
        Continue(s.(mem := Store8(m, a, if f / 32 % 2 == 1 then f - 32 else f)))
    case Absent => Stop(Assertion)
    case Cyclic => Stop(NotModelled)
  }

  function Semicolon(st: State): (r: Outcome)
    requires StacksOk(st)
    ensures r.Next? ==> Sound(st, r.st)
  {
    SemicolonUpTo(st, st.top)
  }

  function DoesUpTo(st: State, limit: int): (r: Outcome)
    requires StacksOk(st)
    ensures r.Next? ==> Sound(st, r.st)
  {
    match FindOpcode(st.mem, st.dictHead, OP_DOES_RT)
    case Found(doesRt) =>
      if Here(st.mem) + 4 > limit then Stop(DictionaryFull)
      else
        var here := Here(st.mem);
        var s := st.(mem := Store16(st.mem, here, doesRt));
        (match FindOpcode(s.mem, s.dictHead, OP_EXIT)
         case Found(exit) =>
           var s := s.(mem := Store16(s.mem, Wrap(here + 2), exit));
           var s := SetHere(s, Wrap(here + 4));
           Continue(s.(mem := Store16(s.mem, Wrap(s.dictHead + DE_DOES_CODE), Wrap(here + 4))))
         case Absent => Stop(Assertion)
         case Cyclic => Stop(NotModelled))
    case Absent => Stop(Assertion)
    case Cyclic => Stop(NotModelled)
  }

  function Does(st: State): (r: Outcome)
    requires StacksOk(st)
    ensures r.Next? ==> Sound(st, r.st)
  {
    DoesUpTo(st, st.top)
  }

  // Where there is room the model does what the program does.
  lemma RoomAgrees(st: State)
    requires StacksOk(st)
    ensures Comma(st).Next? ==> CommaUpTo(st, UNCHECKED) == Comma(st)
    ensures Literal(st).Next? ==> LiteralUpTo(st, UNCHECKED) == Literal(st)
  {
    hide Fetch16, Store16, FindOpcode, AbortState;
  }

  function SetCodeField(m: Memory, entry: cell, op: cell): Memory {
    Store16(Store16(m, Wrap(entry + DE_CODE_FIELD), op), Wrap(entry + DE_CODE_FIELD + 2), 0)
  }

  function DoesRt(st: State): (r: Outcome)
    requires StacksOk(st)
    ensures r.Next? ==> Sound(st, r.st)
  {
    if CodeField(st.mem, st.dictHead) != OP_CREATE_ENTER then Stop(Assertion)
    else
      var m := SetCodeField(st.mem, st.dictHead, OP_DOES_ENTER);
      var m := Store16(m, Wrap(st.dictHead + DE_DOES_CODE), Wrap(st.ip + 4));
      Continue(st.(mem := m))
  }

  // The tokeniser.

  function InputChar(m: Memory, i: nat): byte
    requires i < INPUT_BUFFER_SIZE
  {
    m[LOC_INPUT_BUFFER + i]
  }

  // First index from i on, below n, that does not hold the delimiter.
  function SkipDelimiter(m: Memory, i: nat, n: nat, d: byte): (r: nat)
    requires i <= n < INPUT_BUFFER_SIZE
    ensures i <= r <= n
    ensures forall k :: i <= k < r ==> InputChar(m, k) == d
    ensures r < n ==> InputChar(m, r) != d
    decreases n - i
  {
    if i < n && InputChar(m, i) == d then SkipDelimiter(m, i + 1, n, d) else i
  }

  // First index from i on, below n, that holds the delimiter.
  function ScanToken(m: Memory, i: nat, n: nat, d: byte): (r: nat)
    requires i <= n < INPUT_BUFFER_SIZE
    ensures i <= r <= n
    ensures forall k :: i <= k < r ==> InputChar(m, k) != d
    ensures r < n ==> InputChar(m, r) == d
    decreases n - i
  {
    if i < n && InputChar(m, i) != d then ScanToken(m, i + 1, n, d) else i
  }

  // Copy the next token to the word buffer: its count, its characters and the
  // character that ended it.  Tokens of 128 characters or more overflow the
  // signed length in the original.
  function ReadToken(m: Memory, d: byte): (r: (Memory, bool)) {
    var i := Fetch16(m, LOC_INDEX);
    var n := Fetch16(m, LOC_COUNT);
    if !(i <= n < INPUT_BUFFER_SIZE) then (m, false)
    else if i == n then (Store8(m, LOC_WORD_BUFFER, 0), true)
    else
      var first := SkipDelimiter(m, i, n, d);
      if first == n then (Store16(Store8(m, LOC_WORD_BUFFER, 0), LOC_INDEX, n), true)
      else
        var last := ScanToken(m, first, n, d);
        var l := last - first;
        if l > 127 then (m, false)
        else
          var m1 := Blit(m, LOC_WORD_BUFFER + 1, m[LOC_INPUT_BUFFER + first..LOC_INPUT_BUFFER + last]);
          var m2 := Store8(m1, LOC_WORD_BUFFER + l + 1, if last == n then 0 else d);
          (Store16(Store8(m2, LOC_WORD_BUFFER, l), LOC_INDEX, last), true)
  }

  function Word(st: State): (r: Outcome)
    requires StacksOk(st)
    ensures r.Next? ==> Sound(st, r.st)
  {
    if Empty(st.data) then Abort(st)
    else
      var s := DropData(st);
      var (m, ok) := ReadToken(s.mem, TopData(st) % 0x100);
      if !ok then Stop(NotModelled)
      else Continue(PushData(s.(mem := m), LOC_WORD_BUFFER))
  }

  // The entry named by the word buffer.
  function FindWord(st: State): (r: Outcome)
    requires StacksOk(st) && !Full(st.data)
    ensures r.Next? ==> Sound(st, r.st)
  {
    if Fetch8(st.mem, LOC_WORD_BUFFER) == 0 then Continue(PushData(st, 0))
    else
      match FindName(st.mem, st.dictHead, LOC_WORD_BUFFER)
      case Found(e) => Continue(PushData(st, e))
      case Absent => Continue(PushData(st, 0))
      case Cyclic => Stop(NotModelled)
  }

  // FIND: push a blank, run WORD, pop its result, search.
  function Find(st: State): (r: Outcome)
    requires StacksOk(st)
    ensures r.Next? ==> Sound(st, r.st)
  {
    if Full(st.data) then Abort(st)
    else
      match Word(PushData(st, 32))
      case Stop(why) => Stop(why)
      case Next(s, _) =>
        assert StacksOk(s) && !Empty(s.data);
        FindWord(DropData(s))
  }

  // Text from the terminal.

  const BLANK: byte := 32

  function Blanked(text: seq<byte>): (r: seq<byte>)
    ensures |r| == |text|
  {
    seq(|text|, i requires 0 <= i < |text| => if IsWhite(text[i]) then BLANK else text[i])
  }

  // paste_code, for a text that fits.
  function Paste(m: Memory, text: seq<byte>): Memory
    requires |text| < INPUT_BUFFER_SIZE
  {
    var m := Store8(Blit(m, LOC_INPUT_BUFFER, Blanked(text)), LOC_INPUT_BUFFER + |text|, 0);
    Store16(Store16(m, LOC_INDEX, 0), LOC_COUNT, |text|)
  }

  const LINE_SIZE := 79

  // QUERY.
  function Query(st: State): (r: Outcome)
    requires StacksOk(st)
    ensures r.Next? ==> Sound(st, r.st)
  {
    if st.input == [] then Stop(NoInput)
    else
      var n := FgetsLength(st.input, LINE_SIZE);
      Continue(st.(mem := Paste(st.mem, CString(st.input[..n])), input := st.input[n..]))
  }

  const RIGHT_PAREN: byte := 41

  // The scan of `(`: where it ends and the last character it has read.
  function SkipComment(m: Memory, i: cell, n: cell, c: byte): (cell, byte)
    decreases n - i
  {
    if c != RIGHT_PAREN && i < n then SkipComment(m, i + 1, n, m[Wrap(LOC_INPUT_BUFFER + i)]) else (i, c)
  }

  function Paren(st: State): (r: Outcome)
    requires StacksOk(st)
    ensures r.Next? ==> Sound(st, r.st)
  {
    var i, n := Fetch16(st.mem, LOC_INDEX), Fetch16(st.mem, LOC_COUNT);
    if i > n then Stop(Assertion)
    else if i == n then Abort(st)
    else
      var (j, c) := SkipComment(st.mem, i, n, st.mem[Wrap(LOC_INPUT_BUFFER + i)]);
      if c != RIGHT_PAREN then Abort(st) else Continue(st.(mem := Store16(st.mem, LOC_INDEX, j)))
  }

  // (NUMBER): the characters of a counted string as a number, 16 bits of it.
  function ReadNumber(m: Memory, addr: cell): Conversion {
    ReadText(m, Wrap(addr + 1), m[addr], Fetch16(m, LOC_BASE))
  }

  function PNumber(st: State): (r: Outcome)
    requires StacksOk(st)
    ensures r.Next? ==> Sound(st, r.st)
  {
    if Empty(st.data) then Abort(st)
    else
      var n := ReadNumber(st.mem, TopData(st));
      var s := PushData(DropData(st), if n.Converted? then n.value else TopData(st));
      if Full(s.data) then Abort(s) else Continue(PushData(s, if n.Converted? then 1 else 0))
  }

  // `.`, which pops without a look at the stack, and whose digits in base 1 never
  // end before its buffer does.
  function Dot(st: State): (r: Outcome)
    requires StacksOk(st)
    ensures r.Next? ==> Sound(st, r.st)
  {
    if Empty(st.data) then Stop(StackAssertion)
    else
      var base := Fetch16(st.mem, LOC_BASE);
      if base == 0 then Stop(DivisionByZero)
      else if base == 1 && 0 < TopData(st) < 0x8000 then Stop(Assertion)
      else Continue(DropData(st))
  }

  function Allot(st: State): (r: Outcome)
    requires StacksOk(st)
    ensures r.Next? ==> Sound(st, r.st)
  {
    if Empty(st.data) then Abort(st)
    else Continue(SetHere(DropData(st), Wrap(Here(st.mem) + TopData(st))))
  }

  // `!`
  function StoreCell(st: State): (r: Outcome)
    requires StacksOk(st)
    ensures r.Next? ==> Sound(st, r.st)
  {
    if Empty(st.data) then Abort(st)
    else
      var s := DropData(st);
      if Empty(s.data) then Abort(s)
      else Continue(DropData(s).(mem := Store16(s.mem, TopData(st), TopData(s))))
  }

  function Bye(st: State): (r: Outcome)
    requires StacksOk(st)
    ensures r.Next? ==> Sound(st, r.st)
  {
    Continue(st.(run := false))
  }

  // decompile_table: how many bytes the instruction at ip takes.
  function Width(op: nat): nat {
    if op == OP_PUSH || op == OP_JUMP || op == OP_JUMP_IF then 4 else 2
  }

  function OpcodeAt(m: Memory, ip: cell): nat {
    CodeField(m, Fetch16(m, ip))
  }

  // DECOMPILE's loop goes on after this instruction.
  predicate GoesOn(op: nat) {
    0 < op < 256 && op != OP_EXIT
  }

  // The loop from ip ends before `fuel` more turns.
  predicate SweepEnds(m: Memory, ip: cell, fuel: nat)
    decreases fuel
  {
    !GoesOn(OpcodeAt(m, ip)) || (fuel > 0 && SweepEnds(m, Wrap(ip + Width(OpcodeAt(m, ip))), fuel - 1))
  }

  // The addresses it shows.
  function Swept(m: Memory, ip: cell, fuel: nat): seq<cell>
    decreases fuel
  {
    [ip]
    + if GoesOn(OpcodeAt(m, ip)) && fuel > 0 then Swept(m, Wrap(ip + Width(OpcodeAt(m, ip))), fuel - 1) else []
  }

  // Where DECOMPILE looks for code; 0 for a word that has none.
  function SweepStart(m: Memory, xt: cell): cell {
    if CodeField(m, xt) == OP_ENTER then ParameterField(m, xt)
    else if CodeField(m, xt) == OP_DOES_ENTER then DoesCode(m, xt)
    else 0
  }

  // As many turns as there are addresses: a loop that has not ended then comes
  // round again.
  const SWEEP_LIMIT := 0x1_0000

  function Decompile(st: State): (r: Outcome)
    requires StacksOk(st)
    ensures r.Next? ==> Sound(st, r.st)
  {
    if Empty(st.data) then Abort(st)
    else
      var a := SweepStart(st.mem, TopData(st));
      if a == 0 || SweepEnds(st.mem, a, SWEEP_LIMIT) then Continue(DropData(st)) else Stop(Endless)
  }

  function SystemWord(st: State, op: nat): (r: Outcome)
    requires StacksOk(st)
    ensures r.Next? ==> Sound(st, r.st)
  {
    if op == OP_DOT then Dot(st)
    else if op == OP_ALLOT then Allot(st)
    else if op == OP_STORE then StoreCell(st)
    else if op == OP_QUERY then Query(st)
    else if op == OP_PAREN then Paren(st)
    else if op == OP_BNUMBER then PNumber(st)
    else if op == OP_BYE then Bye(st)
    else Decompile(st)
  }

  predicate IsSystemOp(op: nat) {
    op in {OP_DOT, OP_ALLOT, OP_STORE, OP_QUERY, OP_PAREN, OP_BNUMBER, OP_BYE, OP_DECOMPILE}
  }

  function LowByte(v: cell): byte { v % 0x100 }
  function HighByte(v: cell): byte { v / 0x100 }

  function HeaderBytes(previous: cell, flags: byte, op: byte, does: cell, name: seq<byte>): (r: seq<byte>)
    requires |name| < 0x80
    ensures |r| == 11 + |name|
  {
    [LowByte(previous), HighByte(previous), flags, 0, op, 0, 0, 0, LowByte(does), HighByte(does), |name|] + name
  }

  // add_dict_entry, with the fields its callers fill in afterwards.
  function AddEntryUpTo(st: State, name: seq<byte>, flags: byte, op: byte, does: cell, limit: int): Outcome
    requires |name| < 0x80 && limit <= SIZE
  {
    var here := Here(st.mem);
    if here < SYSTEM_END then Stop(NotModelled)
    else if here + DE_SIZE_MIN + |name| + 1 > limit then Stop(DictionaryFull)
    else
      var m := Blit(st.mem, here, HeaderBytes(st.dictHead, flags, op, does, name));
      var m := Store16(m, LOC_HERE, Align(here + DE_SIZE_MIN + |name|));
      Next(st.(mem := m, dictHead := here), Wrap(st.ip + 2))
  }

  function AddEntry(st: State, name: seq<byte>, flags: byte, op: byte, does: cell): Outcome
    requires |name| < 0x80
  {
    AddEntryUpTo(st, name, flags, op, does, SPACE_TOP)
  }

  function WordBuffer(m: Memory): (r: seq<byte>) {
    var n := Fetch8(m, LOC_WORD_BUFFER);
    m[LOC_WORD_BUFFER + 1..LOC_WORD_BUFFER + 1 + n]
  }

  function ColonUpTo(st: State, limit: int): (r: Outcome)
    requires StacksOk(st) && limit <= SIZE
    ensures r.Next? ==> Sound(st, r.st)
  {
    if Full(st.data) then Abort(st)
    else
      match Word(PushData(st, 32))
      case Stop(why) => Stop(why)
      case Next(s, _) =>
        assert StacksOk(s) && !Empty(s.data);
        var s := DropData(s);
        var name := WordBuffer(s.mem);
        if |name| == 0 then Abort(s)
        else if |name| >= 0x80 then Stop(NotModelled)
        else
          match AddEntryUpTo(s, name, EF_MACHINE_CODE + EF_DIRTY, OP_ENTER, 0, limit)
          case Stop(why) => Stop(why)
          case Next(s, ip) => Next(s.(mem := Store16(s.mem, LOC_STATE, COMPILING)), ip)
  }

  function Colon(st: State): (r: Outcome)
    requires StacksOk(st)
    ensures r.Next? ==> Sound(st, r.st)
  {
    ColonUpTo(st, SPACE_TOP)
  }

  function CreateUpTo(st: State, word: cell, limit: int): (r: Outcome)
    requires StacksOk(st) && limit <= SIZE
    ensures r.Next? ==> Sound(st, r.st)
  {
    if Full(st.data) then Abort(st)
    else
      match Word(PushData(st, 32))
      case Stop(why) => Stop(why)
      case Next(s, _) =>
        assert StacksOk(s) && !Empty(s.data);
        var name := WordBuffer(s.mem);
        if |name| == 0 then Abort(s)
        else if |name| >= 0x80 then Stop(NotModelled)
        else
          AddEntryUpTo(DropData(s), name, EF_MACHINE_CODE, OP_CREATE_ENTER, DoesCode(s.mem, word), limit)
  }

  function Create(st: State, word: cell): (r: Outcome)
    requires StacksOk(st)
    ensures r.Next? ==> Sound(st, r.st)
  {
    CreateUpTo(st, word, SPACE_TOP)
  }

  // instruction_table, in groups.  An opcode without a routine ends the program;
  // one past the end of the table is undefined in C.

  function StackWord(st: State, op: nat): (r: Outcome)
    requires StacksOk(st)
    ensures r.Next? ==> Sound(st, r.st)
  {
    if op == OP_DROP then Drop(st)
    else if op == OP_DUP then Dup(st)
    else if op == OP_EQUAL then Equal(st)
    else if op == OP_ADD then Add(st)
    else if op == OP_STATE then PushVariable(st, LOC_STATE)
    else if op == OP_WORDBUFFER then PushVariable(st, LOC_WORD_BUFFER)
    else if op == OP_BASE then PushVariable(st, LOC_BASE)
    else if op == OP_EMIT then Emit(st)
    else if op == OP_AT then At(st)
    else if op == OP_C_AT then CAt(st)
    else if op == OP_QIMMEDIATE then QImmediate(st)
    else if op == OP_PASS then Continue(st)
    else if op < 256 then Stop(Assertion)
    else Stop(NotModelled)
  }

  function FlowWord(st: State, op: nat, word: cell): (r: Outcome)
    requires StacksOk(st)
    ensures r.Next? ==> Sound(st, r.st)
  {
    if op == OP_ENTER then Enter(st, word)
    else if op == OP_EXIT then Exit(st)
    else if op == OP_JUMP then Jump(st)
    else if op == OP_JUMP_IF then JumpIf(st)
    else if op == OP_PUSH then PushLiteral(st)
    else if op == OP_CREATE_ENTER then CreateEnter(st, word)
    else if op == OP_DOES_ENTER then DoesEnter(st, word)
    else Abort(st)
  }

  function CompilerWord(st: State, op: nat): (r: Outcome)
    requires StacksOk(st)
    ensures r.Next? ==> Sound(st, r.st)
  {
    if op == OP_COMMA then Comma(st)
    else if op == OP_LITERAL || op == OP_PLITERAL then Literal(st)
    else if op == OP_BEGIN then Begin(st)
    else if op == OP_AGAIN then Again(st)
    else if op == OP_IF then If(st)
    else if op == OP_ELSE then Else(st)
    else if op == OP_THEN then Then(st)
    else if op == OP_SEMICOLON then Semicolon(st)
    else if op == OP_IMMEDIATE then Immediate(st)
    else if op == OP_DOES then Does(st)
    else DoesRt(st)
  }

  function InputWord(st: State, op: nat, word: cell): (r: Outcome)
    requires StacksOk(st)
    ensures r.Next? ==> Sound(st, r.st)
  {
    if op == OP_WORD then Word(st)
    else if op == OP_FIND then Find(st)
    else if op == OP_COLON then Colon(st)
    else Create(st, word)
  }

  predicate IsFlowOp(op: nat) {
    op in {OP_ENTER, OP_EXIT, OP_JUMP, OP_JUMP_IF, OP_PUSH, OP_CREATE_ENTER, OP_DOES_ENTER, OP_ABORT}
  }

  predicate IsCompilerOp(op: nat) {
    op in {OP_COMMA, OP_LITERAL, OP_PLITERAL, OP_BEGIN, OP_AGAIN, OP_IF, OP_ELSE, OP_THEN,
           OP_SEMICOLON, OP_IMMEDIATE, OP_DOES, OP_DOES_RT}
  }

  predicate IsInputOp(op: nat) {
    op in {OP_WORD, OP_FIND, OP_COLON, OP_CREATE}
  }

  predicate IsEntering(op: nat) {
    op == OP_ENTER || op == OP_DOES_ENTER
  }

  // instruction_table[opcode](ctx, word) for every opcode but EXECUTE.
  function Simple(st: State, op: nat, word: cell): (r: Outcome)
    requires StacksOk(st)
    ensures r.Next? ==> Sound(st, r.st)
  {
    if IsFlowOp(op) then FlowWord(st, op, word)
    else if IsCompilerOp(op) then CompilerWord(st, op)
    else if IsInputOp(op) then InputWord(st, op, word)
    else if IsSystemOp(op) then SystemWord(st, op)
    else StackWord(st, op)
  }

  // instruction_table[opcode](ctx, word) for every opcode.
  function Perform(st: State, word: cell): (r: Outcome)
    requires StacksOk(st)
    ensures r.Next? ==> Sound(st, r.st)
    decreases st.data.where, 1
  {
    var op := CodeField(st.mem, word);
    if op == OP_EXECUTE then Execute(st) else Simple(st, op, word)
  }

  // EXECUTE looks at the executed word's opcode to decide where to go on.
  function Execute(st: State): (r: Outcome)
    requires StacksOk(st)
    ensures r.Next? ==> Sound(st, r.st)
    decreases st.data.where, 0
  {
    if Empty(st.data) then Abort(st)
    else
      var xt := TopData(st);
      var op := CodeField(st.mem, xt);
      match Perform(DropData(st), xt)
      case Stop(why) => Stop(why)
      case Next(s, ip) =>
        if ip == s.recover || op == OP_ENTER || op == OP_DOES_ENTER then Next(s, ip) else Continue(s)
  }

  // One turn of the inner interpreter; after BYE there is none.
  function Step(st: State): (r: Outcome)
    requires StacksOk(st)
    ensures r.Next? ==> StacksOk(r.st) && r.st.recover == st.recover && r.st.ip == r.ip
  {
    if !st.run then Next(st, st.ip)
    else
      match Perform(st, Fetch16(st.mem, st.ip))
      case Stop(why) => Stop(why)
      case Next(s, ip) => Next(s.(ip := ip), ip)
  }
}
