// What every byte code of the first system does, and the step of its inner
// interpreter.  The words that lay code write at HERE without looking for room,
// as the program does; what is written past the end of the array, which C leaves
// undefined, wraps.
module ByteWords {
  import opened Dataspace
  import opened ByteState

  function SkipWhile(m: Memory, i: nat, n: nat, space: bool): (r: nat)
    requires i <= n <= INPUT_BUFFER_SIZE
    ensures i <= r <= n
    decreases n - i
  {
    if i < n && IsWhite(m[LOC_INPUT_BUFFER + i]) == space then SkipWhile(m, i + 1, n, space) else i
  }

  // PARSE-NAME: where the name is and what it is.  A count above the size of the
  // buffer, which set_code rules out, is not followed.
  datatype Name = Name(mem: Memory, at: cell, text: seq<byte>) | NoName

  function ParseName(m: Memory): (r: Name)
    ensures r.Name? ==> |r.text| <= INPUT_BUFFER_SIZE
  {
    var i := Fetch16(m, LOC_INPUT_BUFFER_INDEX);
    var n := Fetch16(m, LOC_INPUT_BUFFER_COUNT);
    if n > INPUT_BUFFER_SIZE then NoName
    else if i > n then Name(Store16(m, LOC_INPUT_BUFFER_INDEX, i), Wrap(LOC_INPUT_BUFFER + i), [])
    else
      var a := SkipWhile(m, i, n, true);
      var b := SkipWhile(m, a, n, false);
      Name(Store16(m, LOC_INPUT_BUFFER_INDEX, b), LOC_INPUT_BUFFER + a, m[LOC_INPUT_BUFFER + a..LOC_INPUT_BUFFER + b])
  }

  function ParseWord(st: State): (r: Outcome)
    requires StacksOk(st)
    ensures r.Next? ==> StacksOk(r.st)
  {
    match ParseName(st.mem)
    case NoName => Stop(NotModelled)
    case Name(m, at, text) => PushMany(st.(mem := m), [at, |text|])
  }

  // set_code: a text in the input buffer.  Of the index only the low byte is
  // reset.
  function SetCode(m: Memory, text: seq<byte>): Memory
    requires |text| < INPUT_BUFFER_SIZE
  {
    var m := Store8(Blit(m, LOC_INPUT_BUFFER, text), LOC_INPUT_BUFFER + |text|, 0);
    Store8(Store16(m, LOC_INPUT_BUFFER_COUNT, |text|), LOC_INPUT_BUFFER_INDEX, 0)
  }

  const LINE_SIZE := 254

  // (ACCEPT).
  function Accept(st: State): (r: Outcome)
    requires StacksOk(st)
    ensures r.Next? ==> StacksOk(r.st)
  {
    if st.input == [] then Stop(NoInput)
    else
      var n := FgetsLength(st.input, LINE_SIZE);
      Next(st.(mem := SetCode(st.mem, CString(st.input[..n])), input := st.input[n..]))
  }

  // The header `:` writes: not linked yet.
  function NewHeader(m: Memory, e: cell, name: seq<byte>): Memory
    requires e + H_SIZE + 1 + |name| <= SIZE
  {
    var m := Store16(m, e, 0);
    var m := Store16(m, e + H_FLAGS, F_COLONDEF);
    var m := Store8(m, e + H_LENGTH, |name| % 0x100);
    var m := Blit(m, e + H_NAME, name);
    Store8(m, e + H_NAME + |name|, 0)
  }

  // `:`.  A header below the dictionary or past the end of the array is not
  // followed.
  function Colon(st: State): (r: Outcome)
    requires StacksOk(st)
    ensures r.Next? ==> StacksOk(r.st)
  {
    match ParseName(st.mem)
    case NoName => Stop(NotModelled)
    case Name(m, at, name) =>
      var here := Where(m);
      if st.data + 4 >= DATA_TOP then Stop(StackAssertion)
      else if here < DICTIONARY_START || here + H_SIZE + 1 + |name| >= SIZE then Stop(NotModelled)
      else
        var m := Store16(m, st.data, at);
        var m := Store16(m, st.data + 2, |name|);
        var m := NewHeader(m, here, name);
        var m := Store16(m, LOC_WHERE, here + H_SIZE + 1 + |name|);
        Next(st.(mem := Store16(m, LOC_STATE, 0xFFFF), dictNew := here))
  }

  function CodeStart(m: Memory, entry: cell): int {
    entry + H_SIZE + 1 + Fetch8(m, Wrap(entry + H_LENGTH)) as int
  }

  function FlagsOf(m: Memory, entry: cell): cell {
    Fetch16(m, Wrap(entry + H_FLAGS))
  }

  // A word of a byte code, as against a colon word.
  predicate IsInstruction(m: Memory, entry: cell) {
    FlagsOf(m, entry) % 2 == 1
  }

  // A byte code at HERE, alone or with an operand.

  function LayByte(st: State, op: byte): State {
    var here := Where(st.mem);
    SetWhere(st.(mem := Store8(st.mem, here, op)), Wrap(here + 1))
  }

  function LayCell(st: State, op: byte, v: cell): State {
    var here := Where(st.mem);
    SetWhere(st.(mem := Store16(Store8(st.mem, here, op), Wrap(here + 1), v)), Wrap(here + 3))
  }

  // COMPILE,
  function Compile(st: State): (r: Outcome)
    requires StacksOk(st)
    ensures r.Next? ==> StacksOk(r.st)
  {
    match PopData(st)
    case Empty => Stop(StackAssertion)
    case Popped(s, xt) =>
      Next(if IsInstruction(s.mem, xt) then LayByte(s, Fetch8(s.mem, Wrap(xt + H_SEMANTICS)))
           else LayCell(s, ENTER, Wrap(CodeStart(s.mem, xt))))
  }

  function Literal(st: State): (r: Outcome)
    requires StacksOk(st)
    ensures r.Next? ==> StacksOk(r.st)
  {
    match PopData(st)
    case Empty => Stop(StackAssertion)
    case Popped(s, v) => Next(LayCell(s, LDN, v))
  }

  // A jump at `here` to be filled in later.
  function OpenJump(st: State, here: cell, op: byte): (r: Outcome)
    requires StacksOk(st)
    ensures r.Next? ==> StacksOk(r.st)
  {
    var s := st.(mem := Store16(Store8(st.mem, here, op), Wrap(here + 1), 0xDEAD));
    match PushControl(s, Wrap(here + 1))
    case Stop(why) => Stop(why)
    case Next(s) => Next(SetWhere(s, Wrap(here + 3)))
  }

  function If(st: State): (r: Outcome)
    requires StacksOk(st)
    ensures r.Next? ==> StacksOk(r.st)
  {
    OpenJump(st, Where(st.mem), JMP_FALSE)
  }

  function Else(st: State): (r: Outcome)
    requires StacksOk(st)
    ensures r.Next? ==> StacksOk(r.st)
  {
    match PopControl(st)
    case Empty => Stop(StackAssertion)
    case Popped(s, location) =>
      var here := Where(s.mem);
      OpenJump(s.(mem := Store16(s.mem, location, Wrap(here + 3))), here, JMP)
  }

  function Then(st: State): (r: Outcome)
    requires StacksOk(st)
    ensures r.Next? ==> StacksOk(r.st)
  {
    match PopControl(st)
    case Empty => Stop(StackAssertion)
    case Popped(s, location) =>
      var here := Where(s.mem);
      Next(SetWhere(s.(mem := Store8(Store16(s.mem, location, here), here, NOP)), Wrap(here + 1)))
  }

  function Begin(st: State): (r: Outcome)
    requires StacksOk(st)
    ensures r.Next? ==> StacksOk(r.st)
  {
    var here := Where(st.mem);
    match PushControl(st, here)
    case Stop(why) => Stop(why)
    case Next(s) => Next(SetWhere(s.(mem := Store8(s.mem, here, NOP)), Wrap(here + 1)))
  }

  function Again(st: State): (r: Outcome)
    requires StacksOk(st)
    ensures r.Next? ==> StacksOk(r.st)
  {
    match PopControl(st)
    case Empty => Stop(StackAssertion)
    case Popped(s, location) => Next(LayCell(s, JMP, location))
  }

  // `;` links the new entry.
  function Semicolon(st: State): (r: Outcome)
    requires StacksOk(st)
    ensures r.Next? ==> StacksOk(r.st)
  {
    var m := Store16(st.mem, st.dictNew, st.dictHead);
    var here := Where(m);
    var m := Store8(m, here, LEAVE);
    var next := Wrap(here + 1);
    var m := Store16(m, LOC_WHERE, Wrap(next + next % 2));
    Next(st.(mem := Store16(m, LOC_STATE, 0), dictHead := st.dictNew, dictNew := 0))
  }

  // `!`
  function Store(st: State): (r: Outcome)
    requires StacksOk(st)
    ensures r.Next? ==> StacksOk(r.st)
  {
    match PopData(st)
    case Empty => Stop(StackAssertion)
    case Popped(s, v) =>
      match PopData(s)
      case Empty => Stop(StackAssertion)
      case Popped(s, a) => Next(s.(mem := Store16(s.mem, a, v)))
  }

  function Allot(st: State): (r: Outcome)
    requires StacksOk(st)
    ensures r.Next? ==> StacksOk(r.st)
  {
    match PopData(st)
    case Empty => Stop(StackAssertion)
    case Popped(s, n) => Next(SetWhere(s, Wrap(n + Where(s.mem))))
  }

  // The byte codes that only work on the data stack.
  function DataStep(st: State, op: nat, ans: Answers): (r: Outcome)
    requires StacksOk(st)
    ensures r.Next? ==> StacksOk(r.st)
  {
    var (o, xs) := PopMany(st, Pops(op));
    if o.Stop? then o else PushMany(o.st, Pushes(op, st, xs, ans))
  }

  // The byte codes that go to the next one.
  predicate OnDictionary(op: nat) {
    op in {COMPILE, LITERAL, COLON, PACCEPT, PARSE_NAME}
  }

  function DictionaryStep(st: State, op: nat): (r: Outcome)
    requires StacksOk(st)
    ensures r.Next? ==> StacksOk(r.st)
  {
    if op == COMPILE then Compile(st)
    else if op == LITERAL then Literal(st)
    else if op == COLON then Colon(st)
    else if op == PACCEPT then Accept(st)
    else ParseWord(st)
  }

  function ControlWord(st: State, op: nat): (r: Outcome)
    requires StacksOk(st)
    ensures r.Next? ==> StacksOk(r.st)
  {
    if op == IF then If(st)
    else if op == ELSE then Else(st)
    else if op == THEN then Then(st)
    else if op == BEGIN then Begin(st)
    else if op == AGAIN then Again(st)
    else if op == SEMICOLON then Semicolon(st)
    else if op == STORE then Store(st)
    else if op == ALLOT then Allot(st)
    else Stop(NotModelled)
  }

  function Onward(st: State, op: nat, ans: Answers): (r: Outcome)
    requires StacksOk(st)
    ensures r.Next? ==> StacksOk(r.st)
  {
    var o := if OnDataOnly(op) then DataStep(st, op, ans)
             else if OnDictionary(op) then DictionaryStep(st, op)
             else ControlWord(st, op);
    match o
    case Stop(why) => Stop(why)
    case Next(s) => Next(s.(ip := Wrap(st.ip + 1)))
  }

  function After(o: Outcome, ip: cell): (r: Outcome)
    ensures r.Next? <==> o.Next?
    ensures r.Next? && StacksOk(o.st) ==> StacksOk(r.st)
  {
    match o
    case Stop(why) => Stop(why)
    case Next(s) => Next(s.(ip := Wrap(ip + 1)))
  }

  // semantic_table[op](ctx) for every byte code; there is none above 36.
  function Perform(st: State, op: nat, ans: Answers): (r: Outcome)
    requires StacksOk(st)
    ensures r.Next? ==> StacksOk(r.st)
    decreases st.data, 1
  {
    var operand := Fetch16(st.mem, Wrap(st.ip + 1));
    if op == LDN then
      (match PushData(st, operand)
       case Stop(why) => Stop(why)
       case Next(s) => Next(s.(ip := Wrap(st.ip + 3))))
    else if op == ENTER then
      (match PushReturn(st, Wrap(st.ip + 3))
       case Stop(why) => Stop(why)
       case Next(s) => Next(s.(ip := Fetch16(s.mem, Wrap(st.ip + 1)))))
    else if op == LEAVE then
      (match PopReturn(st)
       case Empty => Stop(StackAssertion)
       case Popped(s, v) => Next(s.(ip := v)))
    else if op == JMP then Next(st.(ip := operand))
    else if op == JMP_FALSE then
      (match PopData(st)
       case Empty => Stop(StackAssertion)
       case Popped(s, v) => Next(s.(ip := if v != 0 then Wrap(st.ip + 3) else operand)))
    else if op == HALT then Stop(Halted)
    else if op == EXECUTE then Execute(st, ans)
    else Onward(st, op, ans)
  }

  // EXECUTE of a word of a byte code performs it and goes on at the next byte,
  // wherever the byte code itself would have gone.
  function Execute(st: State, ans: Answers): (r: Outcome)
    requires StacksOk(st)
    ensures r.Next? ==> StacksOk(r.st)
    decreases st.data, 0
  {
    match PopData(st)
    case Empty => Stop(StackAssertion)
    case Popped(s, xt) => ExecuteWord(s, xt, st.ip, ans)
  }

  function ExecuteWord(s: State, xt: cell, ip: cell, ans: Answers): (r: Outcome)
    requires StacksOk(s)
    ensures r.Next? ==> StacksOk(r.st)
    decreases s.data, 2
  {
    if IsInstruction(s.mem, xt) then After(Perform(s, Fetch8(s.mem, Wrap(xt + H_SEMANTICS)), ans), ip)
    else
      match PushReturn(s, Wrap(ip + 1))
      case Stop(why) => Stop(why)
      case Next(t) => Next(t.(ip := Wrap(CodeStart(t.mem, xt))))
  }

  // Two rows of the table.

  lemma PerformsExecute(st: State, ans: Answers)
    requires StacksOk(st)
    ensures Perform(st, EXECUTE, ans) == Execute(st, ans)
  {
    hide Fetch16, Execute, Onward;
  }

  lemma PerformsEnter(st: State, ans: Answers)
    requires StacksOk(st)
    ensures Perform(st, ENTER, ans) ==
            match PushReturn(st, Wrap(st.ip + 3))
            case Stop(why) => Stop(why)
            case Next(s) => Next(s.(ip := Fetch16(s.mem, Wrap(st.ip + 1))))
  {
    hide Fetch16, Execute, Onward, PushReturn;
  }

  // One turn of the inner interpreter.
  function Step(st: State, ans: Answers): (r: Outcome)
    requires StacksOk(st)
    ensures r.Next? ==> StacksOk(r.st)
  {
    Perform(st, Fetch8(st.mem, st.ip), ans)
  }

  function Run(st: State, ans: Answers, n: nat): (r: Outcome)
    requires StacksOk(st)
    ensures r.Next? ==> StacksOk(r.st)
    decreases n
  {
    if n == 0 then Next(st)
    else
      match Step(st, ans)
      case Stop(why) => Stop(why)
      case Next(s) => Run(s, ans, n - 1)
  }
}
