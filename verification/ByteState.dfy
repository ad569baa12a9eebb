// The first FORTH system: byte codes in the same kind of dataspace, three
// stacks of twenty cells, and a dictionary linked only when a definition ends.
module ByteState {
  import opened Dataspace

  const LOC_WHERE: cell := 2
  const LOC_STATE: cell := 4
  const LOC_INPUT_BUFFER: cell := 6
  const INPUT_BUFFER_SIZE := 256
  const LOC_INPUT_BUFFER_INDEX: cell := 262
  const LOC_INPUT_BUFFER_COUNT: cell := 264
  const DICTIONARY_START: cell := 266

  const HALT := 0
  const LDN := 1
  const ENTER := 2
  const ADD := 3
  const HERE := 6
  const DOT := 7
  const FETCH := 9
  const COMPILE := 4
  const EXECUTE := 5
  const ALLOT := 8
  const STORE := 10
  const LEAVE := 11
  const DUP := 12
  const DROP := 13
  const EQUAL := 14
  const EMIT := 15
  const BL := 16
  const JMP := 17
  const NOP := 18
  const JMP_FALSE := 19
  const BEGIN := 20
  const AGAIN := 21
  const IF := 22
  const ELSE := 23
  const THEN := 24
  const COLON := 25
  const SEMICOLON := 26
  const PARSE_NAME := 27
  const LITERAL := 28
  const PREMAIN := 29
  const PACCEPT := 30
  const CR := 31
  const FIND2 := 32
  const PNUM := 33
  const OVER := 34
  const SWAP := 35
  const DECOMPILE := 36

  // Header: previous, flags, semantics, parameter, name length, name, NUL.
  const H_FLAGS := 2
  const H_SEMANTICS := 4
  const H_LENGTH := 8
  const H_NAME := 9
  const H_SIZE := 10

  const F_INSTRUCTION: cell := 1
  const F_COLONDEF: cell := 2
  const F_IMMEDIATE: cell := 4

  // Where fs_reset puts the stacks.
  const RETURN_TOP: cell := 0xFFFE
  const RETURN_BOTTOM: cell := 0xFFD6
  const CONTROL_TOP: cell := 0xFFD4
  const CONTROL_BOTTOM: cell := 0xFFAC
  const DATA_TOP: cell := 0xFFAA
  const DATA_BOTTOM: cell := 0xFF82
  const SPACE_TOP: cell := 0xFF80

  // The three stack pointers, whose tops and bottoms never change, and the
  // characters still to come on the standard input.
  datatype State = State(
    mem: Memory, ip: cell, dictHead: cell, dictNew: cell, control: cell, data: cell, ret: cell, input: seq<byte>)

  predicate Aligned(where: cell, bottom: cell, top: cell) {
    bottom <= where < top && (where - bottom) % 2 == 0
  }

  predicate StacksOk(st: State) {
    && Aligned(st.ret, RETURN_BOTTOM, RETURN_TOP)
    && Aligned(st.control, CONTROL_BOTTOM, CONTROL_TOP)
    && Aligned(st.data, DATA_BOTTOM, DATA_TOP)
  }

  // StackAssertion and DictionaryFull are assertions of the program, Halted is
  // (HALT), NoInput is (ACCEPT) at the end of the input.
  datatype Reason = StackAssertion | DictionaryFull | Halted | NoInput | NotModelled

  datatype Outcome = Next(st: State) | Stop(why: Reason)

  datatype Popped = Popped(st: State, v: cell) | Empty

  // push stores first and asserts afterwards that the stack is not full.

  function PushData(st: State, v: cell): (r: Outcome)
    requires StacksOk(st)
    ensures r.Next? ==> StacksOk(r.st)
  {
    if st.data + 2 == DATA_TOP then Stop(StackAssertion)
    else Next(st.(mem := Store16(st.mem, st.data, v), data := st.data + 2))
  }

  function PopData(st: State): (r: Popped)
    requires StacksOk(st)
    ensures r.Popped? ==> StacksOk(r.st)
  {
    if st.data == DATA_BOTTOM then Empty else Popped(st.(data := st.data - 2), Fetch16(st.mem, st.data - 2))
  }

  function PushControl(st: State, v: cell): (r: Outcome)
    requires StacksOk(st)
    ensures r.Next? ==> StacksOk(r.st)
  {
    if st.control + 2 == CONTROL_TOP then Stop(StackAssertion)
    else Next(st.(mem := Store16(st.mem, st.control, v), control := st.control + 2))
  }

  function PopControl(st: State): (r: Popped)
    requires StacksOk(st)
    ensures r.Popped? ==> StacksOk(r.st)
  {
    if st.control == CONTROL_BOTTOM then Empty
    else Popped(st.(control := st.control - 2), Fetch16(st.mem, st.control - 2))
  }

  function PushReturn(st: State, v: cell): (r: Outcome)
    requires StacksOk(st)
    ensures r.Next? ==> StacksOk(r.st)
  {
    if st.ret + 2 == RETURN_TOP then Stop(StackAssertion)
    else Next(st.(mem := Store16(st.mem, st.ret, v), ret := st.ret + 2))
  }

  function PopReturn(st: State): (r: Popped)
    requires StacksOk(st)
    ensures r.Popped? ==> StacksOk(r.st)
  {
    if st.ret == RETURN_BOTTOM then Empty else Popped(st.(ret := st.ret - 2), Fetch16(st.mem, st.ret - 2))
  }

  ghost function ReturnOf(st: State): seq<cell>
    requires StacksOk(st)
  {
    Cells(st.mem, RETURN_BOTTOM, st.ret)
  }

  ghost function ControlOf(st: State): seq<cell>
    requires StacksOk(st)
  {
    Cells(st.mem, CONTROL_BOTTOM, st.control)
  }

  function Where(m: Memory): cell {
    Fetch16(m, LOC_WHERE)
  }

  function SetWhere(st: State, here: cell): State {
    st.(mem := Store16(st.mem, LOC_WHERE, here))
  }

  // What FIND2 and (NUMBER) leave on the stack, given what they took from it: a
  // parameter of every run, which ByteAnswers fills in.
  type Answers = (nat, State, seq<cell>) -> (cell, cell)

  // How many cells a byte code pops before it pushes, for the codes that only
  // work on the data stack.
  function Pops(op: nat): nat {
    if op in {ADD, EQUAL, OVER, SWAP, FIND2, PNUM} then 2
    else if op in {DUP, DROP, DOT, EMIT, FETCH} then 1
    else 0
  }

  predicate OnDataOnly(op: nat) {
    op in {ADD, EQUAL, OVER, SWAP, FIND2, PNUM, DUP, DROP, DOT, EMIT, FETCH, HERE, BL, NOP, CR, DECOMPILE, PREMAIN}
  }

  // (REMAIN): the characters of the input buffer still to be read.
  function Remaining(m: Memory): (r: cell)
    ensures var index, count := Fetch16(m, LOC_INPUT_BUFFER_INDEX), Fetch16(m, LOC_INPUT_BUFFER_COUNT);
            if index <= count then index + r == count else r == 0
  {
    var index, count := Fetch16(m, LOC_INPUT_BUFFER_INDEX), Fetch16(m, LOC_INPUT_BUFFER_COUNT);
    if index < count then count - index else 0
  }

  // What it pushes, first to last; xs[0] was on top.
  function Pushes(op: nat, st: State, xs: seq<cell>, ans: Answers): seq<cell>
    requires |xs| == Pops(op)
  {
    if op == ADD then [Wrap(xs[0] as int + xs[1] as int)]
    else if op == EQUAL then [if xs[0] == xs[1] then 0xFFFF else 0]
    else if op == OVER then [xs[1], xs[0], xs[1]]
    else if op == SWAP then [xs[0], xs[1]]
    else if op == DUP then [xs[0], xs[0]]
    else if op == FETCH then [Fetch16(st.mem, xs[0])]
    else if op == HERE then [st.mem[LOC_WHERE]]
    else if op == BL then [32]
    else if op in {FIND2, PNUM} then [ans(op, st, xs).0, ans(op, st, xs).1]
    else if op == PREMAIN then [Remaining(st.mem)]
    else []
  }

  // Pop n cells, the top one first.
  function PopMany(st: State, n: nat): (r: (Outcome, seq<cell>))
    requires StacksOk(st)
    ensures r.0.Next? ==> StacksOk(r.0.st) && |r.1| == n
    decreases n
  {
    if n == 0 then (Next(st), [])
    else
      match PopData(st)
      case Empty => (Stop(StackAssertion), [])
      case Popped(s, v) =>
        var (o, vs) := PopMany(s, n - 1);
        (o, if o.Next? then [v] + vs else [])
  }

  function PushMany(st: State, vs: seq<cell>): (r: Outcome)
    requires StacksOk(st)
    ensures r.Next? ==> StacksOk(r.st)
    decreases |vs|
  {
    if vs == [] then Next(st)
    else
      match PushData(st, vs[0])
      case Stop(why) => Stop(why)
      case Next(s) => PushMany(s, vs[1..])
  }
}
