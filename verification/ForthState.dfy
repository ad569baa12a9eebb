// The state of the FORTH-79 system: the dataspace, the registers kept outside
// it, the three stacks and the dictionary headers inside it.
module ForthState {
  import opened Dataspace

  // System variables at fixed addresses.
  const LOC_HERE: cell := 2
  const LOC_STATE: cell := 4
  const LOC_BASE: cell := 6
  const LOC_INDEX: cell := 8
  const LOC_COUNT: cell := 10
  const LOC_WORD_BUFFER: cell := 14
  const LOC_INPUT_BUFFER: cell := 142
  const INPUT_BUFFER_SIZE := 1024
  const SYSTEM_END: cell := 1166

  const INTERPRETING: cell := 0
  const COMPILING: cell := 1

  // Header layout: previous, flags, code field (four bytes), does code, count,
  // name.
  const DE_FLAGS := 2
  const DE_CODE_FIELD := 4
  const DE_DOES_CODE := 8
  const DE_NAME := 10
  const DE_SIZE_MIN := 12

  const EF_MACHINE_CODE := 1
  const EF_DIRTY := 32

  // Code field values.
  const OP_CREATE := 1
  const OP_CREATE_ENTER := 2
  const OP_WORD := 3
  const OP_ALLOT := 4
  const OP_ENTER := 5
  const OP_EXIT := 6
  const OP_EXECUTE := 7
  const OP_JUMP := 8
  const OP_JUMP_IF := 9
  const OP_PUSH := 10
  const OP_DROP := 11
  const OP_FIND := 12
  const OP_STATE := 13
  const OP_QUERY := 14
  const OP_COLON := 15
  const OP_SEMICOLON := 16
  const OP_COMMA := 17
  const OP_DOT := 18
  const OP_BEGIN := 19
  const OP_THEN := 20
  const OP_IF := 21
  const OP_ELSE := 22
  const OP_AGAIN := 25
  const OP_LITERAL := 26
  const OP_PLITERAL := 27
  const OP_EMIT := 28
  const OP_ABORT := 29
  const OP_IMMEDIATE := 30
  const OP_QIMMEDIATE := 31
  const OP_BYE := 32
  const OP_AT := 34
  const OP_C_AT := 35
  const OP_PASS := 36
  const OP_EQUAL := 37
  const OP_DUP := 38
  const OP_BNUMBER := 39
  const OP_WORDBUFFER := 40
  const OP_BASE := 41
  const OP_STORE := 42
  const OP_PAREN := 43
  const OP_DECOMPILE := 44
  const OP_ADD := 45
  const OP_DOES := 46
  const OP_DOES_ENTER := 47
  const OP_DOES_RT := 48

  // Where ff_init_all_stacks puts the three stacks; ctx->top is what it leaves
  // below them.
  const RETURN_TOP: cell := 0xFFFE
  const RETURN_BOTTOM: cell := 0xFFCE
  const CONTROL_TOP: cell := 0xFFCC
  const CONTROL_BOTTOM: cell := 0xFFA4
  const DATA_TOP: cell := 0xFFA2
  const DATA_BOTTOM: cell := 0xFF62
  const SPACE_TOP: cell := 0xFF60

  datatype Stack = Stack(top: cell, where: cell, bottom: cell)

  // `run` is true until BYE, `input` what is still to come from the terminal.
  datatype State = State(
    mem: Memory,
    ip: cell,
    dictHead: cell,
    top: cell,
    recover: cell,
    control: Stack,
    data: Stack,
    ret: Stack,
    run: bool,
    input: seq<byte>)

  function InitStack(where: cell, size: nat): (r: (Stack, cell))
    requires 2 * size + 2 <= where
    ensures r.0.bottom == r.0.where == where - 2 * size && r.0.top == where
    ensures r.1 + 2 == r.0.bottom
  {
    (Stack(where, where - 2 * size, where - 2 * size), where - 2 * size - 2)
  }

  predicate Full(s: Stack) {
    s.where as int + 2 == s.top
  }

  predicate Empty(s: Stack) {
    s.where == s.bottom
  }

  predicate InRange(s: Stack) {
    s.bottom <= s.where < s.top && (s.where - s.bottom) % 2 == 0
  }

  // The stack descriptors are where ff_init_all_stacks put them and each stack
  // pointer is inside its own region, below its top.
  predicate StacksOk(st: State) {
    && st.ret.top == RETURN_TOP && st.ret.bottom == RETURN_BOTTOM && InRange(st.ret)
    && st.control.top == CONTROL_TOP && st.control.bottom == CONTROL_BOTTOM && InRange(st.control)
    && st.data.top == DATA_TOP && st.data.bottom == DATA_BOTTOM && InRange(st.data)
    && st.top == SPACE_TOP
  }

  const DATA_DEPTH := 31
  const RETURN_DEPTH := 23

  function Last(s: seq<cell>): cell
    requires |s| > 0
  {
    s[|s| - 1]
  }

  function Front(s: seq<cell>): seq<cell>
    requires |s| > 0
  {
    s[..|s| - 1]
  }

  ghost function DataOf(st: State): seq<cell>
    requires StacksOk(st)
  {
    Cells(st.mem, DATA_BOTTOM, st.data.where)
  }

  ghost function ControlOf(st: State): seq<cell>
    requires StacksOk(st)
  {
    Cells(st.mem, CONTROL_BOTTOM, st.control.where)
  }

  ghost function ReturnOf(st: State): seq<cell>
    requires StacksOk(st)
  {
    Cells(st.mem, RETURN_BOTTOM, st.ret.where)
  }

  // push() and pop(): their CF_Assert calls are the preconditions.

  function PushData(st: State, v: cell): (r: State)
    requires StacksOk(st) && !Full(st.data)
    ensures StacksOk(r)
  {
    st.(mem := Store16(st.mem, st.data.where, v), data := st.data.(where := st.data.where + 2))
  }

  function TopData(st: State): cell
    requires StacksOk(st) && !Empty(st.data)
  {
    Fetch16(st.mem, st.data.where - 2)
  }

  function DropData(st: State): (r: State)
    requires StacksOk(st) && !Empty(st.data)
    ensures StacksOk(r)
  {
    st.(data := st.data.(where := st.data.where - 2))
  }

  function PushControl(st: State, v: cell): (r: State)
    requires StacksOk(st) && !Full(st.control)
    ensures StacksOk(r)
  {
    st.(mem := Store16(st.mem, st.control.where, v),
        control := st.control.(where := st.control.where + 2))
  }

  function TopControl(st: State): cell
    requires StacksOk(st) && !Empty(st.control)
  {
    Fetch16(st.mem, st.control.where - 2)
  }

  function DropControl(st: State): (r: State)
    requires StacksOk(st) && !Empty(st.control)
    ensures StacksOk(r)
  {
    st.(control := st.control.(where := st.control.where - 2))
  }

  function PushReturn(st: State, v: cell): (r: State)
    requires StacksOk(st) && !Full(st.ret)
    ensures StacksOk(r)
  {
    st.(mem := Store16(st.mem, st.ret.where, v), ret := st.ret.(where := st.ret.where + 2))
  }

  function TopReturn(st: State): cell
    requires StacksOk(st) && !Empty(st.ret)
  {
    Fetch16(st.mem, st.ret.where - 2)
  }

  function DropReturn(st: State): (r: State)
    requires StacksOk(st) && !Empty(st.ret)
    ensures StacksOk(r)
  {
    st.(ret := st.ret.(where := st.ret.where - 2))
  }

  // No word moves a stack pointer out of its region or touches the registers
  // that belong to the inner interpreter.
  predicate Sound(st: State, s: State) {
    StacksOk(s) && s.ip == st.ip && s.recover == st.recover
  }

  // Variables and headers.

  function Here(m: Memory): cell {
    Fetch16(m, LOC_HERE)
  }

  // The next even address.
  function Align(a: cell): (r: cell)
    ensures r % 2 == 0 && (a < 0xFFFF ==> a <= r <= a + 1)
  {
    Wrap(a + a % 2)
  }

  function Previous(m: Memory, entry: cell): cell {
    Fetch16(m, entry)
  }

  // The code field is a C enumeration, four bytes long.
  function CodeField(m: Memory, entry: cell): nat {
    Fetch16(m, Wrap(entry + DE_CODE_FIELD)) as int
    + 0x1_0000 * Fetch16(m, Wrap(entry + DE_CODE_FIELD + 2)) as int
  }

  function DoesCode(m: Memory, entry: cell): cell {
    Fetch16(m, Wrap(entry + DE_DOES_CODE))
  }

  function NameCount(m: Memory, entry: cell): byte {
    Fetch8(m, Wrap(entry + DE_NAME))
  }

  // The count is a signed byte.
  function ParameterField(m: Memory, entry: cell): cell {
    var n := NameCount(m, entry) as int;
    Align(Wrap(entry + (if n < 128 then n else n - 256) + DE_SIZE_MIN))
  }

  function FlagsByte(m: Memory, entry: cell): byte {
    Fetch8(m, Wrap(entry + DE_FLAGS))
  }

  predicate IsImmediate(m: Memory, entry: cell) {
    FlagsByte(m, entry) / 2 % 2 == 1
  }

  // Why a run stops.  StackAssertion is a CF_Assert in push or pop; Assertion
  // any other CF_Assert; DivisionByZero is `.` in base 0, NoInput is QUERY at the
  // end of the input, Endless a DECOMPILE that never ends.  DictionaryFull stops a model run where the original,
  // which has no check, would go on and overwrite its own stacks.
  datatype Reason =
    | StackAssertion
    | Assertion
    | DivisionByZero
    | NoInput
    | Endless
    | DictionaryFull
    | NotModelled

  // What one word does: the new state and the instruction pointer it returns.
  datatype Outcome = Next(st: State, ip: cell) | Stop(why: Reason)

  function Continue(st: State): Outcome {
    Next(st, Wrap(st.ip + 2))
  }

  function SetHere(st: State, here: cell): State {
    st.(mem := Store16(st.mem, LOC_HERE, here))
  }

  // What ff_reset writes: the input buffer, the base, HERE and a link of 0; STATE
  // stays as it is found.
  function ResetMemory(m: Memory): Memory {
    var m := Store16(Store16(Store8(m, LOC_INPUT_BUFFER, 0), LOC_INDEX, 0), LOC_COUNT, 0);
    Store16(Store16(Store16(m, LOC_BASE, 10), LOC_HERE, SYSTEM_END), SYSTEM_END, 0)
  }

  function InitStacks(st: State): (r: State)
    ensures StacksOk(r)
  {
    var (ret, w1) := InitStack(0xFFFE, 24);
    var (control, w2) := InitStack(w1, 20);
    var (data, w3) := InitStack(w2, 32);
    st.(ret := ret, control := control, data := data, top := w3)
  }
}
