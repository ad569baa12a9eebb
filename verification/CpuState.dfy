// The Stackmaster-16 emulator: four bounded stacks, a program counter, and
// what one instruction does to them.
module CpuState {
  import opened Dataspace
  import opened AsmCode

  // Stack ids as the emulator decodes them.
  const DATA := 0
  const RETURN := 1
  const CONTROL := 2
  const TEMP := 3

  const MAX_STACK_SIZE := 64

  function SizeOf(id: nat): (n: nat)
    ensures 16 <= n <= MAX_STACK_SIZE
  {
    if id == RETURN || id == CONTROL then 32 else 16
  }

  datatype Exception = AllIsOk | StackOverflow | StackUnderflow | IllegalInstruction | IllegalStackId

  datatype Cpu = Cpu(
    keepGoing: bool,
    singleStep: bool,
    exception: Exception,
    stacks: seq<seq<cell>>,
    pc: cell,
    instruction: cell,
    out: seq<byte>)

  // cpu_reset.
  function Reset(out: seq<byte>): (c: Cpu)
    ensures CpuOk(c) && c.keepGoing
  {
    Cpu(true, false, AllIsOk, [[], [], [], []], 0xF000, 0, out)
  }

  // No stack is above its size; while the processor keeps going there has been
  // no exception and every stack has room.
  predicate CpuOk(c: Cpu) {
    && |c.stacks| == 4
    && (forall id :: 0 <= id < 4 ==> |c.stacks[id]| <= SizeOf(id))
    && (c.keepGoing ==> c.exception == AllIsOk && forall id :: 0 <= id < 4 ==> |c.stacks[id]| < SizeOf(id))
  }

  // push: overflow is noticed when the stack has become full, not when a value
  // no longer fits.
  function PushOn(c: Cpu, id: nat, v: cell): (r: Cpu)
    requires id < 4 && |c.stacks| == 4
    ensures |r.stacks| == 4
  {
    var s := c.stacks[id] + [v];
    var r := c.(stacks := c.stacks[id := s]);
    if |s| == SizeOf(id) then r.(keepGoing := false, exception := StackOverflow) else r
  }

  function PopOff(c: Cpu, id: nat): (r: (Cpu, cell))
    requires id < 4 && |c.stacks| == 4
    ensures |r.0.stacks| == 4
  {
    var s := c.stacks[id];
    if s == [] then (c.(keepGoing := false, exception := StackUnderflow), 0xDEAD)
    else (c.(stacks := c.stacks[id := s[..|s| - 1]]), s[|s| - 1])
  }

  function Illegal(c: Cpu): Cpu {
    c.(keepGoing := false, exception := IllegalInstruction)
  }

  function Ahead(c: Cpu): Cpu {
    c.(pc := Wrap(c.pc + 2))
  }

  function Signed(v: cell): int {
    if v < 0x8000 then v else v - 0x1_0000
  }

  function And(a: nat, b: nat): (r: nat)
    ensures r <= a
  {
    if a == 0 || b == 0 then 0 else 2 * And(a / 2, b / 2) + if a % 2 == 1 && b % 2 == 1 then 1 else 0
  }

  function Xor(a: nat, b: nat): nat {
    if a == 0 then b else if b == 0 then a else 2 * Xor(a / 2, b / 2) + if a % 2 != b % 2 then 1 else 0
  }

  function Truth(b: bool): cell {
    if b then 0xFFFF else 0
  }

  // The two-value operators that always push: n1 was on top.
  function Operate(func: nat, signed: bool, n1: cell, n2: cell): cell {
    if func == 0x00 then Wrap(n1 as int + n2 as int)
    else if func == 0x01 then Wrap(n1 as int * n2 as int)
    else if func == 0x03 then Truth(n2 == n1)
    else if func == 0x04 then if Signed(n1) < 0 then 0 else Wrap(Signed(n2) / Shift(n1))
    else if func == 0x05 then Truth(if signed then Signed(n2) < Signed(n1) else n2 < n1)
    else if func == 0x06 then Truth(if signed then Signed(n2) > Signed(n1) else n2 > n1)
    else if func == 0x07 then Truth(if signed then Signed(n2) <= Signed(n1) else n2 <= n1)
    else if func == 0x08 then Truth(if signed then Signed(n2) >= Signed(n1) else n2 >= n1)
    else if func == 0x09 then Wrap(n2 * Shift(n1))
    else if func == 0x0A then Wrap(n2 / Shift(n1))
    else if func == 0x0D then And(n2, n1)
    else if func == 0x0E then Or16(n2, n1)
    else Wrap(Xor(n2, n1))
  }

  function Shift(n: nat): (r: nat)
    ensures r > 0
  {
    PowPositive(n);
    Pow2(n)
  }

  predicate IsOperator(func: nat, signed: bool) {
    func in {0x00, 0x01, 0x03, 0x05, 0x06, 0x07, 0x08, 0x09, 0x0A, 0x0D, 0x0E, 0x0F} || (func == 0x04 && signed)
  }

  function EnterWord(c: Cpu): (r: Cpu)
    requires |c.stacks| == 4
    ensures |r.stacks| == 4
  {
    PushOn(c, RETURN, Wrap(c.pc + 2)).(pc := c.instruction % 0x4000 * 4)
  }

  // The offset of BIF, twelve bits with a sign.
  function Offset(instruction: cell): int {
    var d := instruction % 0x1000;
    if d < 0x800 then d else d - 0x1000
  }

  function BranchIfFalse(c: Cpu): (r: Cpu)
    requires |c.stacks| == 4
    ensures |r.stacks| == 4
  {
    var (s, truth) := PopOff(c, DATA);
    if truth != 0 then Ahead(s) else s.(pc := Wrap(s.pc + Offset(s.instruction)))
  }

  // The 0x8000 group adds 2 to the program counter a second time.
  function Control(c: Cpu): (r: Cpu)
    requires |c.stacks| == 4
    ensures |r.stacks| == 4
  {
    var func := c.instruction / 0x100 % 16;
    if func == 0 then Ahead(Ahead(c))
    else if func == 1 then
      var (s, v) := PopOff(c, RETURN);
      Ahead(s.(pc := v))
    else if func == 2 then Ahead(Ahead(c).(keepGoing := false))
    else Ahead(Illegal(c))
  }

  function StackWords(c: Cpu): (r: Cpu)
    requires |c.stacks| == 4
    ensures |r.stacks| == 4
  {
    var func := c.instruction / 0x100 % 16;
    var source := c.instruction / 0x40 % 4;
    var target := c.instruction / 0x10 % 4;
    if func == 0 then Ahead(PopOff(c, source).0)
    else if func == 1 then
      var (s, v) := PopOff(c, source);
      Ahead(PushOn(PushOn(s, source, v), source, v))
    else if func == 2 then
      var (s, v) := PopOff(c, source);
      var (s, v2) := PopOff(s, source);
      Ahead(PushOn(PushOn(s, source, v), source, v2))
    else if func == 3 then
      var (s, v) := PopOff(c, source);
      Ahead(PushOn(s, target, v))
    else Ahead(Illegal(c))
  }

  function LoadLow(c: Cpu): (r: Cpu)
    requires |c.stacks| == 4
    ensures |r.stacks| == 4
  {
    Ahead(PushOn(c, c.instruction / 0x400 % 4, c.instruction % 0x400))
  }

  function LoadHigh(c: Cpu): (r: Cpu)
    requires |c.stacks| == 4
    ensures |r.stacks| == 4
  {
    var id := c.instruction / 0x400 % 4;
    var (s, v) := PopOff(c, id);
    Ahead(PushOn(s, id, Or16(v, c.instruction % 0x40 * 0x400)))
  }

  // STO and ISTO: only a byte to port 0 does anything.
  function Store(c: Cpu): (r: Cpu)
    requires |c.stacks| == 4
    ensures |r.stacks| == 4
  {
    var (s, n) := PopOff(c, DATA);
    var (s, address) := PopOff(s, DATA);
    if c.instruction / 0x40 % 2 == 1 && c.instruction % 4 == 1 then
      if address == 0 then s.(out := s.out + [n % 0x100]) else s
    else Illegal(s)
  }

  function TwoValues(c: Cpu): (r: Cpu)
    requires |c.stacks| == 4
    ensures |r.stacks| == 4
  {
    var func := c.instruction / 0x80 % 32;
    var signed := c.instruction / 0x10 % 2 == 1;
    if func == 0x0B then Ahead(Store(c))
    else if IsOperator(func, signed) then
      var (s, n1) := PopOff(c, DATA);
      var (s, n2) := PopOff(s, DATA);
      Ahead(PushOn(s, DATA, Operate(func, signed, n1, n2)))
    else Ahead(Illegal(c))
  }

  // RD and IRD: only a byte of memory can be read.
  function Read(c: Cpu, m: Memory): (r: Cpu)
    requires |c.stacks| == 4
    ensures |r.stacks| == 4
  {
    var (s, address) := PopOff(c, DATA);
    if c.instruction / 0x40 % 2 == 0 && c.instruction % 4 == 1 then PushOn(s, DATA, Fetch8(m, address)) else Illegal(s)
  }

  function OneValue(c: Cpu, m: Memory): (r: Cpu)
    requires |c.stacks| == 4
    ensures |r.stacks| == 4
  {
    var func := c.instruction / 0x100 % 16;
    if func == 0 then
      var (s, v) := PopOff(c, DATA);
      Ahead(PushOn(s, DATA, Wrap(-(v as int))))
    else if func == 1 then
      var (s, v) := PopOff(c, DATA);
      Ahead(PushOn(s, DATA, 0xFFFF - v))
    else if func == 2 then Ahead(Read(c, m))
    else Ahead(Illegal(c))
  }

  // One instruction, by its first four bits.
  function Instruction(c: Cpu, m: Memory): (r: Cpu)
    requires |c.stacks| == 4
    ensures |r.stacks| == 4
  {
    var group := c.instruction / 0x1000;
    if 4 <= group < 8 then EnterWord(c)
    else if group == 1 then BranchIfFalse(c)
    else if group == 8 then Control(c)
    else if group == 0xB then StackWords(c)
    else if group == 0xC then LoadLow(c)
    else if group == 0xD then LoadHigh(c)
    else if group == 0xE then TwoValues(c)
    else if group == 0xF then OneValue(c, m)
    else Ahead(Illegal(c))
  }

  // One turn of the loop of run.
  function Step(c: Cpu, m: Memory): (r: Cpu)
    requires |c.stacks| == 4
    ensures |r.stacks| == 4
  {
    var s := Instruction(c.(instruction := Fetch16(m, c.pc)), m);
    if s.singleStep then s.(keepGoing := false) else s
  }
}
