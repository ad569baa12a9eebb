// How the emulator stops: full and empty stacks, and single steps.
module CpuExceptions {
  import opened Dataspace
  import opened AsmNumbers
  import opened AsmCode
  import opened AsmErrors
  import opened AsmPasses
  import opened AsmText
  import opened HexFormat
  import opened CpuState
  import opened CpuTheorem
  import opened CpuOperators

  // Cells of a stack; the last of them is never used without an exception.
  function CellsOf(id: nat): nat {
    if id == RETURN || id == CONTROL then 32 else 16
  }

  // The value that fills a stack is still stored, and stops the processor.
  lemma FullLoad(lines: seq<Line>, k: nat, m: Memory, c: Cpu) returns (n: cell)
    requires AtLine(lines, k, c) && lines[k].words[0] == "LDL"
    requires |lines[k].words| > 1 && lines[k].words[1] != [] ==>
             var to := Receiver(lines[k].words[1][0]); |c.stacks[to]| + 1 == CellsOf(to)
    ensures Assembled(lines).Output? && LoadText(Assembled(lines).text, m).Loaded?
    ensures |lines[k].words| > 2 && lines[k].words[1] != []
            && ReadNumber(lines[k].words[2], FirstPass(lines).table) == Number(n, false)
    ensures var r, to := After(lines, m, c), Receiver(lines[k].words[1][0]);
            && !r.keepGoing && r.exception == StackOverflow && r.pc == Wrap(c.pc + 2) && r.out == c.out
            && r.stacks == c.stacks[to := c.stacks[to] + [n]]
  {
    hide LoadText, InPlace, Assembled, FirstPass, SecondPass, Fetch16, Step, ByteCount, ReadNumber;
    n := PartFetched(lines, k, m, c);
    LastCell(c, LoadText(Assembled(lines).text, m).mem, Receiver(lines[k].words[1][0]), n);
  }

  lemma LastCell(c: Cpu, m: Memory, id: nat, n: nat)
    requires CpuOk(c) && c.keepGoing && !c.singleStep && id < 4 && n < 0x400 && |c.stacks[id]| + 1 == CellsOf(id)
    requires Fetch16(m, c.pc) == 0xC000 + id * 0x400 + n
    ensures var r := Step(c, m);
            && !r.keepGoing && r.exception == StackOverflow && r.pc == Wrap(c.pc + 2) && r.out == c.out
            && r.stacks == c.stacks[id := c.stacks[id] + [n]]
  {
    hide Fetch16;
    var w := Fetch16(m, c.pc);
    assert w / 0x1000 == 0xC && w / 0x400 % 4 == id && w % 0x400 == n;
  }

  // Nothing comes off an empty stack, and that stops the processor.
  lemma EmptyDrop(lines: seq<Line>, k: nat, m: Memory, c: Cpu)
    requires AtLine(lines, k, c) && |lines[k].words| == 2 && lines[k].words[0] == "DROP" && IsLetter(lines[k].words[1])
    requires c.stacks[Receiver(lines[k].words[1][0])] == []
    ensures Assembled(lines).Output? && LoadText(Assembled(lines).text, m).Loaded?
    ensures var r := After(lines, m, c);
            && !r.keepGoing && r.exception == StackUnderflow && r.pc == Wrap(c.pc + 2)
            && r.stacks == c.stacks && r.out == c.out
  {
    hide LoadText, InPlace, Assembled, FirstPass, SecondPass, Fetch16, Step, PushOn, ByteCount, Wrap;
    var id := Receiver(lines[k].words[1][0]);
    var w := StackWordFetched(lines, k, m, c);
    StackStep(c, LoadText(Assembled(lines).text, m).mem, 0, id, 0);
  }

  // An operator takes 0xDEAD for a value that is not there, and its result is pushed
  // before the processor stops.
  lemma EmptyOperator(lines: seq<Line>, k: nat, m: Memory, c: Cpu) returns (v: cell)
    requires AtLine(lines, k, c) && IsOperatorName(lines[k].words[0]) && |c.stacks[DATA]| < 2
    ensures Assembled(lines).Output? && LoadText(Assembled(lines).text, m).Loaded?
    ensures var r, y := After(lines, m, c), if c.stacks[DATA] == [] then 0xDEAD else c.stacks[DATA][0];
            && !r.keepGoing && r.exception == StackUnderflow && r.pc == Wrap(c.pc + 2) && r.out == c.out
            && r.stacks == c.stacks[DATA := [v]] && Computes(lines[k].words[0], 0xDEAD, y, v)
  {
    hide LoadText, InPlace, Assembled, FirstPass, SecondPass, Generate, Operate, Computes, Step, PlainCode;
    hide ByteCount, Fetch16, Func, SignBit, IsOperator;
    var name, y := lines[k].words[0], if c.stacks[DATA] == [] then 0xDEAD else c.stacks[DATA][0];
    OperatorComputes(name, 0xDEAD, y);
    PlainGenerated(lines[k].words, c.pc, FirstPass(lines).table);
    var g := CodeFetched(lines, k, m, c);
    var code := PlainCode(name).value;
    v := Operate(Func(code), SignBit(code), y, 0xDEAD);
    ShortStep(c, LoadText(Assembled(lines).text, m).mem, y);
  }

  lemma ShortStep(c: Cpu, m: Memory, y: cell)
    requires CpuOk(c) && c.keepGoing && !c.singleStep && |c.stacks[DATA]| < 2
    requires y == if c.stacks[DATA] == [] then 0xDEAD else c.stacks[DATA][0]
    requires var w := Fetch16(m, c.pc); w / 0x1000 == 0xE && IsOperator(Func(w), SignBit(w))
    ensures var w, r := Fetch16(m, c.pc), Step(c, m);
            && !r.keepGoing && r.exception == StackUnderflow && r.pc == Wrap(c.pc + 2) && r.out == c.out
            && r.stacks == c.stacks[DATA := [Operate(Func(w), SignBit(w), y, 0xDEAD)]]
  {
    hide Fetch16, Operate, Wrap;
    var w := Fetch16(m, c.pc);
    var d := c.(instruction := w);
    var v := Operate(Func(w), SignBit(w), y, 0xDEAD);
    var e := PopOff(d, DATA).0;
    assert PopOff(d, DATA).1 == y && e.stacks == c.stacks[DATA := []] && PopOff(e, DATA).1 == 0xDEAD;
    assert [] + [v] == [v];
    assert c.stacks[DATA := []][DATA := [v]] == c.stacks[DATA := [v]];
  }

  // In single-step mode the processor performs the same instruction, and then stops.
  lemma SingleStep(c: Cpu, m: Memory)
    requires |c.stacks| == 4 && !c.singleStep
    ensures Step(c.(singleStep := true), m) == Step(c, m).(singleStep := true, keepGoing := false)
  {
    hide Fetch16, Instruction;
    var d := c.(instruction := Fetch16(m, c.pc));
    InstructionTwins(d, d.(singleStep := true), m);
  }

  // The same processor in either mode.
  ghost predicate Twins(a: Cpu, b: Cpu) {
    |a.stacks| == 4 && !a.singleStep && b == a.(singleStep := true)
  }

  lemma MoveTwins(a: Cpu, b: Cpu)
    requires Twins(a, b)
    ensures forall id, v :: id < 4 ==> Twins(PushOn(a, id, v), PushOn(b, id, v))
    ensures forall id :: id < 4 ==> Twins(PopOff(a, id).0, PopOff(b, id).0) && PopOff(a, id).1 == PopOff(b, id).1
    ensures Twins(Ahead(a), Ahead(b)) && Twins(Illegal(a), Illegal(b))
  {
  }

  lemma PopTwins(a: Cpu, b: Cpu, id: nat) returns (s: Cpu, t: Cpu)
    requires Twins(a, b) && id < 4
    ensures s == PopOff(a, id).0 && t == PopOff(b, id).0 && Twins(s, t) && PopOff(a, id).1 == PopOff(b, id).1
    ensures forall id, v :: id < 4 ==> Twins(PushOn(s, id, v), PushOn(t, id, v))
    ensures Twins(Ahead(s), Ahead(t)) && Twins(Illegal(s), Illegal(t))
  {
    hide PushOn, PopOff, Ahead, Illegal;
    MoveTwins(a, b);
    s, t := PopOff(a, id).0, PopOff(b, id).0;
    MoveTwins(s, t);
  }

  lemma InstructionTwins(a: Cpu, b: Cpu, m: Memory)
    requires Twins(a, b)
    ensures Twins(Instruction(a, m), Instruction(b, m))
  {
    hide PushOn, PopOff, Wrap, StackWords, TwoValues, OneValue;
    MoveTwins(a, b);
    var s, t := PopTwins(a, b, DATA);
    var s1, t1 := PopTwins(a, b, RETURN);
    var s2, t2 := PopTwins(a, b, a.instruction / 0x400 % 4);
    StackTwins(a, b);
    TwoTwins(a, b);
    OneTwins(a, b, m);
  }

  lemma StackTwins(a: Cpu, b: Cpu)
    requires Twins(a, b)
    ensures Twins(StackWords(a), StackWords(b))
  {
    hide PushOn, PopOff, Wrap;
    MoveTwins(a, b);
    var source, target := a.instruction / 0x40 % 4, a.instruction / 0x10 % 4;
    var s, t := PopTwins(a, b, source);
    var u, v := PopTwins(s, t, source);
    MoveTwins(PushOn(s, source, PopOff(a, source).1), PushOn(t, source, PopOff(a, source).1));
    MoveTwins(PushOn(u, source, PopOff(a, source).1), PushOn(v, source, PopOff(a, source).1));
  }

  lemma TwoTwins(a: Cpu, b: Cpu)
    requires Twins(a, b)
    ensures Twins(TwoValues(a), TwoValues(b))
  {
    hide PushOn, PopOff, Wrap, Operate, IsOperator;
    MoveTwins(a, b);
    var s, t := PopTwins(a, b, DATA);
    var u, v := PopTwins(s, t, DATA);
  }

  lemma OneTwins(a: Cpu, b: Cpu, m: Memory)
    requires Twins(a, b)
    ensures Twins(OneValue(a, m), OneValue(b, m))
  {
    hide PushOn, PopOff, Wrap;
    MoveTwins(a, b);
    var s, t := PopTwins(a, b, DATA);
  }
}
