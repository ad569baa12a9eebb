// What holds over every run of the emulator, and what it makes of the words
// the assembler emits.
module CpuTheorem {
  import opened Dataspace
  import opened AsmNumbers
  import opened AsmCode
  import opened AsmText
  import opened AsmPasses
  import opened AsmTheorem
  import opened HexFormat
  import opened HexRoundTrip
  import opened CpuState

  // Stacks an instruction may leave behind: at most one became full, and then
  // the processor has stopped.
  ghost predicate Grown(c: Cpu, r: Cpu) {
    && |r.stacks| == 4
    && (r.keepGoing ==> c.keepGoing && r.exception == c.exception)
    && forall id :: 0 <= id < 4 ==> |r.stacks[id]| <= SizeOf(id) && (r.keepGoing ==> |r.stacks[id]| < SizeOf(id))
  }

  lemma GrownOk(c: Cpu, r: Cpu)
    requires CpuOk(c) && Grown(c, r)
    ensures CpuOk(r)
  {
  }

  // Pop and push between two stacks, the same one or not.
  lemma MovedOk(c: Cpu, source: nat, target: nat, v: cell)
    requires CpuOk(c) && c.keepGoing && source < 4 && target < 4
    ensures CpuOk(PopOff(c, source).0) && Grown(c, PushOn(PopOff(c, source).0, target, v))
  {
  }

  lemma PushOk(c: Cpu, id: nat, v: cell)
    requires CpuOk(c) && c.keepGoing && id < 4
    ensures Grown(c, PushOn(c, id, v))
  {
  }

  // DUP: one popped, two pushed.
  lemma TwicePushed(c: Cpu, id: nat, v: cell)
    requires CpuOk(c) && c.keepGoing && id < 4
    ensures Grown(c, PushOn(PushOn(PopOff(c, id).0, id, v), id, v))
  {
  }

  // SWAP: two popped, two pushed.
  lemma Swapped(c: Cpu, id: nat, v: cell, w: cell)
    requires CpuOk(c) && c.keepGoing && id < 4
    ensures Grown(c, PushOn(PushOn(PopOff(PopOff(c, id).0, id).0, id, v), id, w))
  {
  }

  // The two-value operators and STO.
  lemma TwicePopped(c: Cpu, id: nat, v: cell)
    requires CpuOk(c) && c.keepGoing && id < 4
    ensures Grown(c, PopOff(PopOff(c, id).0, id).0) && Grown(c, PushOn(PopOff(PopOff(c, id).0, id).0, id, v))
  {
  }

  lemma InstructionOk(c: Cpu, m: Memory)
    requires CpuOk(c) && c.keepGoing
    ensures Grown(c, Instruction(c, m))
  {
    hide PushOn, PopOff, Operate, SizeOf, Offset, Wrap;
    var source, target := c.instruction / 0x40 % 4, c.instruction / 0x10 % 4;
    var load := c.instruction / 0x400 % 4;
    PushOk(c, RETURN, Wrap(c.pc + 2));
    PushOk(c, load, c.instruction % 0x400);
    MovedOk(c, DATA, DATA, 0);
    MovedOk(c, RETURN, RETURN, 0);
    OneValueOk(c, m);
    TwoValuesOk(c);
    StackWordsOk(c);
    LoadHighOk(c);
    hide OneValue, TwoValues, StackWords, LoadHigh;
  }

  lemma LoadHighOk(c: Cpu)
    requires CpuOk(c) && c.keepGoing
    ensures Grown(c, LoadHigh(c))
  {
    hide PushOn, PopOff, SizeOf, Wrap, Or16;
    var id := c.instruction / 0x400 % 4;
    MovedOk(c, id, id, Or16(PopOff(c, id).1, c.instruction % 0x40 * 0x400));
  }

  lemma StackWordsOk(c: Cpu)
    requires CpuOk(c) && c.keepGoing
    ensures Grown(c, StackWords(c))
  {
    hide PushOn, PopOff, SizeOf, Wrap;
    var source, target := c.instruction / 0x40 % 4, c.instruction / 0x10 % 4;
    var v := PopOff(c, source).1;
    MovedOk(c, source, target, v);
    TwicePushed(c, source, v);
    Swapped(c, source, v, PopOff(PopOff(c, source).0, source).1);
  }

  lemma TwoValuesOk(c: Cpu)
    requires CpuOk(c) && c.keepGoing
    ensures Grown(c, TwoValues(c))
  {
    hide PushOn, PopOff, Operate, SizeOf, Wrap;
    var s := PopOff(c, DATA).0;
    TwicePopped(c, DATA,
      Operate(c.instruction / 0x80 % 32, c.instruction / 0x10 % 2 == 1, PopOff(c, DATA).1, PopOff(s, DATA).1));
  }

  lemma OneValueOk(c: Cpu, m: Memory)
    requires CpuOk(c) && c.keepGoing
    ensures Grown(c, OneValue(c, m))
  {
    hide PushOn, PopOff, SizeOf, Wrap;
    var v := PopOff(c, DATA).1;
    MovedOk(c, DATA, DATA, Wrap(-(v as int)));
    MovedOk(c, DATA, DATA, 0xFFFF - v);
    MovedOk(c, DATA, DATA, Fetch8(m, v));
  }

  // One turn of the loop keeps the invariant.
  lemma StepOk(c: Cpu, m: Memory)
    requires CpuOk(c) && c.keepGoing
    ensures CpuOk(Step(c, m))
  {
    hide Instruction, SizeOf;
    var s := c.(instruction := Fetch16(m, c.pc));
    InstructionOk(s, m);
    GrownOk(s, Instruction(s, m));
  }

  // The loop of run, n turns at most.
  function Run(c: Cpu, m: Memory, n: nat): (r: Cpu)
    requires |c.stacks| == 4
    ensures |r.stacks| == 4
    decreases n
  {
    if n == 0 || !c.keepGoing then c
    else Run(Step(c, m), m, n - 1)
  }

  // From reset, whatever the program image is: every stack stays within its
  // size, and while the processor keeps going there has been no exception and
  // every stack has room for one more value.
  lemma {:induction false} RunOk(c: Cpu, m: Memory, n: nat)
    requires CpuOk(c)
    ensures CpuOk(Run(c, m, n))
    decreases n
  {
    hide Step;
    if n > 0 && c.keepGoing {
      StepOk(c, m);
      RunOk(Step(c, m), m, n - 1);
    }
  }

  lemma FromReset(m: Memory, n: nat)
    ensures Reset([]).pc == 0xF000 && Reset([]).stacks == [[], [], [], []]
    ensures var c := Run(Reset([]), m, n);
            && |c.stacks[DATA]| <= 16 && |c.stacks[TEMP]| <= 16 && |c.stacks[RETURN]| <= 32 && |c.stacks[CONTROL]| <= 32
            && (forall id :: 0 <= id < 4 ==> |c.stacks[id]| <= SizeOf(id) <= MAX_STACK_SIZE)
            && (c.keepGoing ==> c.exception == AllIsOk && forall id :: 0 <= id < 4 ==> |c.stacks[id]| < SizeOf(id))
  {
    RunOk(Reset([]), m, n);
  }

  // Encoding and decoding.

  lemma {:induction false} OrCommutes(a: nat, b: nat)
    ensures Or(a, b) == Or(b, a)
    decreases a
  {
    if a > 0 && b > 0 { OrCommutes(a / 2, b / 2); }
  }

  // The fields of LDL and LDH do not overlap.
  lemma WithStackAdds(opcode: cell, v: cell, stack: nat)
    requires stack < 4 && v < 0x400 && (opcode == 0xC000 || opcode == 0xD000)
    ensures WithStack(opcode, v, stack) == opcode + stack * 0x400 + v
  {
    hide Or, Pow2;
    Powers();
    OrAdds(opcode / 0x400, v, 10);
    OrSplit(opcode / 0x1000, v, stack * 0x400, 12);
    OrCommutes(v, stack * 0x400);
    OrAdds(stack, v, 10);
  }

  lemma HighAdds(low: nat, high: nat)
    requires low < 0x400 && high < 0x40
    ensures Or(low, high * 0x400) == high * 0x400 + low
  {
    hide Or, Pow2;
    Powers();
    OrCommutes(low, high * 0x400);
    OrAdds(high, low, 10);
  }

  // The two words of LD: from any state with room for two values, the stack
  // the emulator decodes gets exactly the value, the others are as they were.
  lemma LoadExecutes(c: Cpu, m: Memory, words: seq<string>, t: seq<Symbol>)
    requires CpuOk(c) && c.keepGoing && !c.singleStep && c.pc + 3 < SIZE
    requires LoadBoth(words, c.pc, t).ok
    requires Fetch16(m, c.pc) == LoadBoth(words, c.pc, t).code[0]
    requires Fetch16(m, c.pc + 2) == LoadBoth(words, c.pc, t).code[1]
    requires |c.stacks[LoadOperands(words, t).0]| + 1 < SizeOf(LoadOperands(words, t).0)
    ensures var (id, n) := LoadOperands(words, t);
            var r := Run(c, m, 2);
            && r.keepGoing && r.pc == Wrap(c.pc + 4) && r.out == c.out
            && r.stacks == c.stacks[id := c.stacks[id] + [Wrap(n.value)]]
  {
    hide Or16, ReadNumber, Fetch16, Step, SizeOf, Run;
    var (id, n) := LoadOperands(words, t);
    var v := Wrap(n.value);
    WithStackAdds(0xC000, v % 0x400, id);
    WithStackAdds(0xD000, v / 0x400, id);
    hide WithStack;
    var s := Step(c, m);
    LowStep(c, m, id, v % 0x400);
    HighAdds(v % 0x400, v / 0x400);
    StepOk(c, m);
    HighStep(s, m, id, v % 0x400, v / 0x400);
    RunTwo(c, m);
    TenBits(v);
    assert (c.stacks[id] + [v % 0x400])[..|c.stacks[id]|] == c.stacks[id];
    assert s.stacks[id := c.stacks[id] + [v]] == c.stacks[id := c.stacks[id] + [v]];
  }

  lemma TenBits(v: cell)
    ensures v / 0x400 * 0x400 + v % 0x400 == v && v / 0x400 < 0x40
  {
  }

  lemma RunTwo(c: Cpu, m: Memory)
    requires |c.stacks| == 4 && c.keepGoing && Step(c, m).keepGoing
    ensures Run(c, m, 2) == Step(Step(c, m), m)
  {
    hide Step;
    var s := Step(c, m);
    assert Run(s, m, 1) == Run(Step(s, m), m, 0);
  }

  lemma LowStep(c: Cpu, m: Memory, id: nat, low: nat)
    requires CpuOk(c) && c.keepGoing && !c.singleStep && id < 4 && low < 0x400 && |c.stacks[id]| + 1 < SizeOf(id)
    requires Fetch16(m, c.pc) == 0xC000 + id * 0x400 + low
    ensures Step(c, m)
            == c.(instruction := Fetch16(m, c.pc), pc := Wrap(c.pc + 2), stacks := c.stacks[id := c.stacks[id] + [low]])
  {
    hide Fetch16;
    var w := Fetch16(m, c.pc);
    assert w / 0x1000 == 0xC && w / 0x400 % 4 == id && w % 0x400 == low;
  }

  lemma HighStep(c: Cpu, m: Memory, id: nat, low: cell, high: nat)
    requires CpuOk(c) && c.keepGoing && !c.singleStep && id < 4 && high < 0x40
    requires c.stacks[id] != [] && c.stacks[id][|c.stacks[id]| - 1] == low
    requires Fetch16(m, c.pc) == 0xD000 + id * 0x400 + high && Or(low, high * 0x400) == high * 0x400 + low < 0x1_0000
    ensures Step(c, m) == c.(instruction := Fetch16(m, c.pc), pc := Wrap(c.pc + 2),
                             stacks := c.stacks[id := c.stacks[id][..|c.stacks[id]| - 1] + [high * 0x400 + low]])
  {
    hide Fetch16, Or16, Or, SizeOf, Wrap;
    var w := Fetch16(m, c.pc);
    assert w / 0x1000 == 0xD && w / 0x400 % 4 == id && w % 0x40 == high;
    var s := c.stacks[id];
    assert c.stacks[id := s[..|s| - 1]][id := s[..|s| - 1] + [high * 0x400 + low]] ==
           c.stacks[id := s[..|s| - 1] + [high * 0x400 + low]];
  }

  // The letters of the assembler, as the manual names the emulator's stacks.
  function NamedStack(letter: char): nat {
    if letter == 'R' then RETURN else if letter == 'C' then CONTROL else if letter == 'T' then TEMP else DATA
  }

  // The stack that gets the value of LD, LDL and LDH: the assembler has the ids of C
  // and R the other way round.
  function Receiver(letter: char): nat {
    if letter == 'R' then CONTROL else if letter == 'C' then RETURN else if letter == 'T' then TEMP else DATA
  }

  // So LD, run, pushes its value on the stack it names exactly when it names D or
  // T; LD C n pushes it on the return stack and LD R n on the control stack.
  lemma LetterReaches(c: Cpu, m: Memory, words: seq<string>, t: seq<Symbol>)
    requires CpuOk(c) && c.keepGoing && !c.singleStep && c.pc + 3 < SIZE
    requires LoadBoth(words, c.pc, t).ok
    requires Fetch16(m, c.pc) == LoadBoth(words, c.pc, t).code[0]
    requires Fetch16(m, c.pc + 2) == LoadBoth(words, c.pc, t).code[1]
    requires |c.stacks[LoadOperands(words, t).0]| + 1 < SizeOf(LoadOperands(words, t).0)
    ensures |words| >= 2 && words[1] != []
    ensures var letter := words[1][0];
            var v := Wrap(LoadOperands(words, t).1.value);
            var r := Run(c, m, 2);
            var to, named := Receiver(letter), NamedStack(letter);
            && r.stacks == c.stacks[to := c.stacks[to] + [v]]
            && (r.stacks == c.stacks[named := c.stacks[named] + [v]] <==> letter in {'D', 'T'})
  {
    hide Or16, ReadNumber, Fetch16, Run, SizeOf, Wrap, WithStack;
    LoadExecutes(c, m, words, t);
    var letter := words[1][0];
    var v := Wrap(LoadOperands(words, t).1.value);
    var to, named := Receiver(letter), NamedStack(letter);
    assert LoadOperands(words, t).0 == to;
    if to != named {
      assert c.stacks[to := c.stacks[to] + [v]][to] != c.stacks[named := c.stacks[named] + [v]][to];
    }
  }

  // A taken BIF goes to its label exactly when the distance, as a signed
  // 16-bit number, fits twelve bits.
  lemma BranchExecutes(c: Cpu, m: Memory, words: seq<string>, t: seq<Symbol>)
    requires CpuOk(c) && c.keepGoing && !c.singleStep && Branch(words, c.pc, t).ok
    requires Fetch16(m, c.pc) == Branch(words, c.pc, t).code[0]
    requires c.stacks[DATA] != [] && c.stacks[DATA][|c.stacks[DATA]| - 1] == 0
    ensures FindSymbol(t, words[1]).Value?
    ensures Step(c, m).pc == FindSymbol(t, words[1]).value <==>
            -2048 <= Signed(Wrap(FindSymbol(t, words[1]).value - c.pc)) <= 2047
  {
    hide Or16, Fetch16, FindSymbol, Step, Wrap, Signed, Branch, CpuOk;
    BranchCode(words, c.pc, t);
    var location := FindSymbol(t, words[1]).value;
    var delta := Wrap(location - c.pc);
    BranchStep(c, m, delta % 0x1000);
    BranchTarget(c.pc, location);
  }

  lemma BranchCode(words: seq<string>, pc: cell, t: seq<Symbol>)
    requires Branch(words, pc, t).ok
    ensures |words| > 1 && FindSymbol(t, words[1]).Value? && |Branch(words, pc, t).code| == 1
    ensures Branch(words, pc, t).code[0] == 0x1000 + Wrap(FindSymbol(t, words[1]).value - pc) % 0x1000
  {
    hide Or16, FindSymbol, Wrap;
    BranchWord(Wrap(FindSymbol(t, words[1]).value - pc));
  }

  lemma BranchWord(delta: cell)
    ensures Or16(0x1000, delta % 0x1000) == 0x1000 + delta % 0x1000
  {
    hide Or, Pow2;
    Powers();
    OrAdds(1, delta % 0x1000, 12);
  }

  lemma BranchStep(c: Cpu, m: Memory, d: nat)
    requires CpuOk(c) && c.keepGoing && !c.singleStep && d < 0x1000 && Fetch16(m, c.pc) == 0x1000 + d
    requires c.stacks[DATA] != [] && c.stacks[DATA][|c.stacks[DATA]| - 1] == 0
    ensures Step(c, m).pc == Wrap(c.pc + if d < 0x800 then d else d - 0x1000) && Step(c, m).keepGoing
  {
    hide Fetch16;
    var w := Fetch16(m, c.pc);
    assert w / 0x1000 == 1 && w % 0x1000 == d;
  }

  lemma BranchTarget(pc: cell, location: cell)
    ensures var delta := Wrap(location - pc);
            var d := delta % 0x1000;
            Wrap(pc + if d < 0x800 then d else d - 0x1000) == location <==> -2048 <= Signed(delta) <= 2047
  {
    var delta := Wrap(location - pc);
    assert delta == location - pc || delta == location - pc + 0x1_0000;
    assert delta == 0x1000 * (delta / 0x1000) + delta % 0x1000;
  }

  // ENTER: the program counter becomes the label's address and the return stack
  // gets the address of the next instruction.
  lemma EnterExecutes(c: Cpu, m: Memory, words: seq<string>, t: seq<Symbol>)
    requires CpuOk(c) && c.keepGoing && !c.singleStep && Enter(words, c.pc, t).ok
    requires Fetch16(m, c.pc) == Enter(words, c.pc, t).code[0]
    ensures FindSymbol(t, words[1]).Value?
    ensures Step(c, m).pc == FindSymbol(t, words[1]).value
    ensures Step(c, m).stacks == c.stacks[RETURN := c.stacks[RETURN] + [Wrap(c.pc + 2)]]
  {
    hide Or16, Fetch16, FindSymbol, Step, Wrap;
    var location := FindSymbol(t, words[1]).value;
    EnterCode(location);
    EnterStep(c, m, location / 4);
  }

  lemma EnterStep(c: Cpu, m: Memory, d: nat)
    requires CpuOk(c) && c.keepGoing && !c.singleStep && d < 0x4000 && Fetch16(m, c.pc) == 0x4000 + d
    ensures Step(c, m).pc == 4 * d
    ensures Step(c, m).stacks == c.stacks[RETURN := c.stacks[RETURN] + [Wrap(c.pc + 2)]]
  {
    hide Fetch16, Wrap;
    var w := Fetch16(m, c.pc);
    assert 4 <= w / 0x1000 < 8 && w % 0x4000 == d;
  }

  lemma EnterCode(location: cell)
    ensures Or16(0x4000, location / 4 % 0x4000) == 0x4000 + location / 4
  {
    hide Or, Pow2;
    Powers();
    OrAdds(1, location / 4 % 0x4000, 14);
  }

  // Line k is assembled, loaded and not overwritten.
  ghost predicate InPlace(lines: seq<Line>, k: nat)
    requires LinesOk(lines) && k < |lines| && lines[k].Code? && ByteCount(lines[k].words[0]) > 0
  {
    && NoStubs(lines) && Assembled(lines).Output?
    && var u := FirstPass(lines).table;
       var ops := SecondPass(lines, u).ops;
       var e := SecondPass(lines[..k], u);
       Fits(0, ops) && Kept(ops, |SecondPass(lines[..k + 1], u).ops|, e.address, ByteCount(lines[k].words[0]))
  }

  // No request from the ith on puts a byte at any of a, a+1, ..., a+n-1.
  ghost predicate Kept(ops: seq<Op>, i: nat, a: int, n: nat) {
    forall j :: i <= j < |ops| && ops[j].Emit? ==> !(a <= Position(0, ops[..j]) < a + n)
  }

  lemma KeptUntouched(ops: seq<Op>, i: nat, a: int, n: nat, x: int)
    requires Kept(ops, i, a, n) && a <= x < a + n
    ensures Untouched(ops, i, x)
  {
    hide Position;
  }

  // Its jth word is in memory.
  lemma WordInPlace(lines: seq<Line>, k: nat, m: Memory, j: nat)
    requires LinesOk(lines) && k < |lines| && lines[k].Code? && 2 * j < ByteCount(lines[k].words[0])
             && InPlace(lines, k)
    ensures var u := FirstPass(lines).table;
            var a := SecondPass(lines[..k], u).address;
            var g := Generate(lines[k].words, a, u);
            && LoadText(Assembled(lines).text, m).Loaded? && g.ok && |g.code| > j && a + 2 * j + 1 < SIZE
            && Fetch16(LoadText(Assembled(lines).text, m).mem, a + 2 * j) == g.code[j]
  {
    hide LoadText, Fits, Untouched, Kept, Scan, EmitLine, Generate, Assembled, ByteCount, FirstPass, SecondPass;
    var u := FirstPass(lines).table;
    var a := SecondPass(lines[..k], u).address;
    AssembledOk(lines);
    SecondPassGrows(lines, u, k);
    SecondPassGrows(lines, u, k + 1);
    CodeOk(lines, u, k);
    GeneratedSize(lines[k].words, a, u);
    var n := ByteCount(lines[k].words[0]);
    KeptUntouched(SecondPass(lines, u).ops, |SecondPass(lines[..k + 1], u).ops|, a, n, a as int + 2 * j);
    KeptUntouched(SecondPass(lines, u).ops, |SecondPass(lines[..k + 1], u).ops|, a, n, a as int + 2 * j + 1);
    InstructionLoaded(lines, m, k, j);
  }

  lemma CodeOk(lines: seq<Line>, u: seq<Symbol>, k: nat)
    requires LinesOk(lines) && k < |lines| && lines[k].Code? && ByteCount(lines[k].words[0]) > 0
    requires SecondPass(lines[..k], u).ok && SecondPass(lines[..k + 1], u).ok
    ensures Generate(lines[k].words, SecondPass(lines[..k], u).address, u).ok
  {
    hide Generate, EmitWords;
    assert lines[..k + 1][..k] == lines[..k] && lines[..k + 1][k] == lines[k];
  }

  lemma ShortCode()
    ensures ByteCount("BIF") == ByteCount("ENTER") == 2 && ByteCount("LD") == 4
  {
  }

  lemma NamedCode(words: seq<string>, address: cell, u: seq<Symbol>)
    requires words != [] && ByteCount(words[0]) > 0
    ensures words[0] == "BIF" ==> Generate(words, address, u) == Branch(words, address, u)
    ensures words[0] == "ENTER" ==> Generate(words, address, u) == Enter(words, address, u)
    ensures words[0] == "LD" ==> Generate(words, address, u) == LoadBoth(words, address, u)
  {
  }

  lemma PlacedWhole(lines: seq<Line>, k: nat)
    requires LinesOk(lines) && k < |lines| && lines[k].Code? && ByteCount(lines[k].words[0]) > 0 && InPlace(lines, k)
    ensures NoStubs(lines) && Assembled(lines).Output?
  {
  }

  // Assembler, loader and emulator together: a BIF that is assembled, loaded
  // and taken goes to the address where the byte after its label was placed
  // exactly when the label is near enough, before or after it in the source.
  lemma AssembledBranch(lines: seq<Line>, k: nat, l: nat, m: Memory, c: Cpu)
    requires LinesOk(lines) && k < |lines| && lines[k].Code? && |lines[k].words| >= 2 && lines[k].words[0] == "BIF"
    requires InPlace(lines, k) && l < |lines| && lines[l] == Label(lines[k].words[1])
    requires CpuOk(c) && c.keepGoing && !c.singleStep && c.stacks[DATA] != []
             && c.stacks[DATA][|c.stacks[DATA]| - 1] == 0
    requires c.pc == SecondPass(lines[..k], FirstPass(lines).table).address
    ensures LoadText(Assembled(lines).text, m).Loaded?
    ensures var u := FirstPass(lines).table;
            var target := Wrap(Position(0, SecondPass(lines[..l + 1], u).ops));
            var r := Step(c, LoadText(Assembled(lines).text, m).mem);
            r.pc == target <==> -2048 <= Signed(Wrap(target - c.pc)) <= 2047
  {
    hide LoadText, InPlace, Assembled, FirstPass, SecondPass, Step, Position, Branch, FindSymbol, Signed, Wrap;
    hide ByteCount;
    var u := FirstPass(lines).table;
    var words := lines[k].words;
    assert ByteCount(words[0]) == 2 by { ShortCode(); }
    WordInPlace(lines, k, m, 0);
    PlacedWhole(lines, k);
    assert Generate(words, c.pc, u) == Branch(words, c.pc, u) by { NamedCode(words, c.pc, u); }
    LabelIsAddress(lines, l);
    BranchExecutes(c, LoadText(Assembled(lines).text, m).mem, words, u);
  }

  // The same for ENTER, at any distance.
  lemma AssembledCall(lines: seq<Line>, k: nat, l: nat, m: Memory, c: Cpu)
    requires LinesOk(lines) && k < |lines| && lines[k].Code? && |lines[k].words| >= 2 && lines[k].words[0] == "ENTER"
    requires InPlace(lines, k) && l < |lines| && lines[l] == Label(lines[k].words[1])
    requires CpuOk(c) && c.keepGoing && !c.singleStep
    requires c.pc == SecondPass(lines[..k], FirstPass(lines).table).address
    ensures LoadText(Assembled(lines).text, m).Loaded?
    ensures var r := Step(c, LoadText(Assembled(lines).text, m).mem);
            && r.pc == Wrap(Position(0, SecondPass(lines[..l + 1], FirstPass(lines).table).ops))
            && r.stacks == c.stacks[RETURN := c.stacks[RETURN] + [Wrap(c.pc + 2)]]
  {
    hide LoadText, InPlace, Assembled, FirstPass, SecondPass, Step, Position, Enter, FindSymbol, Wrap, ByteCount;
    var u := FirstPass(lines).table;
    var words := lines[k].words;
    assert ByteCount(words[0]) == 2 by { ShortCode(); }
    WordInPlace(lines, k, m, 0);
    PlacedWhole(lines, k);
    NamedCode(words, c.pc, u);
    LabelIsAddress(lines, l);
    EnterExecutes(c, LoadText(Assembled(lines).text, m).mem, words, u);
  }

  // And for LD: two steps on, the value is on the stack that the letter reaches,
  // the others are as they were, and the next instruction is the next line's.
  lemma AssembledLoad(lines: seq<Line>, k: nat, m: Memory, c: Cpu)
    requires LinesOk(lines) && k < |lines| && lines[k].Code? && lines[k].words[0] == "LD" && InPlace(lines, k)
    requires CpuOk(c) && c.keepGoing && !c.singleStep && c.pc == SecondPass(lines[..k], FirstPass(lines).table).address
    requires |lines[k].words| >= 2 && lines[k].words[1] != [] ==>
             var to := Receiver(lines[k].words[1][0]); |c.stacks[to]| + 1 < SizeOf(to)
    ensures LoadText(Assembled(lines).text, m).Loaded?
    ensures |lines[k].words| >= 3 && lines[k].words[1] != []
            && ReadNumber(lines[k].words[2], FirstPass(lines).table).Number?
    ensures var letter, n := lines[k].words[1][0], ReadNumber(lines[k].words[2], FirstPass(lines).table);
            var r := Run(c, LoadText(Assembled(lines).text, m).mem, 2);
            var to, v := Receiver(letter), Wrap(n.value);
            && r.keepGoing && r.pc == Wrap(c.pc + 4) && r.out == c.out && r.stacks == c.stacks[to := c.stacks[to] + [v]]
            && (to == NamedStack(letter) <==> letter in {'D', 'T'})
  {
    hide LoadText, InPlace, Assembled, FirstPass, SecondPass, Run, Position, FindSymbol, Wrap, ByteCount, ReadNumber;
    hide WithStack, SizeOf;
    var u := FirstPass(lines).table;
    var words := lines[k].words;
    assert ByteCount(words[0]) == 4 by { ShortCode(); }
    WordInPlace(lines, k, m, 0);
    WordInPlace(lines, k, m, 1);
    PlacedWhole(lines, k);
    NamedCode(words, c.pc, u);
    LoadExecutes(c, LoadText(Assembled(lines).text, m).mem, words, u);
  }
}
