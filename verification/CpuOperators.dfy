// What each mnemonic does when it is assembled, loaded and executed, in terms of
// numbers and bits.
module CpuOperators {
  import opened Dataspace
  import opened AsmNumbers
  import opened AsmCode
  import opened AsmText
  import opened AsmErrors
  import opened AsmPasses
  import opened AsmTheorem
  import opened HexFormat
  import opened CpuState
  import opened CpuTheorem

  // The ith bit of n.
  predicate Bit(n: nat, i: nat) {
    if i == 0 then n % 2 == 1 else Bit(n / 2, i - 1)
  }

  // x is the number that n stands for in two's complement.
  ghost predicate StandsFor(n: cell, x: int) {
    -0x8000 <= x < 0x8000 && (x - n) % 0x1_0000 == 0
  }

  // A truth value.
  ghost predicate Says(v: cell, b: bool) {
    v == if b then 0xFFFF else 0
  }

  // v is what the operator of that name makes of x, and y above it.
  ghost predicate Computes(name: string, x: cell, y: cell, v: cell) {
    if name == "ADD" then v == (x + y) % 0x1_0000
    else if name == "MUL" || name == "MULU" then v == (x * y) % 0x1_0000
    else if name == "EQ" then Says(v, x == y)
    else if name == "LTU" then Says(v, x < y)
    else if name == "GTU" then Says(v, x > y)
    else if name == "LTEU" then Says(v, x <= y)
    else if name == "GTEU" then Says(v, x >= y)
    else if name == "LT" then forall s, t :: StandsFor(x, s) && StandsFor(y, t) ==> Says(v, s < t)
    else if name == "GT" then forall s, t :: StandsFor(x, s) && StandsFor(y, t) ==> Says(v, s > t)
    else if name == "LTE" then forall s, t :: StandsFor(x, s) && StandsFor(y, t) ==> Says(v, s <= t)
    else if name == "GTE" then forall s, t :: StandsFor(x, s) && StandsFor(y, t) ==> Says(v, s >= t)
    else if name == "LSL" then v == (x * Power(y)) % 0x1_0000
    else if name == "LSR" then v == x / Power(y)
    else if name == "ASR" then y < 0x8000 ==> forall s :: StandsFor(x, s) ==> StandsFor(v, s / Power(y))
    else if name == "AND" then forall i: nat :: Bit(v, i) <==> Bit(x, i) && Bit(y, i)
    else if name == "OR" then forall i: nat :: Bit(v, i) <==> Bit(x, i) || Bit(y, i)
    else name == "XOR" && forall i: nat :: Bit(v, i) <==> Bit(x, i) != Bit(y, i)
  }

  function Power(k: nat): (r: nat)
    ensures r > 0
  {
    if k == 0 then 1 else Power(k - 1) + Power(k - 1)
  }

  predicate IsOperatorName(name: string) {
    name in {"ADD", "MUL", "MULU", "EQ", "LTU", "GTU", "LTEU", "GTEU", "LT", "GT", "LTE", "GTE", "LSL", "LSR", "ASR",
             "AND", "OR", "XOR"}
  }

  lemma {:induction false} PowerIs(k: nat)
    ensures Shift(k) == Power(k)
    decreases k
  {
    if k > 0 { PowerIs(k - 1); }
  }

  lemma SignedStands(n: cell)
    ensures StandsFor(n, Signed(n))
    ensures forall x :: StandsFor(n, x) ==> x == Signed(n)
  {
  }

  lemma {:induction false} AndBits(a: nat, b: nat, i: nat)
    ensures Bit(And(a, b), i) <==> Bit(a, i) && Bit(b, i)
    decreases i
  {
    NoBits(i);
    if i > 0 && a > 0 && b > 0 { AndBits(a / 2, b / 2, i - 1); }
  }

  lemma {:induction false} NoBits(i: nat)
    ensures !Bit(0, i)
    decreases i
  {
    if i > 0 { NoBits(i - 1); }
  }

  lemma {:induction false} OrBits(a: nat, b: nat, i: nat)
    ensures Bit(Or(a, b), i) <==> Bit(a, i) || Bit(b, i)
    decreases i
  {
    NoBits(i);
    if i > 0 && a > 0 && b > 0 { OrBits(a / 2, b / 2, i - 1); }
  }

  lemma {:induction false} XorBits(a: nat, b: nat, i: nat)
    ensures Bit(Xor(a, b), i) <==> Bit(a, i) != Bit(b, i)
    decreases i
  {
    NoBits(i);
    if i > 0 && a > 0 && b > 0 { XorBits(a / 2, b / 2, i - 1); }
  }

  lemma {:induction false} XorBound(a: nat, b: nat, k: nat)
    requires a < Pow2(k) && b < Pow2(k)
    ensures Xor(a, b) < Pow2(k)
    decreases k
  {
    if a > 0 && b > 0 && k > 0 { XorBound(a / 2, b / 2, k - 1); }
  }

  // The function and the sign bit of an operator's code.
  function Func(code: cell): nat {
    code / 0x80 % 32
  }

  predicate SignBit(code: cell) {
    code / 0x10 % 2 == 1
  }

  lemma ShiftedRight(x: int, n: nat)
    requires -0x8000 <= x < 0x8000 && n > 0
    ensures -0x8000 <= x / n < 0x8000
  {
    Quotient(x, n);
  }

  lemma Quotient(x: int, n: nat)
    requires n > 0
    ensures x >= 0 ==> 0 <= x / n <= x
    ensures x < 0 ==> x <= x / n <= 0
  {
    var q, r := x / n, x % n;
    assert x == q * n + r && 0 <= r < n;
    NoMore(-q, n - 1);
    assert -q * (n - 1) == -(q * n) + q;
    NoMore(q + 1, n - 1);
    assert (q + 1) * (n - 1) == q * n + n - q - 1;
  }

  lemma NoMore(p: int, k: nat)
    ensures p <= 0 ==> p * k <= 0
  {
  }

  // The emulator's operator computes what the mnemonic says, from the code the
  // assembler gives it.
  lemma OperatorComputes(name: string, x: cell, y: cell)
    requires IsOperatorName(name)
    ensures PlainCode(name).Value?
    ensures var code := PlainCode(name).value;
            && code / 0x1000 == 0xE && IsOperator(Func(code), SignBit(code))
            && Computes(name, x, y, Operate(Func(code), SignBit(code), y, x))
  {
    hide Shift, And, Or, Or16, Xor, Bit, Power, StandsFor, Operate, Signed, Says;
    OperatorCodes(name);
    if name in {"ADD", "MUL", "MULU", "EQ"} { Arithmetic(x, y); }
    else if name in {"LTU", "GTU", "LTEU", "GTEU"} { Orders(x, y); }
    else if name in {"LT", "GT", "LTE", "GTE"} { SignedOrders(x, y); }
    else if name in {"LSL", "LSR"} { Shifts(x, y); }
    else if name == "ASR" { SignedShift(x, y); }
    else { BitOperators(x, y); }
  }

  lemma OperatorCodes(name: string)
    requires IsOperatorName(name)
    ensures PlainCode(name).Value? && PlainCode(name).value / 0x1000 == 0xE
    ensures var f, s := Func(PlainCode(name).value), SignBit(PlainCode(name).value);
            && (name == "ADD" ==> f == 0x00) && (name in {"MUL", "MULU"} ==> f == 0x01)
            && (name == "EQ" ==> f == 0x03) && (name == "ASR" ==> f == 0x04 && s)
            && (name == "LT" ==> f == 0x05 && s) && (name == "GT" ==> f == 0x06 && s)
            && (name == "LTE" ==> f == 0x07 && s) && (name == "GTE" ==> f == 0x08 && s)
            && (name == "LTU" ==> f == 0x05 && !s) && (name == "GTU" ==> f == 0x06 && !s)
            && (name == "LTEU" ==> f == 0x07 && !s) && (name == "GTEU" ==> f == 0x08 && !s)
            && (name == "LSL" ==> f == 0x09) && (name == "LSR" ==> f == 0x0A) && (name == "AND" ==> f == 0x0D)
            && (name == "OR" ==> f == 0x0E) && (name == "XOR" ==> f == 0x0F)
  {
    hide PlainCode;
    if name in {"ADD", "MUL", "MULU", "EQ", "ASR", "AND", "OR", "XOR"} { ValueCodes(); }
    else if name in {"LTU", "GTU", "LTEU", "GTEU"} { UnsignedCodes(); }
    else { OrderCodes(); }
  }

  lemma ValueCodes()
    ensures PlainCode("ADD") == Value(0xE010) && PlainCode("MUL") == Value(0xE080) && PlainCode("MULU") == Value(0xE090)
    ensures PlainCode("EQ") == Value(0xE180) && PlainCode("ASR") == Value(0xE210) && PlainCode("AND") == Value(0xE680)
    ensures PlainCode("OR") == Value(0xE700) && PlainCode("XOR") == Value(0xE780)
  {
  }

  lemma OrderCodes()
    ensures PlainCode("LT") == Value(0xE290) && PlainCode("GT") == Value(0xE310) && PlainCode("LTE") == Value(0xE390)
    ensures PlainCode("GTE") == Value(0xE410) && PlainCode("LSL") == Value(0xE480) && PlainCode("LSR") == Value(0xE500)
  {
  }

  lemma UnsignedCodes()
    ensures PlainCode("LTU") == Value(0xE280) && PlainCode("GTU") == Value(0xE300)
    ensures PlainCode("LTEU") == Value(0xE380) && PlainCode("GTEU") == Value(0xE400)
  {
  }

  lemma Arithmetic(x: cell, y: cell)
    ensures forall s :: Operate(0x00, s, y, x) == (x + y) % 0x1_0000
    ensures forall s :: Operate(0x01, s, y, x) == (x * y) % 0x1_0000
    ensures forall s :: Says(Operate(0x03, s, y, x), x == y)
  {
  }

  lemma Orders(x: cell, y: cell)
    ensures Says(Operate(0x05, false, y, x), x < y) && Says(Operate(0x06, false, y, x), x > y)
    ensures Says(Operate(0x07, false, y, x), x <= y) && Says(Operate(0x08, false, y, x), x >= y)
  {
  }

  lemma SignedOrders(x: cell, y: cell)
    ensures forall s, t :: StandsFor(x, s) && StandsFor(y, t) ==>
              && Says(Operate(0x05, true, y, x), s < t) && Says(Operate(0x06, true, y, x), s > t)
              && Says(Operate(0x07, true, y, x), s <= t) && Says(Operate(0x08, true, y, x), s >= t)
  {
    hide Signed, StandsFor;
    SignedStands(x);
    SignedStands(y);
  }

  lemma Shifts(x: cell, y: cell)
    ensures forall s :: Operate(0x09, s, y, x) == (x * Power(y)) % 0x1_0000
    ensures forall s :: Operate(0x0A, s, y, x) == x / Power(y)
  {
    hide Shift, Power;
    PowerIs(y);
    Quotient(x, Power(y));
  }

  lemma SignedShift(x: cell, y: cell)
    ensures y < 0x8000 ==> forall s :: StandsFor(x, s) ==> StandsFor(Operate(0x04, true, y, x), s / Power(y))
  {
    hide Shift, Power, StandsFor;
    PowerIs(y);
    SignedStands(x);
    var q := Signed(x) / Power(y);
    ShiftedRight(Signed(x), Power(y));
    assert StandsFor(Wrap(q), q) by { WrapStands(q); }
  }

  lemma WrapStands(q: int)
    requires -0x8000 <= q < 0x8000
    ensures StandsFor(Wrap(q), q)
  {
  }

  lemma BitOperators(x: cell, y: cell)
    ensures forall s, i: nat :: Bit(Operate(0x0D, s, y, x), i) <==> Bit(x, i) && Bit(y, i)
    ensures forall s, i: nat :: Bit(Operate(0x0E, s, y, x), i) <==> Bit(x, i) || Bit(y, i)
    ensures forall s, i: nat :: Bit(Operate(0x0F, s, y, x), i) <==> Bit(x, i) != Bit(y, i)
  {
    hide And, Or, Xor, Bit, Or16, Pow2;
    Powers();
    XorBound(x, y, 16);
    forall i: nat
      ensures Bit(And(x, y), i) <==> Bit(x, i) && Bit(y, i)
      ensures Bit(Or(x, y), i) <==> Bit(x, i) || Bit(y, i)
      ensures Bit(Xor(x, y), i) <==> Bit(x, i) != Bit(y, i)
    {
      AndBits(x, y, i);
      OrBits(x, y, i);
      XorBits(x, y, i);
    }
  }

  // The processor, running, is at line k, an instruction that was assembled and
  // loaded and is still in place.
  ghost predicate AtLine(lines: seq<Line>, k: nat, c: Cpu) {
    && LinesOk(lines) && k < |lines| && lines[k].Code? && ByteCount(lines[k].words[0]) > 0 && InPlace(lines, k)
    && CpuOk(c) && c.keepGoing && !c.singleStep
    && c.pc == SecondPass(lines[..k], FirstPass(lines).table).address
  }

  // The machine after that line.
  ghost function After(lines: seq<Line>, m: Memory, c: Cpu): Cpu
    requires LinesOk(lines) && Assembled(lines).Output? && LoadText(Assembled(lines).text, m).Loaded? && |c.stacks| == 4
  {
    Step(c, LoadText(Assembled(lines).text, m).mem)
  }

  // c, at its next instruction, with the data stack s.
  ghost predicate Leaves(c: Cpu, r: Cpu, id: nat, s: seq<cell>)
    requires |c.stacks| == 4 && id < 4
  {
    && r.keepGoing && r.exception == c.exception && r.pc == Wrap(c.pc + 2) && r.out == c.out
    && r.stacks == c.stacks[id := s]
  }

  lemma CodeFetched(lines: seq<Line>, k: nat, m: Memory, c: Cpu) returns (g: Generated)
    requires AtLine(lines, k, c) && ByteCount(lines[k].words[0]) == 2
    ensures Assembled(lines).Output? && LoadText(Assembled(lines).text, m).Loaded?
    ensures g == Generate(lines[k].words, c.pc, FirstPass(lines).table) && g.ok && |g.code| > 0
    ensures Fetch16(LoadText(Assembled(lines).text, m).mem, c.pc) == g.code[0]
  {
    hide LoadText, InPlace, Assembled, FirstPass, SecondPass, Generate, ByteCount, Wrap;
    PlacedWhole(lines, k);
    WordInPlace(lines, k, m, 0);
    g := Generate(lines[k].words, c.pc, FirstPass(lines).table);
  }

  lemma PlainGenerated(words: seq<string>, address: cell, t: seq<Symbol>)
    requires words != [] && PlainCode(words[0]).Value?
    ensures ByteCount(words[0]) == 2
    ensures Generate(words, address, t) == Generated([PlainCode(words[0]).value], Wrap(address + 2), true)
  {
    OperandNames(words[0]);
    hide PlainCode, SizedCode, StackCode;
  }

  lemma OperatorStep(c: Cpu, m: Memory, s: seq<cell>, x: cell, y: cell)
    requires CpuOk(c) && c.keepGoing && !c.singleStep && c.stacks[DATA] == s + [x, y]
    requires var w := Fetch16(m, c.pc); w / 0x1000 == 0xE && IsOperator(Func(w), SignBit(w))
    ensures var w := Fetch16(m, c.pc);
            Leaves(c, Step(c, m), DATA, s + [Operate(Func(w), SignBit(w), y, x)])
  {
    hide Fetch16, Operate, Wrap;
    var w := Fetch16(m, c.pc);
    var d := c.(instruction := w);
    var v := Operate(Func(w), SignBit(w), y, x);
    assert (s + [x, y])[..|s| + 1] == s + [x] && (s + [x])[..|s|] == s;
    assert PopOff(d, DATA) == (d.(stacks := d.stacks[DATA := s + [x]]), y);
    var e := d.(stacks := d.stacks[DATA := s + [x]]);
    assert PopOff(e, DATA) == (e.(stacks := e.stacks[DATA := s]), x);
    assert e.stacks[DATA := s][DATA := s + [v]] == c.stacks[DATA := s + [v]];
  }

  // Assembler, loader and emulator together: every operator of the manual leaves
  // in place of the two top values what its name says of them.
  lemma AssembledOperator(lines: seq<Line>, k: nat, m: Memory, c: Cpu, s: seq<cell>, x: cell, y: cell) returns (v: cell)
    requires AtLine(lines, k, c) && IsOperatorName(lines[k].words[0]) && c.stacks[DATA] == s + [x, y]
    ensures Assembled(lines).Output? && LoadText(Assembled(lines).text, m).Loaded?
    ensures Leaves(c, After(lines, m, c), DATA, s + [v]) && Computes(lines[k].words[0], x, y, v)
  {
    hide LoadText, InPlace, Assembled, FirstPass, SecondPass, Generate, Operate, Computes, Step, Leaves, PlainCode;
    hide ByteCount, Fetch16, Func, SignBit, IsOperator;
    var name := lines[k].words[0];
    OperatorComputes(name, x, y);
    PlainGenerated(lines[k].words, c.pc, FirstPass(lines).table);
    var g := CodeFetched(lines, k, m, c);
    var code := PlainCode(name).value;
    v := Operate(Func(code), SignBit(code), y, x);
    OperatorStep(c, LoadText(Assembled(lines).text, m).mem, s, x, y);
  }

  lemma UnaryCodes()
    ensures PlainCode("NEG") == Value(0xF100) && PlainCode("NOT") == Value(0xF000)
  {
  }

  lemma UnaryStep(c: Cpu, m: Memory, s: seq<cell>, x: cell)
    requires CpuOk(c) && c.keepGoing && !c.singleStep && c.stacks[DATA] == s + [x]
    ensures Fetch16(m, c.pc) == 0xF100 ==> Leaves(c, Step(c, m), DATA, s + [0xFFFF - x])
    ensures Fetch16(m, c.pc) == 0xF000 ==> Leaves(c, Step(c, m), DATA, s + [Wrap(-(x as int))])
  {
    hide Fetch16, Wrap;
    var d := c.(instruction := Fetch16(m, c.pc));
    assert (s + [x])[..|s|] == s;
    assert PopOff(d, DATA) == (d.(stacks := d.stacks[DATA := s]), x);
    assert d.stacks[DATA := s][DATA := s + [0xFFFF - x]] == c.stacks[DATA := s + [0xFFFF - x]];
    assert d.stacks[DATA := s][DATA := s + [Wrap(-(x as int))]] == c.stacks[DATA := s + [Wrap(-(x as int))]];
  }

  // NEG, assembled and executed, inverts the bits, and NOT negates: the assembler
  // has the codes of the two the other way round.  Neither ever does what its name
  // says.
  lemma AssembledUnary(lines: seq<Line>, k: nat, m: Memory, c: Cpu, s: seq<cell>, x: cell) returns (v: cell)
    requires AtLine(lines, k, c) && lines[k].words[0] in {"NEG", "NOT"} && c.stacks[DATA] == s + [x]
    ensures Assembled(lines).Output? && LoadText(Assembled(lines).text, m).Loaded?
    ensures Leaves(c, After(lines, m, c), DATA, s + [v])
    ensures (lines[k].words[0] == "NEG" <==> x + v == 0xFFFF)
            && (lines[k].words[0] == "NOT" <==> (x + v) % 0x1_0000 == 0)
  {
    hide LoadText, InPlace, Assembled, FirstPass, SecondPass, Generate, Step, Leaves, PlainCode, ByteCount, Fetch16;
    UnaryCodes();
    PlainGenerated(lines[k].words, c.pc, FirstPass(lines).table);
    var g := CodeFetched(lines, k, m, c);
    UnaryStep(c, LoadText(Assembled(lines).text, m).mem, s, x);
    v := if lines[k].words[0] == "NEG" then 0xFFFF - x else Wrap(-(x as int));
  }

  // Stack words.

  predicate IsLetter(word: string) {
    word != "" && word[0] in {'D', 'C', 'R', 'T'}
  }

  lemma StackCodes(words: seq<string>, address: cell, t: seq<Symbol>)
    requires |words| >= 2 && IsStackName(words[0])
    ensures ByteCount(words[0]) == 2 && StackCode(words[0]).Value?
    ensures Generate(words, address, t) == StackOp(words, address, StackCode(words[0]).value)
    ensures StackCode(words[0]).value == if words[0] == "DROP" then 0xB000 else if words[0] == "DUP" then 0xB100
                                         else if words[0] == "SWAP" then 0xB200 else 0xB300
  {
    StackNames(words[0]);
    OperandNames(words[0]);
    hide PlainCode, SizedCode, StackCode, StackOp;
  }

  lemma StackNames(name: string)
    requires IsStackName(name)
    ensures PlainCode(name) == SizedCode(name) == Missing && StackCode(name).Value?
    ensures StackCode(name).value == if name == "DROP" then 0xB000 else if name == "DUP" then 0xB100
                                     else if name == "SWAP" then 0xB200 else 0xB300
  {
    hide PlainCode;
    PlainMissing(name);
  }

  // The fields of a stack word do not overlap.
  lemma StackFields(f: nat, source: nat, target: nat)
    requires f < 4 && source < 4 && target < 4
    ensures Or16(0xB000 + f * 0x100, source * 0x40) == 0xB000 + f * 0x100 + source * 0x40
    ensures Or16(0xB000 + f * 0x100 + source * 0x40, target * 0x10)
            == 0xB000 + f * 0x100 + source * 0x40 + target * 0x10
  {
    hide Or, Pow2;
    MorePowers();
    OrAdds(0xB0 + f, source * 0x40, 8);
    OrAdds((0xB0 + f) * 4 + source, target * 0x10, 6);
  }

  lemma MorePowers()
    ensures Pow2(8) == 0x100 && Pow2(6) == 0x40
  {
    assert Pow2(4) == 0x10;
  }

  lemma StackStep(c: Cpu, m: Memory, f: nat, source: nat, target: nat)
    requires CpuOk(c) && c.keepGoing && !c.singleStep && f < 4 && source < 4 && target < 4
    requires Fetch16(m, c.pc) == 0xB000 + f * 0x100 + source * 0x40 + target * 0x10
    ensures var d := c.(instruction := Fetch16(m, c.pc));
            var (e, v) := PopOff(d, source);
            Step(c, m) ==
            if f == 0 then Ahead(e)
            else if f == 1 then Ahead(PushOn(PushOn(e, source, v), source, v))
            else if f == 2 then Ahead(PushOn(PushOn(PopOff(e, source).0, source, v), source, PopOff(e, source).1))
            else Ahead(PushOn(e, target, v))
  {
    hide Fetch16, PopOff, PushOn, Wrap, StackWords;
    var w := Fetch16(m, c.pc);
    assert w / 0x1000 == 0xB;
    var d := c.(instruction := w);
    var (e, v) := PopOff(d, source);
    StackWordIs(d, f, source, target);
    StillRuns(d, source, target, v);
  }

  lemma StackWordIs(d: Cpu, f: nat, source: nat, target: nat)
    requires |d.stacks| == 4 && f < 4 && source < 4 && target < 4
    requires d.instruction == 0xB000 + f * 0x100 + source * 0x40 + target * 0x10
    ensures var (e, v) := PopOff(d, source);
            StackWords(d) ==
            if f == 0 then Ahead(e)
            else if f == 1 then Ahead(PushOn(PushOn(e, source, v), source, v))
            else if f == 2 then Ahead(PushOn(PushOn(PopOff(e, source).0, source, v), source, PopOff(e, source).1))
            else Ahead(PushOn(e, target, v))
  {
    hide PopOff, PushOn, Ahead;
    StackBits(f, source, target);
  }

  lemma StackBits(f: nat, source: nat, target: nat)
    requires f < 4 && source < 4 && target < 4
    ensures var w := 0xB000 + f * 0x100 + source * 0x40 + target * 0x10;
            w / 0x100 % 16 == f && w / 0x40 % 4 == source && w / 0x10 % 4 == target
  {
    var w := 0xB000 + f * 0x100 + source * 0x40 + target * 0x10;
    assert w / 0x100 == 0xB0 + f && w / 0x40 == 0x2C0 + f * 4 + source;
    assert w / 0x10 == 0xB00 + f * 0x10 + source * 4 + target;
  }

  // Pushes and pops change neither mode.
  lemma StillRuns(d: Cpu, source: nat, target: nat, v: cell)
    requires |d.stacks| == 4 && source < 4 && target < 4
    ensures PopOff(d, source).0.singleStep == d.singleStep && |PopOff(d, source).0.stacks| == 4
    ensures forall e: Cpu, u :: |e.stacks| == 4 ==> PushOn(e, target, u).singleStep == e.singleStep
    ensures forall e: Cpu, u :: |e.stacks| == 4 ==> PushOn(e, source, u).singleStep == e.singleStep
    ensures forall e: Cpu :: |e.stacks| == 4 ==> PopOff(e, source).0.singleStep == e.singleStep
  {
  }

  lemma Popped(c: Cpu, id: nat, s: seq<cell>, v: cell)
    requires |c.stacks| == 4 && id < 4 && c.stacks[id] == s + [v]
    ensures PopOff(c, id) == (c.(stacks := c.stacks[id := s]), v)
  {
    assert (s + [v])[..|s|] == s;
  }

  lemma Pushed(c: Cpu, id: nat, v: cell)
    requires |c.stacks| == 4 && id < 4 && |c.stacks[id]| + 1 < SizeOf(id)
    ensures PushOn(c, id, v) == c.(stacks := c.stacks[id := c.stacks[id] + [v]])
  {
  }

  lemma StackWordFetched(lines: seq<Line>, k: nat, m: Memory, c: Cpu) returns (w: cell)
    requires AtLine(lines, k, c) && IsStackName(lines[k].words[0])
    requires |lines[k].words| >= 2 && IsLetter(lines[k].words[1])
    requires if lines[k].words[0] == "MOV" then |lines[k].words| == 3 && IsLetter(lines[k].words[2])
             else |lines[k].words| == 2
    ensures Assembled(lines).Output? && LoadText(Assembled(lines).text, m).Loaded?
    ensures var words := lines[k].words;
            var f := if words[0] == "DROP" then 0 else if words[0] == "DUP" then 1 else if words[0] == "SWAP" then 2
              else 3;
            var target := if words[0] == "MOV" then Receiver(words[2][0]) else 0;
            w == 0xB000 + f * 0x100 + Receiver(words[1][0]) * 0x40 + target * 0x10
            && Fetch16(LoadText(Assembled(lines).text, m).mem, c.pc) == w
  {
    hide LoadText, InPlace, Assembled, FirstPass, SecondPass, Generate, ByteCount, Fetch16, Or16, StackCode;
    var words := lines[k].words;
    var f := if words[0] == "DROP" then 0 else if words[0] == "DUP" then 1 else if words[0] == "SWAP" then 2 else 3;
    StackCodes(words, c.pc, FirstPass(lines).table);
    StackFields(f, Receiver(words[1][0]), if words[0] == "MOV" then Receiver(words[2][0]) else 0);
    var g := CodeFetched(lines, k, m, c);
    w := g.code[0];
  }

  // DROP, DUP, SWAP and MOV do what they say, on the stacks that their letters
  // reach.
  lemma AssembledDrop(lines: seq<Line>, k: nat, m: Memory, c: Cpu, s: seq<cell>, v: cell)
    requires AtLine(lines, k, c) && |lines[k].words| == 2 && lines[k].words[0] == "DROP" && IsLetter(lines[k].words[1])
    requires c.stacks[Receiver(lines[k].words[1][0])] == s + [v]
    ensures Assembled(lines).Output? && LoadText(Assembled(lines).text, m).Loaded?
    ensures Leaves(c, After(lines, m, c), Receiver(lines[k].words[1][0]), s)
  {
    hide LoadText, InPlace, Assembled, FirstPass, SecondPass, Fetch16, Step, PopOff, PushOn, ByteCount, Wrap;
    var id := Receiver(lines[k].words[1][0]);
    var w := StackWordFetched(lines, k, m, c);
    StackStep(c, LoadText(Assembled(lines).text, m).mem, 0, id, 0);
    Popped(c.(instruction := w), id, s, v);
  }

  lemma AssembledDup(lines: seq<Line>, k: nat, m: Memory, c: Cpu, s: seq<cell>, v: cell)
    requires AtLine(lines, k, c) && |lines[k].words| == 2 && lines[k].words[0] == "DUP" && IsLetter(lines[k].words[1])
    requires var id := Receiver(lines[k].words[1][0]); c.stacks[id] == s + [v] && |s| + 2 < SizeOf(id)
    ensures Assembled(lines).Output? && LoadText(Assembled(lines).text, m).Loaded?
    ensures Leaves(c, After(lines, m, c), Receiver(lines[k].words[1][0]), s + [v, v])
  {
    hide LoadText, InPlace, Assembled, FirstPass, SecondPass, Fetch16, Step, PopOff, PushOn, ByteCount, Wrap, SizeOf;
    var id := Receiver(lines[k].words[1][0]);
    var w := StackWordFetched(lines, k, m, c);
    StackStep(c, LoadText(Assembled(lines).text, m).mem, 1, id, 0);
    var d := c.(instruction := w);
    Popped(d, id, s, v);
    var e := d.(stacks := d.stacks[id := s]);
    Pushed(e, id, v);
    Pushed(e.(stacks := e.stacks[id := s + [v]]), id, v);
    assert s + [v] + [v] == s + [v, v];
    assert c.stacks[id := s][id := s + [v]][id := s + [v, v]] == c.stacks[id := s + [v, v]];
  }

  lemma AssembledSwap(lines: seq<Line>, k: nat, m: Memory, c: Cpu, s: seq<cell>, u: cell, v: cell)
    requires AtLine(lines, k, c) && |lines[k].words| == 2 && lines[k].words[0] == "SWAP" && IsLetter(lines[k].words[1])
    requires c.stacks[Receiver(lines[k].words[1][0])] == s + [u, v]
    ensures Assembled(lines).Output? && LoadText(Assembled(lines).text, m).Loaded?
    ensures Leaves(c, After(lines, m, c), Receiver(lines[k].words[1][0]), s + [v, u])
  {
    hide LoadText, InPlace, Assembled, FirstPass, SecondPass, Fetch16, Step, PopOff, PushOn, ByteCount, Wrap, SizeOf;
    var id := Receiver(lines[k].words[1][0]);
    var w := StackWordFetched(lines, k, m, c);
    StackStep(c, LoadText(Assembled(lines).text, m).mem, 2, id, 0);
    var d := c.(instruction := w);
    assert s + [u, v] == s + [u] + [v];
    Popped(d, id, s + [u], v);
    var e := d.(stacks := d.stacks[id := s + [u]]);
    Popped(e, id, s, u);
    assert e.stacks[id := s] == d.stacks[id := s];
    var b := d.(stacks := d.stacks[id := s]);
    Pushed(b, id, v);
    Pushed(b.(stacks := b.stacks[id := s + [v]]), id, u);
    assert s + [v] + [u] == s + [v, u];
    assert c.stacks[id := s][id := s + [v]][id := s + [v, u]] == c.stacks[id := s + [v, u]];
  }

  lemma AssembledMove(lines: seq<Line>, k: nat, m: Memory, c: Cpu, s: seq<cell>, v: cell)
    requires AtLine(lines, k, c) && |lines[k].words| == 3 && lines[k].words[0] == "MOV"
    requires IsLetter(lines[k].words[1]) && IsLetter(lines[k].words[2])
    requires var from, to := Receiver(lines[k].words[1][0]), Receiver(lines[k].words[2][0]);
             c.stacks[from] == s + [v] && |c.stacks[from := s][to]| + 1 < SizeOf(to)
    ensures Assembled(lines).Output? && LoadText(Assembled(lines).text, m).Loaded?
    ensures var from, to := Receiver(lines[k].words[1][0]), Receiver(lines[k].words[2][0]);
            var r, rest := After(lines, m, c), c.stacks[from := s];
            && r.keepGoing && r.pc == Wrap(c.pc + 2) && r.out == c.out && r.exception == c.exception
            && r.stacks == rest[to := rest[to] + [v]]
  {
    hide LoadText, InPlace, Assembled, FirstPass, SecondPass, Fetch16, Step, PopOff, PushOn, ByteCount, Wrap, SizeOf;
    var from, to := Receiver(lines[k].words[1][0]), Receiver(lines[k].words[2][0]);
    var w := StackWordFetched(lines, k, m, c);
    StackStep(c, LoadText(Assembled(lines).text, m).mem, 3, from, to);
    var d := c.(instruction := w);
    Popped(d, from, s, v);
    Pushed(d.(stacks := d.stacks[from := s]), to, v);
  }

  // An operand that names no stack is not rejected: DROP, DUP and SWAP of it are
  // all assembled as MOV T D.
  lemma UnknownStack(words: seq<string>, address: cell, t: seq<Symbol>)
    requires |words| == 2 && IsStackName(words[0]) && !IsLetter(words[1])
    ensures Generate(words, address, t) == Generate(["MOV", "T", "D"], address, t)
    ensures Generate(words, address, t).ok && Generate(words, address, t).code == [0xB3C0]
  {
    hide Generate, StackOp, StackCode;
    StackCodes(words, address, t);
    var move := ["MOV", "T", "D"];
    StackCodes(move, address, t);
    NoLetter();
    var f := if words[0] == "DROP" then 0 else if words[0] == "DUP" then 1 else if words[0] == "SWAP" then 2 else 3;
    UnknownCode(words, address, 0xB000 + f * 0x100);
    MoveCode(address);
  }

  lemma UnknownCode(words: seq<string>, address: cell, op: cell)
    requires |words| == 2 && !IsLetter(words[1]) && Or16(op, 0x3C0) == 0xB3C0
    ensures StackOp(words, address, op) == Generated([0xB3C0], Wrap(address + 2), true)
  {
    hide Or16;
  }

  lemma MoveCode(address: cell)
    ensures StackOp(["MOV", "T", "D"], address, 0xB300) == Generated([0xB3C0], Wrap(address + 2), true)
  {
    hide Or16;
    StackFields(3, 3, 0);
    assert FirstChar("T") == 'T' && FirstChar("D") == 'D';
  }

  lemma NoLetter()
    ensures forall f: nat :: f < 4 ==> Or16(0xB000 + f * 0x100, 0x3C0) == 0xB3C0
  {
    hide Or, Pow2;
    Powers();
    forall f: nat | f < 4 ensures Or16(0xB000 + f * 0x100, 0x3C0) == 0xB3C0 {
      LowBits(f);
      OrSplit(0x2C, f * 0x100, 0x3C0, 10);
    }
  }

  lemma LowBits(f: nat)
    requires f < 4
    ensures Or(f * 0x100, 0x3C0) == 0x3C0
  {
    hide Or;
    if f == 0 { OrZero(0x3C0); }
    OrHalf(f * 0x100, 0x3C0);
    OrHalf(f * 0x80, 0x1E0);
    OrHalf(f * 0x40, 0xF0);
    OrHalf(f * 0x20, 0x78);
    OrHalf(f * 0x10, 0x3C);
    OrHalf(f * 8, 0x1E);
    OrHalf(f * 4, 0xF);
    OrHalf(f * 2, 7);
    OrHalf(f, 3);
    OrHalf(f / 2, 1);
    OrHalf(0, 0);
    OrZero(0);
  }

  // Memory and ports.

  predicate IsSize(word: string) {
    word != "" && word[0] in {'B', 'W', 'L'}
  }

  function SizeBits(letter: char): nat {
    if letter == 'B' then 1 else if letter == 'W' then 2 else 4
  }

  lemma SizedCodes(words: seq<string>, address: cell, t: seq<Symbol>)
    requires |words| >= 2 && IsSizedName(words[0]) && IsSize(words[1])
    ensures ByteCount(words[0]) == 2
    ensures var code := if words[0] == "RD" then 0xF200 else if words[0] == "IRD" then 0xF280
                        else if words[0] == "STO" then 0xE580 else 0xE5C0;
            Generate(words, address, t)
            == Generated([Or16(code, SizeBits(words[1][0]))], Wrap(address + 2), true)
  {
    hide Or16, PlainCode;
    SizedNotPlain(words[0]);
    SizedNames(words[0]);
    OperandNames(words[0]);
    hide SizedCode, StackCode;
  }

  lemma SizedNames(name: string)
    requires IsSizedName(name)
    ensures SizedCode(name) == Value(if name == "RD" then 0xF200 else if name == "IRD" then 0xF280
                                     else if name == "STO" then 0xE580 else 0xE5C0)
  {
  }

  lemma SizeAdds(q: nat, z: nat)
    requires q < 0x400 && z < 8
    ensures Or16(q * 0x40, z) == q * 0x40 + z
  {
    hide Or, Pow2;
    MorePowers();
    OrAdds(q, z, 6);
  }

  lemma SizedFetched(lines: seq<Line>, k: nat, m: Memory, c: Cpu) returns (w: cell)
    requires AtLine(lines, k, c) && IsSizedName(lines[k].words[0])
    requires |lines[k].words| >= 2 && IsSize(lines[k].words[1])
    ensures Assembled(lines).Output? && LoadText(Assembled(lines).text, m).Loaded?
    ensures var words := lines[k].words;
            var code := if words[0] == "RD" then 0xF200 else if words[0] == "IRD" then 0xF280
                        else if words[0] == "STO" then 0xE580 else 0xE5C0;
            && w == code + SizeBits(words[1][0])
            && Fetch16(LoadText(Assembled(lines).text, m).mem, c.pc) == w
  {
    hide LoadText, InPlace, Assembled, FirstPass, SecondPass, Generate, ByteCount, Fetch16, Or16;
    var words := lines[k].words;
    SizedCodes(words, c.pc, FirstPass(lines).table);
    SizeAdds(0x3C8, SizeBits(words[1][0]));
    SizeAdds(0x3CA, SizeBits(words[1][0]));
    SizeAdds(0x396, SizeBits(words[1][0]));
    SizeAdds(0x397, SizeBits(words[1][0]));
    var g := CodeFetched(lines, k, m, c);
    w := g.code[0];
  }

  lemma ReadStep(c: Cpu, m: Memory, s: seq<cell>, a: cell, z: nat)
    requires CpuOk(c) && c.keepGoing && !c.singleStep && c.stacks[DATA] == s + [a] && z in {1, 2, 4}
    requires Fetch16(m, c.pc) == 0xF200 + z || Fetch16(m, c.pc) == 0xF280 + z
    ensures z == 1 ==> Leaves(c, Step(c, m), DATA, s + [m[a]])
    ensures z != 1 ==> !Step(c, m).keepGoing && Step(c, m).exception == IllegalInstruction
  {
    hide Fetch16, Wrap, PopOff, PushOn, SizeOf;
    var w := Fetch16(m, c.pc);
    assert w / 0x1000 == 0xF && w / 0x100 % 16 == 2 && w / 0x40 % 2 == 0 && w % 4 == z % 4;
    var d := c.(instruction := w);
    Popped(d, DATA, s, a);
    Pushed(d.(stacks := d.stacks[DATA := s]), DATA, m[a]);
    assert c.stacks[DATA := s][DATA := s + [m[a]]] == c.stacks[DATA := s + [m[a]]];
  }

  // RD and IRD, assembled and executed, read one byte of memory where the size is
  // B, and stop with an exception for any other; IRD reads no port.
  lemma AssembledRead(lines: seq<Line>, k: nat, m: Memory, c: Cpu, s: seq<cell>, a: cell)
    requires AtLine(lines, k, c) && lines[k].words[0] in {"RD", "IRD"}
    requires |lines[k].words| >= 2 && IsSize(lines[k].words[1]) && c.stacks[DATA] == s + [a]
    ensures Assembled(lines).Output? && LoadText(Assembled(lines).text, m).Loaded?
    ensures var r, byte := After(lines, m, c), lines[k].words[1][0] == 'B';
            && (byte ==> Leaves(c, r, DATA, s + [LoadText(Assembled(lines).text, m).mem[a]]))
            && (!byte ==> !r.keepGoing && r.exception == IllegalInstruction)
  {
    hide LoadText, InPlace, Assembled, FirstPass, SecondPass, Fetch16, Step, Leaves, ByteCount;
    var w := SizedFetched(lines, k, m, c);
    ReadStep(c, LoadText(Assembled(lines).text, m).mem, s, a, SizeBits(lines[k].words[1][0]));
  }

  lemma StoreStep(c: Cpu, m: Memory, s: seq<cell>, a: cell, n: cell, z: nat, port: bool)
    requires CpuOk(c) && c.keepGoing && !c.singleStep && c.stacks[DATA] == s + [a, n] && z in {1, 2, 4}
    requires Fetch16(m, c.pc) == (if port then 0xE5C0 else 0xE580) + z
    ensures port && z == 1 ==>
              && Step(c, m).keepGoing && Step(c, m).pc == Wrap(c.pc + 2)
              && Step(c, m).stacks == c.stacks[DATA := s]
              && Step(c, m).out == (if a == 0 then c.out + [n % 0x100] else c.out)
    ensures !port || z != 1 ==> !Step(c, m).keepGoing && Step(c, m).exception == IllegalInstruction
  {
    hide Fetch16, Wrap, PopOff, PushOn, SizeOf;
    var w := Fetch16(m, c.pc);
    assert w / 0x1000 == 0xE && Func(w) == 0x0B && w % 4 == z % 4 && (w / 0x40 % 2 == 1 <==> port);
    var d := c.(instruction := w);
    assert s + [a, n] == s + [a] + [n];
    Popped(d, DATA, s + [a], n);
    var e := d.(stacks := d.stacks[DATA := s + [a]]);
    Popped(e, DATA, s, a);
    assert c.stacks[DATA := s + [a]][DATA := s] == c.stacks[DATA := s];
  }

  // ISTO B writes the low byte of the top value to the output where the value
  // below it is 0, and nothing elsewhere; STO, and the other sizes, stop with an
  // exception.
  lemma AssembledStore(lines: seq<Line>, k: nat, m: Memory, c: Cpu, s: seq<cell>, a: cell, n: cell)
    requires AtLine(lines, k, c) && lines[k].words[0] in {"STO", "ISTO"}
    requires |lines[k].words| >= 2 && IsSize(lines[k].words[1]) && c.stacks[DATA] == s + [a, n]
    ensures Assembled(lines).Output? && LoadText(Assembled(lines).text, m).Loaded?
    ensures var r, works := After(lines, m, c), lines[k].words[0] == "ISTO" && lines[k].words[1][0] == 'B';
            && (works ==> && r.keepGoing && r.pc == Wrap(c.pc + 2) && r.stacks == c.stacks[DATA := s]
                          && r.out == if a == 0 then c.out + [n % 0x100] else c.out)
            && (!works ==> !r.keepGoing && r.exception == IllegalInstruction)
  {
    hide LoadText, InPlace, Assembled, FirstPass, SecondPass, Fetch16, Step, ByteCount, Wrap;
    var w := SizedFetched(lines, k, m, c);
    StoreStep(c, LoadText(Assembled(lines).text, m).mem, s, a, n, SizeBits(lines[k].words[1][0]),
              lines[k].words[0] == "ISTO");
  }

  // The processor itself.

  lemma ControlCodes()
    ensures PlainCode("NOP") == Value(0x8000) && PlainCode("LEAVE") == Value(0x8100)
    ensures PlainCode("HALT") == Value(0x8200) && PlainCode("RESET") == Value(0x8300)
  {
  }

  lemma ControlStep(c: Cpu, m: Memory)
    requires CpuOk(c) && c.keepGoing && !c.singleStep
    ensures Fetch16(m, c.pc) == 0x8000 ==> Step(c, m) == c.(instruction := 0x8000, pc := Wrap(c.pc + 4))
    ensures Fetch16(m, c.pc) == 0x8100 && c.stacks[RETURN] != [] ==>
              var s := c.stacks[RETURN];
              Step(c, m) == c.(instruction := 0x8100, pc := Wrap(s[|s| - 1] as int + 2),
                               stacks := c.stacks[RETURN := s[..|s| - 1]])
    ensures Fetch16(m, c.pc) == 0x8200 ==> !Step(c, m).keepGoing && Step(c, m).exception == AllIsOk
    ensures Fetch16(m, c.pc) == 0x8300 ==> !Step(c, m).keepGoing && Step(c, m).exception == IllegalInstruction
  {
    hide Fetch16;
  }

  // NOP goes one instruction too far, LEAVE goes to the second byte after the
  // popped address, HALT stops without an exception, RESET with one.
  lemma AssembledControl(lines: seq<Line>, k: nat, m: Memory, c: Cpu, s: seq<cell>, a: cell)
    requires AtLine(lines, k, c) && lines[k].words[0] in {"NOP", "LEAVE", "HALT", "RESET"}
    requires lines[k].words[0] == "LEAVE" ==> c.stacks[RETURN] == s + [a]
    ensures Assembled(lines).Output? && LoadText(Assembled(lines).text, m).Loaded?
    ensures var r, name := After(lines, m, c), lines[k].words[0];
            && (r.keepGoing <==> name in {"NOP", "LEAVE"}) && (r.exception != AllIsOk <==> name == "RESET")
            && (name == "NOP" ==> r.pc == Wrap(c.pc + 4) && r.stacks == c.stacks)
            && (name == "LEAVE" ==> r.pc == Wrap(a as int + 2) && r.stacks == c.stacks[RETURN := s])
  {
    hide LoadText, InPlace, Assembled, FirstPass, SecondPass, Generate, Step, PlainCode, ByteCount, Fetch16;
    ControlCodes();
    PlainGenerated(lines[k].words, c.pc, FirstPass(lines).table);
    var g := CodeFetched(lines, k, m, c);
    ControlStep(c, LoadText(Assembled(lines).text, m).mem);
    assert (s + [a])[..|s|] == s;
  }

  // The halves of LD.

  lemma PartGenerated(words: seq<string>, address: cell, t: seq<Symbol>)
    requires words != [] && words[0] in {"LDL", "LDH"}
    ensures ByteCount(words[0]) == 2
    ensures Generate(words, address, t)
            == if words[0] == "LDL" then LoadPart(words, address, t, 0xC000, 1023)
               else LoadPart(words, address, t, 0xD000, 63)
  {
    hide LoadPart;
  }

  lemma PartFetched(lines: seq<Line>, k: nat, m: Memory, c: Cpu) returns (n: cell)
    requires AtLine(lines, k, c) && lines[k].words[0] in {"LDL", "LDH"}
    ensures Assembled(lines).Output? && LoadText(Assembled(lines).text, m).Loaded?
    ensures var words := lines[k].words;
            && |words| > 2 && NamesStack(words[1]) && IsLetter(words[1])
            && ReadNumber(words[2], FirstPass(lines).table) == Number(n, false)
            && n <= (if words[0] == "LDL" then 1023 else 63)
            && Fetch16(LoadText(Assembled(lines).text, m).mem, c.pc)
               == (if words[0] == "LDL" then 0xC000 else 0xD000) + Receiver(words[1][0]) * 0x400 + n
  {
    hide LoadText, InPlace, Assembled, FirstPass, SecondPass, Generate, ByteCount, Fetch16, ReadNumber, WithStack;
    hide FindSymbol;
    var words, u := lines[k].words, FirstPass(lines).table;
    PartGenerated(words, c.pc, u);
    var g := CodeFetched(lines, k, m, c);
    OperandsAccepted(words, c.pc, u);
    n := ReadNumber(words[2], u).value;
    WithStackAdds(if words[0] == "LDL" then 0xC000 else 0xD000, n, Receiver(words[1][0]));
  }

  // LDL pushes its number on the stack its letter reaches.
  lemma AssembledLow(lines: seq<Line>, k: nat, m: Memory, c: Cpu) returns (n: cell)
    requires AtLine(lines, k, c) && lines[k].words[0] == "LDL"
    requires |lines[k].words| > 1 && lines[k].words[1] != [] ==>
             var to := Receiver(lines[k].words[1][0]); |c.stacks[to]| + 1 < SizeOf(to)
    ensures Assembled(lines).Output? && LoadText(Assembled(lines).text, m).Loaded?
    ensures |lines[k].words| > 2 && lines[k].words[1] != []
            && ReadNumber(lines[k].words[2], FirstPass(lines).table) == Number(n, false) && n <= 1023
    ensures var to := Receiver(lines[k].words[1][0]); Leaves(c, After(lines, m, c), to, c.stacks[to] + [n])
  {
    hide LoadText, InPlace, Assembled, FirstPass, SecondPass, Fetch16, Step, ByteCount, ReadNumber, SizeOf;
    n := PartFetched(lines, k, m, c);
    LowStep(c, LoadText(Assembled(lines).text, m).mem, Receiver(lines[k].words[1][0]), n);
  }

  // LDH sets, in the top value of that stack, the bits of its number from bit ten on.
  lemma AssembledHigh(lines: seq<Line>, k: nat, m: Memory, c: Cpu, s: seq<cell>, x: cell) returns (n: cell, v: cell)
    requires AtLine(lines, k, c) && lines[k].words[0] == "LDH"
    requires |lines[k].words| > 1 && lines[k].words[1] != [] ==> c.stacks[Receiver(lines[k].words[1][0])] == s + [x]
    ensures Assembled(lines).Output? && LoadText(Assembled(lines).text, m).Loaded?
    ensures |lines[k].words| > 2 && lines[k].words[1] != []
            && ReadNumber(lines[k].words[2], FirstPass(lines).table) == Number(n, false) && n <= 63
    ensures Leaves(c, After(lines, m, c), Receiver(lines[k].words[1][0]), s + [v])
    ensures forall i: nat :: Bit(v, i) <==> Bit(x, i) || Bit(n * 0x400, i)
  {
    hide LoadText, InPlace, Assembled, FirstPass, SecondPass, Fetch16, Step, ByteCount, ReadNumber, Or, Or16;
    n := PartFetched(lines, k, m, c);
    HighAny(c, LoadText(Assembled(lines).text, m).mem, Receiver(lines[k].words[1][0]), s, x, n);
    v := Or16(x, n * 0x400);
    forall i: nat ensures Bit(v, i) <==> Bit(x, i) || Bit(n * 0x400, i) {
      OrBits(x, n * 0x400, i);
    }
  }

  lemma HighAny(c: Cpu, m: Memory, id: nat, s: seq<cell>, x: cell, n: nat)
    requires CpuOk(c) && c.keepGoing && !c.singleStep && id < 4 && n < 0x40 && c.stacks[id] == s + [x]
    requires Fetch16(m, c.pc) == 0xD000 + id * 0x400 + n
    ensures Leaves(c, Step(c, m), id, s + [Or16(x, n * 0x400)])
  {
    hide Fetch16, Or16, Or, Wrap, PopOff, PushOn, SizeOf;
    var w := Fetch16(m, c.pc);
    assert w / 0x1000 == 0xD && w / 0x400 % 4 == id && w % 0x40 == n;
    var d := c.(instruction := w);
    Popped(d, id, s, x);
    Pushed(d.(stacks := d.stacks[id := s]), id, Or16(x, n * 0x400));
    assert c.stacks[id := s][id := s + [Or16(x, n * 0x400)]] == c.stacks[id := s + [Or16(x, n * 0x400)]];
  }
}
