// The instruction generators of the assembler: which words each mnemonic emits
// from its operands, the address and the symbol table.
module AsmCode {
  import opened Dataspace
  import opened AsmNumbers

  // Bitwise or of two numbers.
  function Or(a: nat, b: nat): nat {
    if a == 0 then b
    else if b == 0 then a
    else 2 * Or(a / 2, b / 2) + if a % 2 == 1 || b % 2 == 1 then 1 else 0
  }

  function Pow2(k: nat): nat {
    if k == 0 then 1 else 2 * Pow2(k - 1)
  }

  // q shifted left by k bits.
  function Shifted(q: nat, k: nat): nat {
    if k == 0 then q else 2 * Shifted(q, k - 1)
  }

  lemma {:induction false} ShiftedIs(q: nat, k: nat)
    ensures Shifted(q, k) == q * Pow2(k)
    decreases k
  {
    if k > 0 {
      ShiftedIs(q, k - 1);
      Twice(q, Pow2(k - 1));
    }
  }

  lemma Twice(q: nat, p: nat)
    ensures 2 * (q * p) == q * (2 * p)
  {
  }

  lemma OrHalf(a: nat, b: nat)
    ensures Or(a, b) == 2 * Or(a / 2, b / 2) + if a % 2 == 1 || b % 2 == 1 then 1 else 0
  {
  }

  // Bits below a boundary and bits above it do not meet.
  lemma {:induction false} OrShifted(q: nat, r: nat, b: nat, k: nat)
    requires r < Pow2(k) && b < Pow2(k)
    ensures Or(Shifted(q, k) + r, b) == Shifted(q, k) + Or(r, b)
    decreases k
  {
    hide Or;
    if k > 0 {
      OrShifted(q, r / 2, b / 2, k - 1);
      OrHalf(Shifted(q, k) + r, b);
      OrHalf(r, b);
    } else {
      OrZero(q);
      OrZero(0);
    }
  }

  lemma OrZero(a: nat)
    ensures Or(a, 0) == a && Or(0, a) == a
  {
  }

  lemma OrSplit(q: nat, r: nat, b: nat, k: nat)
    requires r < Pow2(k) && b < Pow2(k)
    ensures Or(q * Pow2(k) + r, b) == q * Pow2(k) + Or(r, b)
  {
    hide Or, Pow2, Shifted;
    ShiftedIs(q, k);
    OrShifted(q, r, b, k);
  }

  // Fields that do not overlap add up.
  lemma OrAdds(q: nat, b: nat, k: nat)
    requires b < Pow2(k)
    ensures Or(q * Pow2(k), b) == q * Pow2(k) + b
  {
    hide Or, Pow2;
    PowPositive(k);
    OrSplit(q, 0, b, k);
    OrZero(b);
  }

  lemma PowPositive(k: nat)
    ensures Pow2(k) > 0
  {
  }

  lemma {:induction false} OrBound(a: nat, b: nat, k: nat)
    requires a < Pow2(k) && b < Pow2(k)
    ensures Or(a, b) < Pow2(k)
    decreases k
  {
    if a > 0 && b > 0 && k > 0 {
      OrBound(a / 2, b / 2, k - 1);
    }
  }

  lemma Powers()
    ensures Pow2(4) == 0x10 && Pow2(6) == 0x40 && Pow2(10) == 0x400 && Pow2(12) == 0x1000 && Pow2(14) == 0x4000
    ensures Pow2(16) == 0x1_0000
  {
    assert Pow2(2) == 4;
    assert Pow2(4) == 0x10;
    assert Pow2(6) == 0x40;
    assert Pow2(8) == 0x100;
    assert Pow2(10) == 0x400;
    assert Pow2(12) == 0x1000;
    assert Pow2(14) == 0x4000;
    assert Pow2(16) == 0x1_0000;
  }

  // instruction | bits, on 16-bit values.
  function Or16(a: cell, b: cell): (r: cell)
    ensures r == Or(a, b)
  {
    Powers();
    OrBound(a, b, 16);
    Or(a, b)
  }

  function FirstChar(w: string): char {
    if w == "" then '\0' else w[0]
  }

  const NO_STACK := 15

  function StackId(c: char): nat {
    if c == 'D' then 0 else if c == 'C' then 1 else if c == 'R' then 2 else if c == 'T' then 3 else NO_STACK
  }

  const NO_SIZE := 15

  function SizeId(c: char): nat {
    if c == 'B' then 1 else if c == 'W' then 2 else if c == 'L' then 4 else NO_SIZE
  }

  // Mnemonics without operands.
  function PlainCode(name: string): Search {
    if name == "ADD" then Value(0xE010)
    else if name == "ASR" then Value(0xE210)
    else if name == "MUL" then Value(0xE080)
    else if name == "MULU" then Value(0xE090)
    else if name == "AND" then Value(0xE680)
    else if name == "EQ" then Value(0xE180)
    else if name == "GTE" then Value(0xE410)
    else if name == "GTEU" then Value(0xE400)
    else if name == "GT" then Value(0xE310)
    else if name == "GTU" then Value(0xE300)
    else if name == "HALT" then Value(0x8200)
    else if name == "RESET" then Value(0x8300)
    else if name == "LEAVE" then Value(0x8100)
    else if name == "LTE" then Value(0xE390)
    else if name == "LTEU" then Value(0xE380)
    else if name == "LT" then Value(0xE290)
    else if name == "LSL" then Value(0xE480)
    else if name == "LSR" then Value(0xE500)
    else if name == "LTU" then Value(0xE280)
    else if name == "NEG" then Value(0xF100)
    else if name == "NOP" then Value(0x8000)
    else if name == "NOT" then Value(0xF000)
    else if name == "OR" then Value(0xE700)
    else if name == "XOR" then Value(0xE780)
    else Missing
  }

  // RD, STO and their I/O forms take a size.
  function SizedCode(name: string): Search {
    if name == "IRD" then Value(0xF280)
    else if name == "ISTO" then Value(0xE5C0)
    else if name == "RD" then Value(0xF200)
    else if name == "STO" then Value(0xE580)
    else Missing
  }

  // DROP, MOV, DUP and SWAP take one or two stacks.
  function StackCode(name: string): Search {
    if name == "DROP" then Value(0xB000)
    else if name == "MOV" then Value(0xB300)
    else if name == "DUP" then Value(0xB100)
    else if name == "SWAP" then Value(0xB200)
    else Missing
  }

  // The byte count of the instruction table; 0 for an unknown mnemonic.
  function ByteCount(name: string): nat {
    if name == "LD" then 4
    else if name in {"BIF", "ENTER", "LDH", "LDL"} || PlainCode(name).Value? || SizedCode(name).Value?
      || StackCode(name).Value?
    then 2
    else 0
  }

  // What a generator emits, the address it returns and whether it reported no
  // error.
  datatype Generated = Generated(code: seq<cell>, next: cell, ok: bool)

  function Failed(address: cell): Generated {
    Generated([], address, false)
  }

  function Enter(words: seq<string>, address: cell, t: seq<Symbol>): Generated {
    if |words| < 2 then Failed(address)
    else
      match FindSymbol(t, words[1])
      case Missing => Failed(address)
      case Value(location) =>
        if location % 4 != 0 then Failed(address)
        else Generated([Or16(0x4000, location / 4 % 0x4000)], Wrap(address + 2), true)
  }

  function Branch(words: seq<string>, address: cell, t: seq<Symbol>): Generated {
    if |words| < 2 then Failed(address)
    else
      match FindSymbol(t, words[1])
      case Missing => Failed(address)
      case Value(location) =>
        Generated([Or16(0x1000, Wrap(location - address) % 0x1000)], Wrap(address + 2), true)
  }

  function WithStack(opcode: cell, value: cell, stack: nat): cell
    requires stack < 4
  {
    Or16(Or16(opcode, value), stack * 0x400)
  }

  // The stack and the value of LD, LDL and LDH, if there are any.
  function LoadOperands(words: seq<string>, t: seq<Symbol>): (r: (nat, Number))
    ensures r.1.Number? ==> r.0 < 4
  {
    if |words| < 2 || |words[1]| > 1 || StackId(FirstChar(words[1])) == NO_STACK || |words| < 3 then (0, Malformed)
    else (StackId(FirstChar(words[1])), ReadNumber(words[2], t))
  }

  function LoadPart(words: seq<string>, address: cell, t: seq<Symbol>, opcode: cell, limit: nat): Generated
    requires limit < 0x1_0000
  {
    match LoadOperands(words, t)
    case (stack, Number(value, negative)) =>
      if value < 0 || value > limit || negative then Failed(address)
      else Generated([WithStack(opcode, value, stack)], Wrap(address + 2), true)
    case _ => Failed(address)
  }

  // The LD macro: low ten bits, then high six.
  function LoadBoth(words: seq<string>, address: cell, t: seq<Symbol>): Generated {
    match LoadOperands(words, t)
    case (stack, Number(value, _)) =>
      var used := Wrap(value);
      Generated([WithStack(0xC000, used % 0x400, stack), WithStack(0xD000, used / 0x400, stack)], Wrap(address + 4),
        true)
    case _ => Failed(address)
  }

  function Sized(words: seq<string>, address: cell, opcode: cell): Generated {
    if |words| < 2 || SizeId(FirstChar(words[1])) == NO_SIZE then Generated([], Wrap(address + 2), false)
    else Generated([Or16(opcode, SizeId(FirstChar(words[1])))], Wrap(address + 2), true)
  }

  // An unknown stack letter is not rejected: the guard compares with 7.
  function StackOp(words: seq<string>, address: cell, opcode: cell): Generated {
    if |words| < 2 then Failed(address)
    else
      var code := Or16(opcode, StackId(FirstChar(words[1])) * 0x40);
      Generated([if |words| == 3 then Or16(code, StackId(FirstChar(words[2])) * 0x10) else code], Wrap(address + 2),
        true)
  }

  // instruction_generators: a mnemonic with its operands.
  function Generate(words: seq<string>, address: cell, t: seq<Symbol>): Generated
    requires words != [] && ByteCount(words[0]) > 0
  {
    var name := words[0];
    if name == "LD" then LoadBoth(words, address, t)
    else if name == "LDL" then LoadPart(words, address, t, 0xC000, 1023)
    else if name == "LDH" then LoadPart(words, address, t, 0xD000, 63)
    else if name == "ENTER" then Enter(words, address, t)
    else if name == "BIF" then Branch(words, address, t)
    else
      match PlainCode(name)
      case Value(code) => Generated([code], Wrap(address + 2), true)
      case Missing =>
        match SizedCode(name)
        case Value(code) => Sized(words, address, code)
        case Missing =>
          match StackCode(name)
          case Value(code) => StackOp(words, address, code)
          case Missing => Failed(address)
  }

  // A generator that reports no error emits as many bytes as the table says and
  // moves the address on by that many: the delta check cannot fail.
  lemma GeneratedSize(words: seq<string>, address: cell, t: seq<Symbol>)
    requires words != [] && ByteCount(words[0]) > 0 && Generate(words, address, t).ok
    ensures var g := Generate(words, address, t);
            2 * |g.code| == ByteCount(words[0]) && g.next == Wrap(address + ByteCount(words[0]))
            && Wrap(g.next - address) == ByteCount(words[0])
  {
    hide Or16, ReadNumber, FindSymbol, StackId, SizeId, PlainCode, SizedCode, StackCode, LoadOperands, WithStack;
  }
}
