// The emulator as the program keeps it: stacks in fixed arrays, updated in
// place through a pointer to one of them, and the loader of hex files.
module CpuMachine {
  import opened Dataspace
  import opened AsmCode
  import opened HexFormat
  import opened HexRoundTrip
  import opened CpuState
  import opened CpuTheorem

  class CpuStack {
    var top: nat
    const size: nat
    const values: array<cell>

    constructor (n: nat)
      ensures fresh(values) && values.Length == MAX_STACK_SIZE && size == n && top == 0
    {
      top, size := 0, n;
      values := new cell[MAX_STACK_SIZE](_ => 0);
    }

    ghost predicate Valid(n: nat)
      reads this
    {
      values.Length == MAX_STACK_SIZE && size == n && top <= n <= MAX_STACK_SIZE
    }

    ghost function Contents(): (s: seq<cell>)
      reads this, values
      requires top <= values.Length
      ensures |s| == top
    {
      values[..top]
    }
  }

  class Machine {
    const memory: array<byte>
    const data: CpuStack
    const ret: CpuStack
    const control: CpuStack
    const temp: CpuStack
    var keepGoing: bool
    var singleStep: bool
    var exception: Exception
    var pc: cell
    var instruction: cell
    var out: seq<byte>

    ghost predicate Apart() {
      && data != ret && data != control && data != temp && ret != control && ret != temp && control != temp
      && data.values != ret.values && data.values != control.values && data.values != temp.values
      && ret.values != control.values && ret.values != temp.values && control.values != temp.values
    }

    ghost predicate Valid()
      reads this, data, ret, control, temp
    {
      && memory.Length == SIZE && Apart()
      && data.Valid(SizeOf(DATA)) && ret.Valid(SizeOf(RETURN)) && control.Valid(SizeOf(CONTROL))
         && temp.Valid(SizeOf(TEMP))
    }

    ghost function Abs(): (c: Cpu)
      reads this, data, ret, control, temp, data.values, ret.values, control.values, temp.values
      requires Valid()
      ensures |c.stacks| == 4
    {
      Cpu(keepGoing, singleStep, exception,
          [data.Contents(), ret.Contents(), control.Contents(), temp.Contents()], pc, instruction, out)
    }

    ghost function StackOf(id: nat): CpuStack
      requires id < 4
    {
      if id == DATA then data else if id == RETURN then ret else if id == CONTROL then control else temp
    }

    // cpu_reset on new stacks.
    constructor (m: array<byte>)
      requires m.Length == SIZE
      ensures Valid() && memory == m && Abs() == Reset([])
      ensures fresh(data) && fresh(ret) && fresh(control) && fresh(temp)
    {
      memory := m;
      data := new CpuStack(16);
      ret := new CpuStack(32);
      control := new CpuStack(32);
      temp := new CpuStack(16);
      pc, instruction, keepGoing, singleStep, exception, out := 0xF000, 0, true, false, AllIsOk, [];
    }

    method Push(s: CpuStack, v: cell, ghost id: nat)
      requires Valid() && id < 4 && s == StackOf(id) && s.top < s.size
      modifies this`keepGoing, this`exception, s, s.values
      ensures Valid() && Abs() == PushOn(old(Abs()), id, v) && s.top == old(s.top) + 1
    {
      s.values[s.top] := v;
      s.top := s.top + 1;
      assert s.Contents() == old(s.Contents()) + [v];
      assert Abs().stacks == old(Abs()).stacks[id := s.Contents()];
      if s.top == s.size {
        keepGoing := false;
        exception := StackOverflow;
      }
    }

    method Pop(s: CpuStack, ghost id: nat) returns (v: cell)
      requires Valid() && id < 4 && s == StackOf(id)
      modifies this`keepGoing, this`exception, s
      ensures Valid() && (Abs(), v) == PopOff(old(Abs()), id)
      ensures s.top == if old(s.top) == 0 then 0 else old(s.top) - 1
    {
      if s.top == 0 {
        keepGoing := false;
        exception := StackUnderflow;
        v := 0xDEAD;
      } else {
        s.top := s.top - 1;
        v := s.values[s.top];
        assert s.Contents() == old(s.Contents())[..s.top] && v == old(s.Contents())[s.top];
        assert Abs().stacks == old(Abs()).stacks[id := s.Contents()];
      }
    }

    // While the processor keeps going every stack has room.
    lemma HasRoom(id: nat)
      requires Valid() && CpuOk(Abs()) && keepGoing && id < 4
      ensures StackOf(id).top < StackOf(id).size
    {
      assert Abs().stacks[id] == StackOf(id).Contents();
    }

    method GetStack(id: nat) returns (s: CpuStack)
      requires id < 4
      ensures s == StackOf(id)
    {
      match id
      case 0 => s := data;
      case 1 => s := ret;
      case 2 => s := control;
      case _ => s := temp;
    }

    method RunEnter()
      requires Valid() && CpuOk(Abs()) && keepGoing
      modifies this, ret, ret.values
      ensures Valid() && Abs() == EnterWord(old(Abs()))
    {
      var address: cell := instruction % 0x4000 * 4;
      Push(ret, Wrap(pc + 2), RETURN);
      pc := address;
    }

    method RunBranch()
      requires Valid()
      modifies this, data
      ensures Valid() && Abs() == BranchIfFalse(old(Abs()))
    {
      var truth := Pop(data, DATA);
      if truth != 0 {
        pc := Wrap(pc + 2);
      } else {
        var offset := instruction % 0x1000;
        if offset >= 0x800 {
          pc := Wrap(pc - (0x1000 - offset));
        } else {
          pc := Wrap(pc + offset);
        }
      }
    }

    method RunControl()
      requires Valid()
      modifies this, ret
      ensures Valid() && Abs() == Control(old(Abs()))
    {
      var func := instruction / 0x100 % 16;
      if func == 0 {
        pc := Wrap(pc + 2);
      } else if func == 1 {
        pc := Pop(ret, RETURN);
      } else if func == 2 {
        pc := Wrap(pc + 2);
        keepGoing := false;
      } else {
        exception := IllegalInstruction;
        keepGoing := false;
      }
      pc := Wrap(pc + 2);
    }

    method Dup(s: CpuStack, ghost id: nat)
      requires Valid() && id < 4 && s == StackOf(id) && s.top < s.size
      modifies this`keepGoing, this`exception, s, s.values
      ensures Valid() && Abs() == (var (c, v) := PopOff(old(Abs()), id); PushOn(PushOn(c, id, v), id, v))
    {
      hide PushOn, PopOff, SizeOf;
      var v := Pop(s, id);
      Push(s, v, id);
      Push(s, v, id);
    }

    method Swap(s: CpuStack, ghost id: nat)
      requires Valid() && id < 4 && s == StackOf(id) && s.top < s.size
      modifies this`keepGoing, this`exception, s, s.values
      ensures Valid()
      ensures Abs()
              == (var (c, v) := PopOff(old(Abs()), id); var (d, w) := PopOff(c, id); PushOn(PushOn(d, id, v), id, w))
    {
      hide PushOn, PopOff, SizeOf;
      var v := Pop(s, id);
      var v2 := Pop(s, id);
      Push(s, v, id);
      Push(s, v2, id);
    }

    // MOV; the two stacks may be the same one.
    method Move(s: CpuStack, t: CpuStack, ghost id: nat, ghost id2: nat)
      requires Valid() && id < 4 && s == StackOf(id) && s.top < s.size
      requires id2 < 4 && t == StackOf(id2) && t.top < t.size
      modifies this`keepGoing, this`exception, s, s.values, t, t.values
      ensures Valid() && Abs() == (var (c, v) := PopOff(old(Abs()), id); PushOn(c, id2, v))
    {
      hide PushOn, PopOff, SizeOf;
      var v := Pop(s, id);
      Push(t, v, id2);
    }

    method Fault()
      requires Valid()
      modifies this`keepGoing, this`exception
      ensures Valid() && Abs() == Illegal(old(Abs()))
    {
      exception := IllegalInstruction;
      keepGoing := false;
    }

    method Advance()
      requires Valid()
      modifies this`pc
      ensures Valid() && Abs() == Ahead(old(Abs()))
    {
      pc := Wrap(pc + 2);
    }

    method RunStackWords()
      requires Valid() && CpuOk(Abs()) && keepGoing
      modifies this, data, ret, control, temp, data.values, ret.values, control.values, temp.values
      ensures Valid() && Abs() == StackWords(old(Abs()))
    {
      var func := instruction / 0x100 % 16;
      var sourceId := instruction / 0x40 % 4;
      var targetId := instruction / 0x10 % 4;
      HasRoom(sourceId);
      HasRoom(targetId);
      assert Abs().instruction == instruction;
      hide PushOn, PopOff, CpuOk, Valid, Abs, Ahead, Illegal;
      var source := GetStack(sourceId);
      var target := GetStack(targetId);
      if func == 0 {
        var _ := Pop(source, sourceId);
      } else if func == 1 {
        Dup(source, sourceId);
      } else if func == 2 {
        Swap(source, sourceId);
      } else if func == 3 {
        Move(source, target, sourceId, targetId);
      } else {
        Fault();
      }
      Advance();
    }

    method RunLoadLow()
      requires Valid() && CpuOk(Abs()) && keepGoing
      modifies this, data, ret, control, temp, data.values, ret.values, control.values, temp.values
      ensures Valid() && Abs() == LoadLow(old(Abs()))
    {
      var id := instruction / 0x400 % 4;
      HasRoom(id);
      hide PushOn, PopOff, CpuOk, SizeOf, Wrap, Or16;
      var stack := GetStack(id);
      Push(stack, instruction % 0x400, id);
      pc := Wrap(pc + 2);
    }

    method RunLoadHigh()
      requires Valid() && CpuOk(Abs()) && keepGoing
      modifies this, data, ret, control, temp, data.values, ret.values, control.values, temp.values
      ensures Valid() && Abs() == LoadHigh(old(Abs()))
    {
      var id := instruction / 0x400 % 4;
      HasRoom(id);
      assert Abs().instruction == instruction;
      var high: cell := instruction % 0x40 * 0x400;
      hide PushOn, PopOff, CpuOk, Valid, Abs, Ahead, Or16, SizeOf;
      var stack := GetStack(id);
      OrIn(stack, id, high);
      Advance();
    }

    method OrIn(s: CpuStack, ghost id: nat, high: cell)
      requires Valid() && id < 4 && s == StackOf(id) && s.top < s.size
      modifies this`keepGoing, this`exception, s, s.values
      ensures Valid() && Abs() == (var (c, v) := PopOff(old(Abs()), id); PushOn(c, id, Or16(v, high)))
    {
      hide PushOn, PopOff, SizeOf, Or16;
      var value := Pop(s, id);
      value := Or16(value, high);
      Push(s, value, id);
    }

    method RunTwoValues()
      requires Valid() && CpuOk(Abs()) && keepGoing
      modifies this, data, data.values
      ensures Valid() && Abs() == TwoValues(old(Abs()))
    {
      var func := instruction / 0x80 % 32;
      var signed := instruction / 0x10 % 2 == 1;
      HasRoom(DATA);
      assert Abs().instruction == instruction;
      hide Operate, PushOn, PopOff, CpuOk, Valid, Abs, Ahead, Illegal, Store;
      if func == 0x0B {
        RunStore();
      } else if IsOperator(func, signed) {
        TwoToOne(func, signed);
      } else {
        Fault();
      }
      Advance();
    }

    method TwoToOne(func: nat, signed: bool)
      requires Valid() && data.top < data.size
      modifies this, data, data.values
      ensures Valid()
      ensures Abs() == (var (c, n1) := PopOff(old(Abs()), DATA);
                        var (d, n2) := PopOff(c, DATA);
                        PushOn(d, DATA, Operate(func, signed, n1, n2)))
    {
      hide Operate, PushOn, PopOff, SizeOf;
      var n1 := Pop(data, DATA);
      var n2 := Pop(data, DATA);
      Push(data, Operate(func, signed, n1, n2), DATA);
    }

    method RunStore()
      requires Valid()
      modifies this, data
      ensures Valid() && Abs() == Store(old(Abs()))
    {
      var n := Pop(data, DATA);
      var address := Pop(data, DATA);
      if instruction / 0x40 % 2 == 1 && instruction % 4 == 1 {
        if address == 0 {
          out := out + [n % 0x100];
        }
      } else {
        exception := IllegalInstruction;
        keepGoing := false;
      }
    }

    method RunRead()
      requires Valid() && data.top < data.size
      modifies this, data, data.values
      ensures Valid() && Abs() == Read(old(Abs()), memory[..])
    {
      hide PushOn, PopOff, SizeOf;
      var address := Pop(data, DATA);
      if instruction / 0x40 % 2 == 0 && instruction % 4 == 1 {
        var value: cell := memory[address];
        Push(data, value, DATA);
      } else {
        Fault();
      }
    }

    method RunOneValue()
      requires Valid() && CpuOk(Abs()) && keepGoing
      modifies this, data, data.values
      ensures Valid() && Abs() == OneValue(old(Abs()), memory[..])
    {
      var func := instruction / 0x100 % 16;
      HasRoom(DATA);
      assert Abs().instruction == instruction;
      hide PushOn, PopOff, CpuOk, Ahead, Illegal, Read, SizeOf, Wrap, Valid, Abs;
      if func < 2 {
        OneToOne(func == 1);
      } else if func == 2 {
        RunRead();
      } else {
        Fault();
      }
      Advance();
    }

    // NEG and NOT.
    method OneToOne(invert: bool)
      requires Valid() && data.top < data.size
      modifies this, data, data.values
      ensures Valid()
      ensures Abs() == (var (c, v) := PopOff(old(Abs()), DATA);
                        PushOn(c, DATA, if invert then 0xFFFF - v else Wrap(-(v as int))))
    {
      hide PushOn, PopOff, SizeOf, Wrap;
      var v := Pop(data, DATA);
      Push(data, if invert then 0xFFFF - v else Wrap(-(v as int)), DATA);
    }

    method Fetch()
      requires Valid()
      modifies this`instruction
      ensures Valid() && Abs() == old(Abs()).(instruction := Fetch16(memory[..], pc))
              && instruction == Abs().instruction
    {
      instruction := memory[pc] as int + 0x100 * memory[Succ(pc)] as int;
    }

    // The switch on the first four bits.
    method Decode()
      requires Valid() && CpuOk(Abs()) && keepGoing && instruction == Abs().instruction
      modifies this, data, ret, control, temp, data.values, ret.values, control.values, temp.values
      ensures Valid() && Abs() == Instruction(old(Abs()), memory[..])
    {
      assert memory.Length == SIZE;
      hide EnterWord, BranchIfFalse, Control, StackWords, LoadLow, LoadHigh, TwoValues, OneValue, CpuOk, Valid, Abs;
      hide Illegal, Ahead;
      var group := instruction / 0x1000;
      if 4 <= group < 8 {
        RunEnter();
      } else if group == 1 {
        RunBranch();
      } else if group == 8 {
        RunControl();
      } else if group == 0xB {
        RunStackWords();
      } else if group == 0xC {
        RunLoadLow();
      } else if group == 0xD {
        RunLoadHigh();
      } else if group == 0xE {
        RunTwoValues();
      } else if group == 0xF {
        RunOneValue();
      } else {
        Fault();
        Advance();
      }
    }

    // One turn of the loop.
    method Turn()
      requires Valid() && CpuOk(Abs()) && keepGoing
      modifies this, data, ret, control, temp, data.values, ret.values, control.values, temp.values
      ensures Valid() && Abs() == Step(old(Abs()), memory[..])
    {
      hide Instruction, SizeOf;
      Fetch();
      Decode();
      if singleStep {
        keepGoing := false;
      }
    }

    // run, for at most n turns; the original has no limit.
    method RunLoop(n: nat)
      requires Valid() && CpuOk(Abs())
      modifies this, data, ret, control, temp, data.values, ret.values, control.values, temp.values
      ensures Valid() && CpuOk(Abs()) && Abs() == Run(old(Abs()), memory[..], n)
    {
      hide Step, CpuOk, SizeOf;
      ghost var m: Memory := memory[..];
      var i := 0;
      while i < n && keepGoing
        invariant 0 <= i <= n && Valid() && CpuOk(Abs()) && memory[..] == m
        invariant Run(Abs(), m, n - i) == Run(old(Abs()), m, n)
      {
        StepOk(Abs(), m);
        Turn();
        i := i + 1;
      }
    }

    // fgets: the next line of the text, from position p on.
    method NextLine(text: string, p: nat) returns (line: string)
      requires p <= |text|
      ensures line == text[p..][..LineLength(text[p..], LINE_LIMIT)]
    {
      var n := 0;
      while n < LINE_LIMIT && p + n < |text| && (n == 0 || text[p + n - 1] != '\n')
        invariant 0 <= n <= LINE_LIMIT && p + n <= |text|
        invariant LineLength(text[p..], LINE_LIMIT) ==
                  if n > 0 && text[p + n - 1] == '\n' then n else n + LineLength(text[p + n..], LINE_LIMIT - n)
        decreases LINE_LIMIT - n
      {
        assert text[p + n..][0] == text[p + n] && text[p + n..][1..] == text[p + n + 1..];
        n := n + 1;
      }
      line := text[p..p + n];
      assert text[p..][..n] == line;
    }

    // The data bytes of one record.
    method StoreRecord(line: string, location: nat, count: nat)
      requires memory.Length == SIZE && 9 + 2 * count <= |line| && location + count <= SIZE && 0 < count
      modifies memory
      ensures memory[..] == Blit(old(memory[..]), location, GetBytes(line, 9, count))
    {
      hide GetBytes, GetByte;
      ghost var m: Memory := memory[..];
      ghost var bytes := GetBytes(line, 9, count);
      var i := 0;
      BlitNothing(m, location);
      assert bytes[..0] == [];
      while i < count
        invariant 0 <= i <= count && memory[..] == Blit(m, location, bytes[..i])
      {
        GetPart(line, 9, count, i);
        BlitNext(m, location, bytes[..i], bytes[i]);
        assert bytes[..i + 1] == bytes[..i] + [bytes[i]];
        memory[location + i] := GetByte(line, 9 + 2 * i);
        i := i + 1;
      }
      assert bytes[..count] == bytes;
    }

    // load_hex, where it stays inside its buffer and memory.
    method LoadHex(text: string) returns (ok: bool)
      requires memory.Length == SIZE && LoadText(text, memory[..]).Loaded?
      modifies memory
      ensures Loaded(ok, memory[..]) == LoadText(text, old(memory[..]))
    {
      hide GetBytes, GetByte, LineLength, Blit;
      ok := true;
      var p := 0;
      assert text[0..] == text;
      while p < |text|
        invariant 0 <= p <= |text| && ok && LoadText(text[p..], memory[..]) == LoadText(text, old(memory[..]))
      {
        var line := NextLine(text, p);
        ghost var rest := text[p..];
        assert rest[|line|..] == text[p + |line|..];
        p := p + |line|;
        if line[0] == ':' {
          if |line| < 11 {
            return false;
          }
          var count := GetByte(line, 1);
          var location := GetByte(line, 3) as int * 0x100 + GetByte(line, 5) as int;
          var kind := GetByte(line, 7);
          if kind == 0 {
            if count > 0 {
              StoreRecord(line, location, count);
            }
          } else if kind == 1 {
            return;
          }
        }
      }
      assert text[p..] == "";
    }
  }
}
