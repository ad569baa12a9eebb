// The system as the program keeps it: one context object over the dataspace,
// updated in place.  Every routine is proved to do what its specification
// function says.
module ForthMachine {
  import opened Dataspace
  import opened Letters
  import opened Numerals
  import opened ForthState
  import opened ForthWords
  import opened ForthMini
  import opened ForthRun

  // Copying one more character to the word buffer.
  lemma CopyStep(m: Memory, first: nat, i: nat)
    requires first <= i && LOC_INPUT_BUFFER + i < SIZE && i - first < 127
    ensures var n := Blit(m, LOC_WORD_BUFFER + 1, m[LOC_INPUT_BUFFER + first..LOC_INPUT_BUFFER + i]);
            && Store8(n, LOC_WORD_BUFFER + 1 + (i - first), m[LOC_INPUT_BUFFER + i]) ==
               Blit(m, LOC_WORD_BUFFER + 1, m[LOC_INPUT_BUFFER + first..LOC_INPUT_BUFFER + i + 1])
            && n[LOC_INPUT_BUFFER + i + 1..] == m[LOC_INPUT_BUFFER + i + 1..]
  {
    var x, y := m[LOC_INPUT_BUFFER + first..LOC_INPUT_BUFFER + i],
      m[LOC_INPUT_BUFFER + first..LOC_INPUT_BUFFER + i + 1];
    assert y == x + [m[LOC_INPUT_BUFFER + i]];
  }

  lemma HeaderPart(m: Memory, here: cell, previous: cell, flags: byte, op: byte, does: cell, name: seq<byte>)
    requires |name| < 0x80 && here + DE_SIZE_MIN + |name| <= SIZE
    ensures HeaderBytes(previous, flags, op, does, name)[..11] ==
            [LowByte(previous), HighByte(previous), flags, 0, op, 0, 0, 0, LowByte(does), HighByte(does), |name|]
    ensures HeaderBytes(previous, flags, op, does, name)[11..] == name
  {
  }

  lemma BlitStep(m: Memory, here: cell, bytes: seq<byte>, i: nat)
    requires i < |bytes| && here + |bytes| <= SIZE
    ensures Store8(Blit(m, here, bytes[..i]), here + i, bytes[i]) == Blit(m, here, bytes[..i + 1])
  {
    assert bytes[..i + 1] == bytes[..i] + [bytes[i]];
  }

  lemma BeforeHeader(m: Memory, here: cell, bytes: seq<byte>, a: nat)
    requires a < here && here + |bytes| <= SIZE
    ensures Blit(m, here, bytes)[a] == m[a]
  {
  }

  lemma AddCases(st: State)
    requires StacksOk(st)
    ensures Empty(st.data) ==> Add(st) == Abort(st)
    ensures !Empty(st.data) && Empty(DropData(st).data) ==> Add(st) == Abort(DropData(st))
    ensures !Empty(st.data) && !Empty(DropData(st).data) ==>
              var s := DropData(st);
              Add(st) == Continue(PushData(DropData(s), Wrap(TopData(st) as int + TopData(s) as int)))
  {
    hide Dataspace.Fetch16, Dataspace.Store16, AbortState;
  }

  lemma BlankedNone(m: Memory, code: seq<byte>)
    ensures Blit(m, LOC_INPUT_BUFFER, Blanked(code)[..0]) == m
  {
    assert Blanked(code)[..0] == [];
  }

  lemma BlankedStep(m: Memory, code: seq<byte>, i: nat)
    requires i < |code| < INPUT_BUFFER_SIZE
    ensures var c := if IsWhite(code[i]) then BLANK else code[i];
            Store8(Blit(m, LOC_INPUT_BUFFER, Blanked(code)[..i]), LOC_INPUT_BUFFER + i, c) ==
            Blit(m, LOC_INPUT_BUFFER, Blanked(code)[..i + 1])
  {
    BlitStep(m, LOC_INPUT_BUFFER, Blanked(code), i);
  }

  lemma OpcodeThere(m: Memory, ip: cell)
    ensures OpcodeAt(m, ip) == CodeField(m, Dataspace.Fetch16(m, ip))
  {
  }

  // One turn of DECOMPILE's loop.
  lemma SweepTurn(m: Memory, ip: cell, fuel: nat)
    requires SweepEnds(m, ip, fuel)
    ensures !GoesOn(OpcodeAt(m, ip)) ==> Swept(m, ip, fuel) == [ip] + []
    ensures GoesOn(OpcodeAt(m, ip)) ==>
              var next := Wrap(ip + Width(OpcodeAt(m, ip)));
              fuel > 0 && SweepEnds(m, next, fuel - 1) && Swept(m, ip, fuel) == [ip] + Swept(m, next, fuel - 1)
  {
    hide Dataspace.Fetch16, CodeField, OpcodeAt, Wrap;
  }

  class Forth {
    const mem: array<byte>
    var ip: cell
    var dictHead: cell
    var top: cell
    var recover: cell
    var control: Stack
    var data: Stack
    var ret: Stack
    var run: bool
    var input: seq<byte>

    ghost function Abs(): State
      requires mem.Length == SIZE
      reads this, mem
    {
      State(mem[..], ip, dictHead, top, recover, control, data, ret, run, input)
    }

    ghost predicate Valid()
      reads this, mem
    {
      mem.Length == SIZE && StacksOk(Abs())
    }

    // ff_reset: empty stacks, no dictionary, default variables.
    constructor (m: array<byte>, text: seq<byte>)
      requires m.Length == SIZE
      modifies m
      ensures Valid() && mem == m && dictHead == 0 && run && input == text
      ensures Empty(data) && Empty(control) && Empty(ret)
      ensures Here(mem[..]) == SYSTEM_END && Previous(mem[..], SYSTEM_END) == 0
      ensures Dataspace.Fetch16(mem[..], LOC_INDEX) == 0 && Dataspace.Fetch16(mem[..], LOC_COUNT) == 0
      ensures Dataspace.Fetch16(mem[..], LOC_STATE) == old(Dataspace.Fetch16(m[..], LOC_STATE))
      ensures mem[..] == ResetMemory(old(m[..]))
    {
      mem := m;
      ip, recover, dictHead := 0, 0, 0;
      run, input := true, text;
      control, data, ret, top := Stack(0, 0, 0), Stack(0, 0, 0), Stack(0, 0, 0), 0;
      new;
      InitAllStacks();
      Store8(LOC_INPUT_BUFFER, 0);
      Store16(LOC_INDEX, 0);
      Store16(LOC_COUNT, 0);
      Store16(LOC_BASE, 10);
      Store16(LOC_HERE, SYSTEM_END);
      Store16(SYSTEM_END, 0);
      assert mem[LOC_HERE] as int + 0x100 * mem[LOC_HERE + 1] as int == SYSTEM_END;
    }

    method InitAllStacks()
      requires mem.Length == SIZE
      modifies this
      ensures Abs() == InitStacks(old(Abs()))
    {
      var where: cell := 0xFFFE;
      ret, where := ForthState.InitStack(where, 24).0, ForthState.InitStack(where, 24).1;
      control, where := ForthState.InitStack(where, 20).0, ForthState.InitStack(where, 20).1;
      data, where := ForthState.InitStack(where, 32).0, ForthState.InitStack(where, 32).1;
      top := where;
    }

    method Store8(a: cell, v: byte)
      requires mem.Length == SIZE
      modifies mem
      ensures mem[..] == Dataspace.Store8(old(mem[..]), a, v)
    {
      mem[a] := v;
    }

    method Store16(a: cell, v: cell)
      requires mem.Length == SIZE
      modifies mem
      ensures mem[..] == Dataspace.Store16(old(mem[..]), a, v)
    {
      mem[a] := v % 0x100;
      mem[Succ(a)] := v / 0x100;
    }

    method Fetch16(a: cell) returns (v: cell)
      requires mem.Length == SIZE
      ensures v == Dataspace.Fetch16(mem[..], a)
    {
      v := mem[a] as int + 0x100 * mem[Succ(a)] as int;
    }

    // push(): the assertion that the stack pointer has not reached the top is
    // the precondition.
    method Push(s: Stack, v: cell) returns (r: Stack)
      requires mem.Length == SIZE && s.where + 2 < s.top
      modifies mem
      ensures mem[..] == Dataspace.Store16(old(mem[..]), s.where, v) && r == s.(where := s.where + 2)
    {
      Store16(s.where, v);
      r := s.(where := s.where + 2);
    }

    method Pop(s: Stack) returns (v: cell, r: Stack)
      requires mem.Length == SIZE && s.bottom + 2 <= s.where
      ensures v == Dataspace.Fetch16(mem[..], s.where - 2) && r == s.(where := s.where - 2)
    {
      r := s.(where := s.where - 2);
      v := Fetch16(r.where);
    }

    method InstrAbort() returns (next: cell)
      requires mem.Length == SIZE
      modifies this, mem
      ensures Valid() && Next(Abs(), next) == Abort(old(Abs()))
    {
      var state := Fetch16(LOC_STATE);
      Store8(LOC_INPUT_BUFFER, 0);
      Store16(LOC_INDEX, 0);
      Store16(LOC_COUNT, 0);
      InitAllStacks();
      if state == COMPILING {
        dictHead := Fetch16(dictHead);
        Store16(LOC_STATE, INTERPRETING);
      }
      return recover;
    }

    method InstrDrop() returns (next: cell)
      requires Valid()
      modifies this, mem
      ensures Valid() && Next(Abs(), next) == Drop(old(Abs()))
    {
      if Empty(data) {
        next := InstrAbort();
      } else {
        var _, s := Pop(data);
        data := s;
        next := Wrap(ip + 2);
      }
    }

    method InstrDup() returns (next: cell)
      requires Valid()
      modifies this, mem
      ensures Valid() && Next(Abs(), next) == Dup(old(Abs()))
    {
      if Empty(data) {
        next := InstrAbort();
      } else {
        var n, s := Pop(data);
        data := s;
        data := Push(data, n);
        assert mem[..] == old(mem[..]);
        if Full(data) {
          next := InstrAbort();
        } else {
          data := Push(data, n);
          next := Wrap(ip + 2);
        }
      }
    }

    method InstrAdd() returns (next: cell)
      requires Valid()
      modifies this, mem
      ensures Valid() && Next(Abs(), next) == Add(old(Abs()))
    {
      hide Dataspace.Fetch16, Dataspace.Store16, AbortState, Wrap, InitStacks, Add;
      ghost var st := Abs();
      AddCases(st);
      if Empty(data) {
        next := InstrAbort();
      } else {
        var n1, s := Pop(data);
        data := s;
        ghost var t := Abs();
        assert t == DropData(st) && n1 == TopData(st);
        if Empty(data) {
          next := InstrAbort();
        } else {
          var n2;
          n2, s := Pop(data);
          assert n2 == TopData(t);
          data := Push(s, Wrap(n1 as int + n2 as int));
          next := Wrap(ip + 2);
          assert Abs() == PushData(DropData(t), Wrap(n1 as int + n2 as int));
        }
      }
    }

    method InstrEqual() returns (next: cell)
      requires Valid()
      modifies this, mem
      ensures Valid() && Next(Abs(), next) == Equal(old(Abs()))
    {
      hide Dataspace.Fetch16, Dataspace.Store16, AbortState;
      if Empty(data) {
        next := InstrAbort();
      } else {
        var n1, s := Pop(data);
        data := s;
        if Empty(data) {
          next := InstrAbort();
        } else {
          var n2;
          n2, s := Pop(data);
          data := Push(s, if n1 == n2 then 1 else 0);
          next := Wrap(ip + 2);
        }
      }
    }

    // STATE, BASE, WORDBUFFER.
    method HelperGetVariable(variable: cell) returns (next: cell)
      requires Valid()
      modifies this, mem
      ensures Valid() && Next(Abs(), next) == PushVariable(old(Abs()), variable)
    {
      if Full(data) {
        next := InstrAbort();
      } else {
        data := Push(data, variable);
        next := Wrap(ip + 2);
      }
    }

    method InstrAt() returns (next: cell)
      requires Valid()
      requires Full(data) || !Empty(data)
      modifies this, mem
      ensures Valid() && Next(Abs(), next) == At(old(Abs()))
    {
      if Full(data) {
        next := InstrAbort();
      } else {
        var a, s := Pop(data);
        var v := Fetch16(a);
        data := Push(s, v);
        next := Wrap(ip + 2);
      }
    }

    method InstrCAt() returns (next: cell)
      requires Valid()
      modifies this, mem
      ensures Valid() && Next(Abs(), next) == CAt(old(Abs()))
    {
      if Empty(data) {
        next := InstrAbort();
      } else {
        var a, s := Pop(data);
        var v := mem[a];
        data := Push(s, if v < 0x80 then v else v as int + 0xFF00);
        next := Wrap(ip + 2);
      }
    }

    method InstrQImmediate() returns (next: cell)
      requires Valid()
      modifies this, mem
      ensures Valid() && Next(Abs(), next) == QImmediate(old(Abs()))
    {
      if Empty(data) {
        next := InstrAbort();
      } else {
        var xt, s := Pop(data);
        data := Push(s, if mem[Wrap(xt + DE_FLAGS)] / 2 % 2 == 1 then 1 else 0);
        next := Wrap(ip + 2);
      }
    }

    method InstrImmediate() returns (next: cell)
      requires Valid()
      modifies this, mem
      ensures Valid() && Next(Abs(), next) == Immediate(old(Abs()))
    {
      var a := Wrap(dictHead + DE_FLAGS);
      var f := mem[a];
      Store8(a, if f / 2 % 2 == 1 then f else f + 2);
      next := Wrap(ip + 2);
    }

    method InstrJump() returns (next: cell)
      requires Valid()
      modifies this, mem
      ensures Valid() && Next(Abs(), next) == Jump(old(Abs()))
    {
      next := Fetch16(Wrap(ip + 2));
    }

    method InstrJumpIfFalse() returns (next: cell)
      requires Valid()
      modifies this, mem
      ensures Valid() && Next(Abs(), next) == JumpIf(old(Abs()))
    {
      hide Dataspace.Fetch16, Dataspace.Store16, AbortState;
      if Empty(data) {
        next := InstrAbort();
      } else {
        var n, s := Pop(data);
        data := s;
        if n == 0 {
          next := Fetch16(Wrap(ip + 2));
        } else {
          next := Wrap(ip + 4);
        }
      }
    }

    method InstrPush() returns (next: cell)
      requires Valid()
      modifies this, mem
      ensures Valid() && Next(Abs(), next) == PushLiteral(old(Abs()))
    {
      hide Dataspace.Fetch16, Dataspace.Store16, AbortState;
      if Full(data) {
        next := InstrAbort();
      } else {
        var n := Fetch16(Wrap(ip + 2));
        data := Push(data, n);
        next := Wrap(ip + 4);
      }
    }

    // Address of the parameter field of an entry.
    method GetParameterField(entry: cell) returns (field: cell)
      requires mem.Length == SIZE
      ensures field == ParameterField(mem[..], entry)
    {
      var n := mem[Wrap(entry + DE_NAME)] as int;
      field := Align(Wrap(entry + (if n < 128 then n else n - 256) + DE_SIZE_MIN));
    }

    method InstrEnter(word: cell) returns (next: cell)
      requires Valid()
      modifies this, mem
      ensures Valid() && Next(Abs(), next) == Enter(old(Abs()), word)
    {
      hide Dataspace.Fetch16, Dataspace.Store16, AbortState, ParameterField;
      if Full(ret) {
        next := InstrAbort();
      } else {
        ret := Push(ret, Wrap(ip + 2));
        next := GetParameterField(word);
      }
    }

    method InstrExit() returns (next: cell)
      requires Valid()
      modifies this, mem
      ensures Valid() && Next(Abs(), next) == Exit(old(Abs()))
    {
      if Empty(ret) {
        next := InstrAbort();
      } else {
        var s;
        next, s := Pop(ret);
        ret := s;
      }
    }

    method InstrCreateEnter(word: cell) returns (next: cell)
      requires Valid()
      modifies this, mem
      ensures Valid() && Next(Abs(), next) == CreateEnter(old(Abs()), word)
    {
      hide Dataspace.Fetch16, Dataspace.Store16, AbortState, ParameterField;
      if Full(data) {
        next := InstrAbort();
      } else {
        var field := GetParameterField(word);
        data := Push(data, field);
        next := Wrap(ip + 2);
      }
    }

    method InstrDoesEnter(word: cell) returns (next: cell)
      requires Valid()
      modifies this, mem
      ensures Valid() && Next(Abs(), next) == DoesEnter(old(Abs()), word)
    {
      hide Dataspace.Fetch16, Dataspace.Store16, AbortState, ParameterField;
      if Full(data) {
        next := InstrAbort();
      } else {
        var field := GetParameterField(word);
        data := Push(data, field);
        if Full(ret) {
          next := InstrAbort();
        } else {
          ret := Push(ret, Wrap(ip + 2));
          next := Fetch16(Wrap(word + DE_DOES_CODE));
        }
      }
    }

    // find_via_opcode: the newest entry with this code field; that there is one
    // is its assertion.
    method FindViaOpcode(op: nat) returns (entry: cell)
      requires mem.Length == SIZE && FindOpcode(mem[..], dictHead, op).Found?
      ensures Found(entry) == FindOpcode(mem[..], dictHead, op)
    {
      ghost var m: Memory := mem[..];
      hide Dataspace.Fetch16, CodeField;
      var h: cell := dictHead;
      entry := h;
      var code := GetCodeField(h);
      var found := code == op;
      h := Fetch16(h);
      while h != 0 && !found
        invariant FindOpcode(m, dictHead, op) ==
                  if found then Found(entry)
                  else if h == 0 then Absent
                  else if h < entry then FindOpcode(m, h, op) else Cyclic
        decreases entry
      {
        entry := h;
        code := GetCodeField(h);
        found := code == op;
        h := Fetch16(h);
      }
    }

    method GetCodeField(entry: cell) returns (op: nat)
      requires mem.Length == SIZE
      ensures op == CodeField(mem[..], entry)
    {
      var low := Fetch16(Wrap(entry + DE_CODE_FIELD));
      var high := Fetch16(Wrap(entry + DE_CODE_FIELD + 2));
      op := low as int + 0x1_0000 * high as int;
    }

    method InstrComma() returns (next: cell)
      requires Valid()
      modifies this, mem
      ensures Valid() && Next(Abs(), next) == CommaUpTo(old(Abs()), UNCHECKED)
    {
      hide Dataspace.Fetch16, Dataspace.Store16, AbortState, FindOpcode;
      if Empty(data) {
        next := InstrAbort();
      } else {
        var number, s := Pop(data);
        data := s;
        var here := Fetch16(LOC_HERE);
        Store16(here, number);
        here := Wrap(here as int + 2);
        Store16(LOC_HERE, here);
        next := Wrap(ip + 2);
      }
    }

    method InstrLiteral() returns (next: cell)
      requires Valid()
      requires LiteralUpTo(Abs(), UNCHECKED).Next?
      modifies this, mem
      ensures Valid() && Next(Abs(), next) == LiteralUpTo(old(Abs()), UNCHECKED)
    {
      hide Dataspace.Fetch16, Dataspace.Store16, AbortState, FindOpcode;
      if Empty(data) {
        next := InstrAbort();
      } else {
        var n, s := Pop(data);
        data := s;
        var here := Fetch16(LOC_HERE);
        var push := FindViaOpcode(OP_PUSH);
        Store16(here, push);
        here := Wrap(here as int + 2);
        Store16(here, n);
        here := Wrap(here as int + 2);
        Store16(LOC_HERE, here);
        next := Wrap(ip + 2);
      }
    }

    method InstrBegin() returns (next: cell)
      requires Valid()
      modifies this, mem
      ensures Valid() && Next(Abs(), next) == Begin(old(Abs()))
    {
      hide Dataspace.Fetch16, Dataspace.Store16, AbortState, FindOpcode;
      if Full(control) {
        next := InstrAbort();
      } else {
        var here := Fetch16(LOC_HERE);
        control := Push(control, here);
        next := Wrap(ip + 2);
      }
    }

    method InstrIf() returns (next: cell)
      requires Valid()
      requires IfUpTo(Abs(), UNCHECKED).Next?
      modifies this, mem
      ensures Valid() && Next(Abs(), next) == IfUpTo(old(Abs()), UNCHECKED)
    {
      hide Dataspace.Fetch16, Dataspace.Store16, AbortState, FindOpcode;
      if Full(control) {
        next := InstrAbort();
      } else {
        var here := Fetch16(LOC_HERE);
        var jumpIf := FindViaOpcode(OP_JUMP_IF);
        Store16(here, jumpIf);
        here := Wrap(here as int + 2);
        Store16(here, 0);
        control := Push(control, here);
        here := Wrap(here as int + 2);
        Store16(LOC_HERE, here);
        next := Wrap(ip + 2);
      }
    }

    method InstrThen() returns (next: cell)
      requires Valid()
      modifies this, mem
      ensures Valid() && Next(Abs(), next) == Then(old(Abs()))
    {
      hide Dataspace.Fetch16, Dataspace.Store16, AbortState, FindOpcode;
      var here := Fetch16(LOC_HERE);
      if Empty(control) {
        next := InstrAbort();
      } else {
        var a, s := Pop(control);
        control := s;
        Store16(a, here);
        next := Wrap(ip + 2);
      }
    }

    method InstrElse() returns (next: cell)
      requires Valid()
      requires ElseUpTo(Abs(), UNCHECKED).Next?
      modifies this, mem
      ensures Valid() && Next(Abs(), next) == ElseUpTo(old(Abs()), UNCHECKED)
    {
      hide Dataspace.Fetch16, Dataspace.Store16, AbortState, FindOpcode, Wrap;
      ghost var now := Dataspace.Fetch16(mem[..], LOC_HERE);
      WrapSum(now, 2, 2);
      if Empty(control) {
        next := InstrAbort();
      } else {
        var here := Fetch16(LOC_HERE);
        var jump := FindViaOpcode(OP_JUMP);
        Store16(here, jump);
        var a, s := Pop(control);
        Store16(a, Wrap(here as int + 4));
        here := Wrap(here as int + 2);
        control := Push(s, here);
        here := Wrap(here as int + 2);
        Store16(LOC_HERE, here);
        next := Wrap(ip + 2);
      }
    }

    method InstrAgain() returns (next: cell)
      requires Valid()
      requires AgainUpTo(Abs(), UNCHECKED).Next?
      modifies this, mem
      ensures Valid() && Next(Abs(), next) == AgainUpTo(old(Abs()), UNCHECKED)
    {
      hide Dataspace.Fetch16, Dataspace.Store16, AbortState, FindOpcode;
      if Empty(control) {
        next := InstrAbort();
      } else {
        var here := Fetch16(LOC_HERE);
        var jump := FindViaOpcode(OP_JUMP);
        Store16(here, jump);
        here := Wrap(here as int + 2);
        var a, s := Pop(control);
        control := s;
        Store16(here, a);
        here := Wrap(here as int + 2);
        Store16(LOC_HERE, here);
        next := Wrap(ip + 2);
      }
    }

    method InstrSemicolon() returns (next: cell)
      requires Valid()
      requires SemicolonUpTo(Abs(), UNCHECKED).Next?
      modifies this, mem
      ensures Valid() && Next(Abs(), next) == SemicolonUpTo(old(Abs()), UNCHECKED)
    {
      hide Dataspace.Fetch16, Dataspace.Store16, AbortState, FindOpcode;
      var here := Fetch16(LOC_HERE);
      var exit := FindViaOpcode(OP_EXIT);
      Store16(here, exit);
      here := Wrap(here as int + 2);
      Store16(LOC_HERE, here);
      Store16(LOC_STATE, INTERPRETING);
      var a := Wrap(dictHead + DE_FLAGS);
      var f := mem[a];
      Store8(a, if f / 32 % 2 == 1 then f - 32 else f);
      next := Wrap(ip + 2);
    }

    method InstrDoes() returns (next: cell)
      requires Valid()
      requires DoesUpTo(Abs(), UNCHECKED).Next?
      modifies this, mem
      ensures Valid() && Next(Abs(), next) == DoesUpTo(old(Abs()), UNCHECKED)
    {
      hide Dataspace.Fetch16, Dataspace.Store16, AbortState, FindOpcode;
      var here := Fetch16(LOC_HERE);
      var doesRt := FindViaOpcode(OP_DOES_RT);
      Store16(here, doesRt);
      here := Wrap(here as int + 2);
      var exit := FindViaOpcode(OP_EXIT);
      Store16(here, exit);
      here := Wrap(here as int + 2);
      Store16(LOC_HERE, here);
      Store16(Wrap(dictHead + DE_DOES_CODE), here);
      next := Wrap(ip + 2);
    }

    method InstrDoesRt() returns (next: cell)
      requires Valid()
      requires CodeField(mem[..], dictHead) == OP_CREATE_ENTER
      modifies this, mem
      ensures Valid() && Next(Abs(), next) == DoesRt(old(Abs()))
    {
      SetCode(dictHead, OP_DOES_ENTER);
      Store16(Wrap(dictHead + DE_DOES_CODE), Wrap(ip + 4));
      next := Wrap(ip + 2);
    }

    method SetCode(entry: cell, op: cell)
      requires mem.Length == SIZE
      modifies mem
      ensures mem[..] == SetCodeField(old(mem[..]), entry, op)
    {
      Store16(Wrap(entry + DE_CODE_FIELD), op);
      Store16(Wrap(entry + DE_CODE_FIELD + 2), 0);
    }

    // paste_code: the text becomes the input, white space turned into blanks.
    // The original exits when the text does not fit.
    method PasteCode(code: seq<byte>) returns (ok: bool)
      requires Valid()
      modifies mem
      ensures Valid() && ok == (|code| < INPUT_BUFFER_SIZE)
      ensures mem[..] == if ok then Paste(old(mem[..]), code) else old(mem[..])
    {
      hide Dataspace.Store16;
      ok := |code| < INPUT_BUFFER_SIZE;
      if ok {
        ghost var m: Memory := mem[..];
        var n := |code|;
        var i := 0;
        BlankedNone(m, code);
        while i < n
          invariant 0 <= i <= n && mem[..] == Blit(m, LOC_INPUT_BUFFER, Blanked(code)[..i])
        {
          BlankedStep(m, code, i);
          Store8(LOC_INPUT_BUFFER + i, if IsWhite(code[i]) then BLANK else code[i]);
          i := i + 1;
        }
        assert Blanked(code)[..n] == Blanked(code);
        Store8(LOC_INPUT_BUFFER + i, 0);
        Store16(LOC_INDEX, 0);
        Store16(LOC_COUNT, n);
      }
    }

    // QUERY: the next line of the terminal becomes the input.
    method InstrQuery() returns (next: cell)
      requires Valid() && Query(Abs()).Next?
      modifies this, mem
      ensures Valid() && Next(Abs(), next) == Query(old(Abs()))
    {
      hide Paste;
      var n := FgetsLength(input, LINE_SIZE);
      var text := CString(input[..n]);
      input := input[n..];
      var _ := PasteCode(text);
      next := Wrap(ip + 2);
    }

    // `(`: the input goes on behind the next right parenthesis.
    method InstrParen() returns (next: cell)
      requires Valid() && Paren(Abs()).Next?
      modifies this, mem
      ensures Valid() && Next(Abs(), next) == Paren(old(Abs()))
    {
      hide Dataspace.Fetch16, Dataspace.Store16, AbortState;
      ghost var m: Memory := mem[..];
      var i := Fetch16(LOC_INDEX);
      var n := Fetch16(LOC_COUNT);
      if i == n {
        next := InstrAbort();
      } else {
        ghost var start := i;
        var c := mem[Wrap(LOC_INPUT_BUFFER as int + i)];
        ghost var first := c;
        while c != RIGHT_PAREN && i < n
          invariant start <= i <= n && SkipComment(m, i, n, c) == SkipComment(m, start, n, first)
          decreases n - i
        {
          c := mem[Wrap(LOC_INPUT_BUFFER as int + i)];
          i := i + 1;
        }
        if c != RIGHT_PAREN {
          next := InstrAbort();
        } else {
          Store16(LOC_INDEX, i);
          next := Wrap(ip + 2);
        }
      }
    }

    method Convert(addr: cell) returns (n: Conversion)
      requires mem.Length == SIZE
      ensures n == ReadNumber(mem[..], addr)
    {
      hide Dataspace.Fetch16, ReadText;
      var u := mem[addr];
      var base := Fetch16(LOC_BASE);
      n := ConvertText(mem, Wrap(addr as int + 1), u, base);
    }

    method InstrPNumber() returns (next: cell)
      requires Valid()
      modifies this, mem
      ensures Valid() && Next(Abs(), next) == PNumber(old(Abs()))
    {
      hide Dataspace.Fetch16, Dataspace.Store16, AbortState, ReadNumber;
      if Empty(data) {
        next := InstrAbort();
      } else {
        var addr, s := Pop(data);
        var n := Convert(addr);
        data := Push(s, if n.Converted? then n.value else addr);
        if Full(data) {
          next := InstrAbort();
        } else {
          data := Push(data, if n.Converted? then 1 else 0);
          next := Wrap(ip + 2);
        }
      }
    }

    method InstrDot() returns (next: cell)
      requires Valid() && Dot(Abs()).Next?
      modifies this`data
      ensures Valid() && Next(Abs(), next) == Dot(old(Abs()))
    {
      hide Dataspace.Fetch16;
      var _, s := Pop(data);
      data := s;
      next := Wrap(ip + 2);
    }

    method InstrAllot() returns (next: cell)
      requires Valid()
      modifies this, mem
      ensures Valid() && Next(Abs(), next) == Allot(old(Abs()))
    {
      hide Dataspace.Fetch16, Dataspace.Store16, AbortState;
      if Empty(data) {
        next := InstrAbort();
      } else {
        var n, s := Pop(data);
        data := s;
        var here := Fetch16(LOC_HERE);
        Store16(LOC_HERE, Wrap(here as int + n));
        next := Wrap(ip + 2);
      }
    }

    method InstrStore() returns (next: cell)
      requires Valid()
      modifies this, mem
      ensures Valid() && Next(Abs(), next) == StoreCell(old(Abs()))
    {
      hide Dataspace.Fetch16, Dataspace.Store16, AbortState;
      if Empty(data) {
        next := InstrAbort();
      } else {
        var a, s := Pop(data);
        data := s;
        if Empty(data) {
          next := InstrAbort();
        } else {
          var n, t := Pop(data);
          data := t;
          Store16(a, n);
          next := Wrap(ip + 2);
        }
      }
    }

    method InstrBye() returns (next: cell)
      requires Valid()
      modifies this`run
      ensures Valid() && Next(Abs(), next) == Bye(old(Abs()))
    {
      run := false;
      next := Wrap(ip + 2);
    }

    // DECOMPILE's loop: the addresses it shows.
    method Sweep(start: cell, ghost fuel: nat) returns (shown: seq<cell>)
      requires mem.Length == SIZE && SweepEnds(mem[..], start, fuel)
      ensures shown == Swept(mem[..], start, fuel)
    {
      hide Dataspace.Fetch16, CodeField, OpcodeAt, Width, Wrap, SweepEnds, Swept;
      ghost var m: Memory := mem[..];
      ghost var left := fuel;
      var ip: cell := start;
      shown := [];
      var more := true;
      while more
        invariant more ==> SweepEnds(m, ip, left) && shown + Swept(m, ip, left) == Swept(m, start, fuel)
        invariant !more ==> shown == Swept(m, start, fuel)
        decreases more, left
      {
        var word := Fetch16(ip);
        var opcode := GetCodeField(word);
        assert opcode == OpcodeAt(m, ip) by { OpcodeThere(m, ip); }
        SweepTurn(m, ip, left);
        assert shown + ([ip] + Swept(m, Wrap(ip + Width(opcode)), if left > 0 then left - 1 else 0)) ==
               shown + [ip] + Swept(m, Wrap(ip + Width(opcode)), if left > 0 then left - 1 else 0);
        assert shown + ([ip] + []) == shown + [ip];
        shown := shown + [ip];
        if GoesOn(opcode) {
          ip := Wrap(ip as int + Width(opcode));
          left := left - 1;
        } else {
          more := false;
        }
      }
    }

    method InstrDecompile() returns (next: cell, shown: seq<cell>)
      requires Valid() && Decompile(Abs()).Next?
      modifies this, mem
      ensures Valid() && Next(Abs(), next) == Decompile(old(Abs()))
      ensures old(!Empty(data)) ==>
                var a := old(SweepStart(mem[..], TopData(Abs())));
                shown == if a == 0 then [] else Swept(mem[..], a, SWEEP_LIMIT)
    {
      hide Dataspace.Fetch16, Dataspace.Store16, AbortState, SweepEnds, Swept, CodeField, ParameterField;
      shown := [];
      if Empty(data) {
        next := InstrAbort();
      } else {
        var xt, s := Pop(data);
        data := s;
        var op := GetCodeField(xt);
        var start: cell := 0;
        if op == OP_ENTER {
          start := GetParameterField(xt);
        } else if op == OP_DOES_ENTER {
          start := Fetch16(Wrap(xt as int + DE_DOES_CODE));
        }
        if start != 0 {
          shown := Sweep(start, SWEEP_LIMIT);
        }
        next := Wrap(ip + 2);
      }
    }

    // WORD's first loop: skip delimiters.
    method SkipDelimiters(i0: nat, n: nat, d: byte) returns (i: nat)
      requires mem.Length == SIZE && i0 <= n < INPUT_BUFFER_SIZE
      ensures i == SkipDelimiter(mem[..], i0, n, d)
    {
      ghost var m: Memory := mem[..];
      i := i0;
      var c := mem[LOC_INPUT_BUFFER + i];
      while c == d && i < n
        invariant i0 <= i <= n && c == InputChar(m, i)
        invariant SkipDelimiter(m, i, n, d) == SkipDelimiter(m, i0, n, d)
      {
        i := i + 1;
        c := mem[LOC_INPUT_BUFFER + i];
      }
    }

    // WORD's second loop: copy up to the next delimiter.
    method CopyToken(first: nat, n: nat, d: byte) returns (i: nat, c: byte)
      requires mem.Length == SIZE && first <= n < INPUT_BUFFER_SIZE
      requires ScanToken(mem[..], first, n, d) - first <= 127
      modifies mem
      ensures i == ScanToken(old(mem[..]), first, n, d) && c == InputChar(old(mem[..]), i)
      ensures mem[..]
              == Blit(old(mem[..]), LOC_WORD_BUFFER + 1, old(mem[..])[LOC_INPUT_BUFFER + first..LOC_INPUT_BUFFER + i])
    {
      ghost var m: Memory := mem[..];
      assert mem[..] == Blit(m, LOC_WORD_BUFFER + 1, m[LOC_INPUT_BUFFER + first..LOC_INPUT_BUFFER + first]);
      hide Blit;
      i := first;
      c := mem[LOC_INPUT_BUFFER + i];
      while c != d && i < n
        invariant first <= i <= n && i - first <= 127 && c == InputChar(m, i)
        invariant ScanToken(m, i, n, d) == ScanToken(m, first, n, d)
        invariant mem[..] == Blit(m, LOC_WORD_BUFFER + 1, m[LOC_INPUT_BUFFER + first..LOC_INPUT_BUFFER + i])
        decreases n - i
      {
        CopyStep(m, first, i);
        Store8(LOC_WORD_BUFFER + 1 + (i - first), c);
        i := i + 1;
        c := mem[LOC_INPUT_BUFFER + i];
        assert c == mem[..][LOC_INPUT_BUFFER + i..][0];
        assert c == m[LOC_INPUT_BUFFER + i..][0];
      }
    }

    // Skip delimiters, copy a token to the word buffer, count and terminate it.
    method Tokenise(d: byte)
      requires Valid() && ReadToken(mem[..], d).1
      modifies mem
      ensures (mem[..], true) == ReadToken(old(mem[..]), d)
    {
      hide Dataspace.Fetch16, Dataspace.Store16, Blit;
      var i := Fetch16(LOC_INDEX);
      var n := Fetch16(LOC_COUNT);
      if i == n {
        Store8(LOC_WORD_BUFFER, 0);
      } else {
        var first := SkipDelimiters(i, n, d);
        if first == n {
          Store8(LOC_WORD_BUFFER, 0);
          Store16(LOC_INDEX, first);
        } else {
          var last, c := CopyToken(first, n, d);
          var l := last - first;
          if last == n {
            Store8(LOC_WORD_BUFFER + l + 1, 0);
          } else {
            Store8(LOC_WORD_BUFFER + l + 1, c);
          }
          Store8(LOC_WORD_BUFFER, l);
          Store16(LOC_INDEX, last);
        }
      }
    }

    method InstrWord() returns (next: cell)
      requires Valid() && Word(Abs()).Next?
      modifies this, mem
      ensures Valid() && Next(Abs(), next) == Word(old(Abs()))
    {
      hide Dataspace.Fetch16, Dataspace.Store16, AbortState, ReadToken;
      if Empty(data) {
        next := InstrAbort();
      } else {
        var v, s := Pop(data);
        data := s;
        Tokenise(v % 0x100);
        data := Push(data, LOC_WORD_BUFFER);
        next := Wrap(ip + 2);
      }
    }

    method ComparePackedString(word: cell, entry: cell) returns (same: bool)
      requires mem.Length == SIZE
      ensures same == NameMatches(mem[..], word, entry)
    {
      var n := mem[word];
      if n != mem[Wrap(entry + DE_NAME)] || word + 1 + n as int > 0xFFFF || entry + DE_NAME + 1 + n as int > 0xFFFF {
        same := false;
      } else {
        same := SameCharacters(mem, word + 1, entry + DE_NAME + 1, n);
      }
    }

    // The search loop of FIND; 0 when no entry has the name.
    method Search(word: cell) returns (entry: cell, found: bool)
      requires mem.Length == SIZE && !FindName(mem[..], dictHead, word).Cyclic?
      ensures FindName(mem[..], dictHead, word) == if found then Found(entry) else Absent
    {
      hide Dataspace.Fetch16, NameMatches;
      ghost var m: Memory := mem[..];
      var h: cell := dictHead;
      entry := h;
      found := ComparePackedString(word, h);
      h := Fetch16(h);
      while h != 0 && !found
        invariant FindName(m, dictHead, word) ==
                  if found then Found(entry)
                  else if h == 0 then Absent
                  else if h < entry then FindName(m, h, word) else Cyclic
        decreases entry
      {
        entry := h;
        found := ComparePackedString(word, h);
        h := Fetch16(h);
      }
    }

    method InstrFind() returns (next: cell)
      requires Valid() && Find(Abs()).Next?
      modifies this, mem
      ensures Valid() && Next(Abs(), next) == Find(old(Abs()))
    {
      hide Dataspace.Fetch16, Dataspace.Store16, AbortState, ReadToken, FindWord;
      if Full(data) {
        next := InstrAbort();
      } else {
        data := Push(data, 32);
        var _ := InstrWord();
        var word, s := Pop(data);
        data := s;
        next := PushFound();
      }
    }

    method PushFound() returns (next: cell)
      requires Valid() && !Full(data) && FindWord(Abs()).Next?
      modifies this`data, mem
      ensures Valid() && Next(Abs(), next) == FindWord(old(Abs()))
    {
      hide Dataspace.Fetch16, Dataspace.Store16, FindName;
      if mem[LOC_WORD_BUFFER] == 0 {
        data := Push(data, 0);
      } else {
        var entry, found := Search(LOC_WORD_BUFFER);
        data := Push(data, if found then entry else 0);
      }
      next := Wrap(ip + 2);
    }

    // add_dict_entry for a counted name in the word buffer, with the header
    // fields its callers set.
    method AddDictEntry(flags: byte, op: byte, does: cell) returns (here: cell)
      requires Valid() && Dataspace.Fetch8(mem[..], LOC_WORD_BUFFER) < 0x80
      requires AddEntryUpTo(Abs(), WordBuffer(mem[..]), flags, op, does, SIZE).Next?
      modifies this, mem
      ensures Valid() && ip == old(ip)
      ensures Next(Abs(), Wrap(ip + 2)) == old(AddEntryUpTo(Abs(), WordBuffer(mem[..]), flags, op, does, SIZE))
    {
      hide Dataspace.Fetch16, Dataspace.Store16, Blit, HeaderBytes, Align;
      ghost var m: Memory := mem[..];
      ghost var name := WordBuffer(m);
      ghost var header := HeaderBytes(dictHead, flags, op, does, name);
      here := Fetch16(LOC_HERE);
      var n := mem[LOC_WORD_BUFFER];
      HeaderPart(m, here, dictHead, flags, op, does, name);
      WriteHeader(here, flags, op, does, n);
      assert mem[LOC_WORD_BUFFER] == n by { BeforeHeader(m, here, header[..11], LOC_WORD_BUFFER); }
      CopyName(here, m, header);
      assert header[..11 + n as int] == header;
      Store16(LOC_HERE, Align(here + DE_SIZE_MIN + n));
      dictHead := here;
    }

    // copy_packed_string from the word buffer.
    method CopyName(here: cell, ghost m: Memory, ghost header: seq<byte>)
      requires mem.Length == SIZE && SYSTEM_END <= here && |header| >= 11 && here + |header| <= SIZE
      requires mem[..] == Blit(m, here, header[..11]) && mem[LOC_WORD_BUFFER] < 0x80
      requires |header| == 11 + mem[LOC_WORD_BUFFER] as int
      requires header[11..] == m[LOC_WORD_BUFFER + 1..LOC_WORD_BUFFER + 1 + |header| - 11]
      modifies mem
      ensures mem[..] == Blit(m, here, header)
    {
      var n := mem[LOC_WORD_BUFFER] as int;
      hide Blit;
      var i := 0;
      while i < n
        invariant 0 <= i <= n
        invariant mem[..] == Blit(m, here, header[..11 + i])
      {
        var c := mem[LOC_WORD_BUFFER + 1 + i];
        assert c == header[11..][i] by { BeforeHeader(m, here, header[..11 + i], LOC_WORD_BUFFER + 1 + i); }
        BlitStep(m, here, header, 11 + i);
        Store8(here + DE_NAME + 1 + i, c);
        i := i + 1;
      }
      assert header[..11 + n] == header;
    }

    method WriteHeader(here: cell, flags: byte, op: byte, does: cell, n: byte)
      requires Valid() && here + DE_SIZE_MIN <= SIZE
      modifies mem
      ensures mem[..] == Blit(old(mem[..]), here,
                              [LowByte(dictHead), HighByte(dictHead), flags, 0, op, 0, 0, 0, LowByte(does),
                                HighByte(does), n])
    {
      var header: seq<byte> :=
        [LowByte(dictHead), HighByte(dictHead), flags, 0, op, 0, 0, 0, LowByte(does), HighByte(does), n];
      forall i | 0 <= i < 11 {
        mem[here + i] := header[i];
      }
    }

    method InstrColon() returns (next: cell)
      requires Valid() && ColonUpTo(Abs(), SIZE).Next?
      modifies this, mem
      ensures Valid() && Next(Abs(), next) == ColonUpTo(old(Abs()), SIZE)
    {
      hide Dataspace.Fetch16, Dataspace.Store16, AbortState, ReadToken, AddEntryUpTo;
      if Full(data) {
        next := InstrAbort();
      } else {
        data := Push(data, 32);
        var _ := InstrWord();
        var _, s := Pop(data);
        data := s;
        if mem[LOC_WORD_BUFFER] > 0 {
          var _ := AddDictEntry(EF_MACHINE_CODE + EF_DIRTY, OP_ENTER, 0);
          Store16(LOC_STATE, COMPILING);
          next := Wrap(ip + 2);
        } else {
          next := InstrAbort();
        }
      }
    }

    method InstrCreate(word: cell) returns (next: cell)
      requires Valid() && CreateUpTo(Abs(), word, SIZE).Next?
      modifies this, mem
      ensures Valid() && Next(Abs(), next) == CreateUpTo(old(Abs()), word, SIZE)
    {
      hide Dataspace.Fetch16, Dataspace.Store16, AbortState, ReadToken, AddEntryUpTo;
      if Full(data) {
        next := InstrAbort();
      } else {
        data := Push(data, 32);
        var _ := InstrWord();
        if mem[LOC_WORD_BUFFER] > 0 {
          var does := Fetch16(Wrap(word + DE_DOES_CODE));
          var _ := InstrDrop();
          var _ := AddDictEntry(EF_MACHINE_CODE, OP_CREATE_ENTER, does);
          next := Wrap(ip + 2);
        } else {
          next := InstrAbort();
        }
      }
    }

    method DispatchStack(op: nat) returns (next: cell)
      requires Valid() && StackWord(Abs(), op).Next?
      modifies this, mem
      ensures Valid() && Next(Abs(), next) == StackWord(old(Abs()), op)
    {
      hide Dataspace.Fetch16, Dataspace.Store16, AbortState, StacksOk;
      if op == OP_DROP || op == OP_EMIT {
        next := InstrDrop();
      } else if op == OP_DUP {
        next := InstrDup();
      } else if op == OP_EQUAL {
        next := InstrEqual();
      } else if op == OP_ADD {
        next := InstrAdd();
      } else if op == OP_STATE {
        next := HelperGetVariable(LOC_STATE);
      } else if op == OP_WORDBUFFER {
        next := HelperGetVariable(LOC_WORD_BUFFER);
      } else if op == OP_BASE {
        next := HelperGetVariable(LOC_BASE);
      } else if op == OP_AT {
        next := InstrAt();
      } else if op == OP_C_AT {
        next := InstrCAt();
      } else if op == OP_QIMMEDIATE {
        next := InstrQImmediate();
      } else {
        next := Wrap(ip + 2);
      }
    }

    method DispatchFlow(op: nat, word: cell) returns (next: cell)
      requires Valid() && FlowWord(Abs(), op, word).Next?
      modifies this, mem
      ensures Valid() && Next(Abs(), next) == FlowWord(old(Abs()), op, word)
    {
      hide Dataspace.Fetch16, Dataspace.Store16, AbortState, StacksOk;
      if op == OP_ENTER {
        next := InstrEnter(word);
      } else if op == OP_EXIT {
        next := InstrExit();
      } else if op == OP_JUMP {
        next := InstrJump();
      } else if op == OP_JUMP_IF {
        next := InstrJumpIfFalse();
      } else if op == OP_PUSH {
        next := InstrPush();
      } else if op == OP_CREATE_ENTER {
        next := InstrCreateEnter(word);
      } else if op == OP_DOES_ENTER {
        next := InstrDoesEnter(word);
      } else {
        next := InstrAbort();
      }
    }

    method DispatchCompiler(op: nat) returns (next: cell)
      requires Valid() && CompilerWord(Abs(), op).Next?
      modifies this, mem
      ensures Valid() && Next(Abs(), next) == CompilerWord(old(Abs()), op)
    {
      hide Dataspace.Fetch16, Dataspace.Store16, AbortState, StacksOk;
      if op == OP_COMMA {
        next := InstrComma();
      } else if op == OP_LITERAL || op == OP_PLITERAL {
        next := InstrLiteral();
      } else if op == OP_BEGIN {
        next := InstrBegin();
      } else if op == OP_AGAIN {
        next := InstrAgain();
      } else if op == OP_IF {
        next := InstrIf();
      } else if op == OP_ELSE {
        next := InstrElse();
      } else if op == OP_THEN {
        next := InstrThen();
      } else if op == OP_SEMICOLON {
        next := InstrSemicolon();
      } else if op == OP_IMMEDIATE {
        next := InstrImmediate();
      } else if op == OP_DOES {
        next := InstrDoes();
      } else {
        next := InstrDoesRt();
      }
    }

    method DispatchInput(op: nat, word: cell) returns (next: cell)
      requires Valid() && InputWord(Abs(), op, word).Next?
      modifies this, mem
      ensures Valid() && Next(Abs(), next) == InputWord(old(Abs()), op, word)
    {
      hide Dataspace.Fetch16, Dataspace.Store16, AbortState, StacksOk;
      if op == OP_WORD {
        next := InstrWord();
      } else if op == OP_FIND {
        next := InstrFind();
      } else if op == OP_COLON {
        next := InstrColon();
      } else {
        next := InstrCreate(word);
      }
    }

    method DispatchSystem(op: nat) returns (next: cell)
      requires Valid() && IsSystemOp(op) && SystemWord(Abs(), op).Next?
      modifies this, mem
      ensures Valid() && Next(Abs(), next) == SystemWord(old(Abs()), op)
    {
      hide Dataspace.Fetch16, Dataspace.Store16, AbortState, StacksOk;
      if op == OP_DOT {
        next := InstrDot();
      } else if op == OP_ALLOT {
        next := InstrAllot();
      } else if op == OP_STORE {
        next := InstrStore();
      } else if op == OP_QUERY {
        next := InstrQuery();
      } else if op == OP_PAREN {
        next := InstrParen();
      } else if op == OP_BNUMBER {
        next := InstrPNumber();
      } else if op == OP_BYE {
        next := InstrBye();
      } else {
        var shown;
        next, shown := InstrDecompile();
      }
    }

    // instruction_table[opcode](ctx, word).
    method Dispatch(word: cell) returns (next: cell)
      requires Valid() && Perform(Abs(), word).Next?
      modifies this, mem
      ensures Valid() && Next(Abs(), next) == Perform(old(Abs()), word)
      decreases data.where, 1
    {
      hide Dataspace.Fetch16, Dataspace.Store16, AbortState, StackWord, FlowWord, CompilerWord, InputWord, SystemWord;
      var op := GetCodeField(word);
      if op == OP_EXECUTE {
        next := InstrExecute();
      } else if IsFlowOp(op) {
        next := DispatchFlow(op, word);
      } else if IsCompilerOp(op) {
        next := DispatchCompiler(op);
      } else if IsInputOp(op) {
        next := DispatchInput(op, word);
      } else if IsSystemOp(op) {
        next := DispatchSystem(op);
      } else {
        next := DispatchStack(op);
      }
    }

    method InstrExecute() returns (next: cell)
      requires Valid() && Execute(Abs()).Next?
      modifies this, mem
      ensures Valid() && Next(Abs(), next) == Execute(old(Abs()))
      decreases data.where, 0
    {
      hide Dataspace.Fetch16, Dataspace.Store16, AbortState, Simple;
      if Empty(data) {
        next := InstrAbort();
      } else {
        var word, s := Pop(data);
        data := s;
        var op := GetCodeField(word);
        next := Dispatch(word);
        if next != recover && op != OP_ENTER && op != OP_DOES_ENTER {
          next := Wrap(ip + 2);
        }
      }
    }

    // One turn of the inner interpreter's loop.
    method InnerStep()
      requires Valid() && run && Step(Abs()).Next?
      modifies this, mem
      ensures Valid() && Next(Abs(), ip) == Step(old(Abs()))
    {
      hide Dataspace.Fetch16, Dataspace.Store16, AbortState, Perform;
      var word := Fetch16(ip);
      ip := Dispatch(word);
    }

    // The inner interpreter: turns until BYE, at most so many.
    method InnerInterpreter(turns: nat)
      requires Valid() && Run(Abs(), turns).Next?
      modifies this, mem
      ensures Valid() && Next(Abs(), ip) == Run(old(Abs()), turns)
    {
      hide Step;
      var i := 0;
      while i < turns && run
        invariant 0 <= i <= turns && Valid()
        invariant Run(Abs(), turns - i) == Run(old(Abs()), turns)
      {
        InnerStep();
        i := i + 1;
      }
      if !run {
        Idle(Abs(), turns - i);
      }
    }

    // mini_interpret: one turn of its loop.
    method MiniTurn() returns (more: bool)
      requires Valid() && !ForthMini.MiniTurn(Abs()).Halted?
      modifies this, mem
      ensures Valid() && ForthMini.MiniTurn(old(Abs())) == if more then More(Abs()) else Done(Abs())
    {
      hide Dataspace.Fetch16, Dataspace.Store16, AbortState, Find, MiniNumber, MiniEntry;
      var state := Fetch16(LOC_STATE);
      FindPushes(Abs());
      var _ := InstrFind();
      var word, s := Pop(data);
      data := s;
      more := word != 0 || mem[LOC_WORD_BUFFER] != 0;
      if more {
        if word == 0 {
          CompileNumber(state == COMPILING);
        } else {
          HandleEntry(word, state == COMPILING);
        }
      }
    }

    method CompileNumber(compiling: bool)
      requires Valid() && !Full(data) && MiniNumber(Abs(), compiling).More?
      modifies this, mem
      ensures Valid() && More(Abs()) == MiniNumber(old(Abs()), compiling)
    {
      hide Dataspace.Fetch16, Dataspace.Store16, AbortState, PNumber, Drop, Literal;
      data := Push(data, LOC_WORD_BUFFER);
      var _ := InstrPNumber();
      var _ := InstrDrop();
      RoomAgrees(Abs());
      var _ := InstrLiteral();
    }

    method HandleEntry(word: cell, compiling: bool)
      requires Valid() && !Full(data) && MiniEntry(Abs(), word, compiling).More?
      modifies this, mem
      ensures Valid() && More(Abs()) == MiniEntry(old(Abs()), word, compiling)
    {
      hide Dataspace.Fetch16, Dataspace.Store16, AbortState, Execute, Comma;
      data := Push(data, word);
      if compiling && mem[Wrap(word + DE_FLAGS)] / 2 % 2 == 0 {
        RoomAgrees(Abs());
        var _ := InstrComma();
      } else {
        var _ := InstrExecute();
      }
    }

    // The loop, n turns at most; it says whether there may be more.
    method MiniInterpret(n: nat) returns (more: bool)
      requires Valid() && !MiniRun(Abs(), n).Halted?
      modifies this, mem
      ensures Valid() && MiniRun(old(Abs()), n) == if more then More(Abs()) else Done(Abs())
    {
      hide ForthMini.MiniTurn;
      more := true;
      var i := 0;
      while more && i < n
        invariant 0 <= i <= n && Valid() && (!more ==> i > 0)
        invariant more ==> MiniRun(Abs(), n - i) == MiniRun(old(Abs()), n)
        invariant !more ==> MiniRun(old(Abs()), n) == Done(Abs())
      {
        more := MiniTurn();
        i := i + 1;
      }
    }
  }
}
