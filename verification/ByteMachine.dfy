// The first system as the program keeps it: one context over the dataspace,
// updated in place by the byte codes and by the compiling words.
module ByteMachine {
  import opened Dataspace
  import opened Letters
  import opened Numerals
  import opened ByteState
  import opened ByteWords
  import opened ByteAnswers
  import opened ByteDefine
  import opened ByteBootstrap

  lemma CopyStep(m: Memory, e: cell, name: seq<byte>, i: nat)
    requires i < |name| && e + |name| <= SIZE
    ensures Store8(Blit(m, e, name[..i]), e + i, name[i]) == Blit(m, e, name[..i + 1])
  {
    assert name[..i + 1] == name[..i] + [name[i]];
  }

  lemma CopyNothing(m: Memory, e: cell, name: seq<byte>)
    ensures Blit(m, e, name[..0]) == m
  {
    assert name[..0] == [];
  }

  lemma ImmediateFlag(m: Memory, e: cell)
    ensures IsImmediate(m, e) <==> Fetch16(m, Wrap(e + H_FLAGS)) / 4 % 2 == 1
  {
  }

  class ByteForth {
    const mem: array<byte>
    var ip: cell
    var dictHead: cell
    var dictNew: cell
    var control: cell
    var data: cell
    var ret: cell
    var input: seq<byte>

    ghost function Abs(): State
      requires mem.Length == SIZE
      reads this, mem
    {
      State(mem[..], ip, dictHead, dictNew, control, data, ret, input)
    }

    ghost predicate Valid()
      reads this, mem
    {
      mem.Length == SIZE && StacksOk(Abs())
    }

    // fs_reset.
    constructor (m: array<byte>, text: seq<byte>)
      requires m.Length == SIZE
      modifies m
      ensures Valid() && mem == m && Ready(Abs(), []) && input == text
      ensures dictHead == 0 && Where(mem[..]) == DICTIONARY_START
      ensures data == DATA_BOTTOM && control == CONTROL_BOTTOM && ret == RETURN_BOTTOM && ip == 0
    {
      mem := m;
      ip, dictHead, dictNew := 0, 0, 0;
      control, data, ret := CONTROL_BOTTOM, DATA_BOTTOM, RETURN_BOTTOM;
      input := text;
      new;
      mem[0] := 0;
      mem[LOC_INPUT_BUFFER] := 0;
      SetCell(LOC_INPUT_BUFFER_INDEX, 0);
      ghost var earlier: Memory := mem[..];
      SetCell(LOC_INPUT_BUFFER_COUNT, 0);
      ghost var before: Memory := mem[..];
      SetCell(LOC_WHERE, DICTIONARY_START);
      FetchStored(earlier, LOC_INPUT_BUFFER_COUNT, 0);
      FetchElsewhere(before, LOC_WHERE, DICTIONARY_START, LOC_INPUT_BUFFER_COUNT);
      FetchStored(before, LOC_WHERE, DICTIONARY_START);
      ResetReady(Abs());
    }

    method SetCell(a: cell, v: cell)
      requires mem.Length == SIZE
      modifies mem
      ensures mem[..] == Store16(old(mem[..]), a, v)
    {
      mem[a] := v % 0x100;
      mem[Succ(a)] := v / 0x100;
    }

    method SetByte(a: cell, v: byte)
      requires mem.Length == SIZE
      modifies mem
      ensures mem[..] == Store8(old(mem[..]), a, v)
    {
      mem[a] := v;
    }

    method GetCell(a: cell) returns (v: cell)
      requires mem.Length == SIZE
      ensures v == Fetch16(mem[..], a)
    {
      v := mem[a] as int + 0x100 * mem[Succ(a)] as int;
    }

    method Push(v: cell)
      requires Valid() && PushData(Abs(), v).Next?
      modifies this`data, mem
      ensures Valid() && Next(Abs()) == PushData(old(Abs()), v)
    {
      SetCell(data, v);
      data := data + 2;
    }

    method Pop() returns (v: cell)
      requires Valid() && PopData(Abs()).Popped?
      modifies this`data
      ensures Valid() && Popped(Abs(), v) == PopData(old(Abs()))
    {
      data := data - 2;
      v := GetCell(data);
    }

    // A byte code at HERE, alone or with an operand.

    method LayOne(op: byte)
      requires Valid()
      modifies mem
      ensures Valid() && Abs() == LayByte(old(Abs()), op)
    {
      hide Fetch16, Store16;
      var here := GetCell(LOC_WHERE);
      SetByte(here, op);
      SetCell(LOC_WHERE, Wrap(here as int + 1));
    }

    method LayThree(op: byte, v: cell)
      requires Valid()
      modifies mem
      ensures Valid() && Abs() == LayCell(old(Abs()), op, v)
    {
      hide Fetch16, Store16;
      var here := GetCell(LOC_WHERE);
      SetByte(here, op);
      SetCell(Wrap(here as int + 1), v);
      SetCell(LOC_WHERE, Wrap(here as int + 3));
    }

    method InstrCompile()
      requires Valid() && Compile(Abs()).Next?
      modifies this`data, mem
      ensures Valid() && Next(Abs()) == Compile(old(Abs()))
    {
      hide Fetch16, Store16, LayByte, LayCell;
      var xt := Pop();
      var flags := GetCell(Wrap(xt + H_FLAGS));
      if flags % 2 == 1 {
        LayOne(mem[Wrap(xt + H_SEMANTICS)]);
      } else {
        LayThree(ENTER, Wrap(xt + H_SIZE + 1 + mem[Wrap(xt + H_LENGTH)] as int));
      }
    }

    method InstrLiteral()
      requires Valid() && Literal(Abs()).Next?
      modifies this`data, mem
      ensures Valid() && Next(Abs()) == Literal(old(Abs()))
    {
      hide Fetch16, Store16, LayCell;
      var u := Pop();
      LayThree(LDN, u);
    }

    method LayJump(here: cell, op: byte)
      requires Valid() && OpenJump(Abs(), here, op).Next?
      modifies this`control, mem
      ensures Valid() && Next(Abs()) == OpenJump(old(Abs()), here, op)
    {
      hide Fetch16, Store16;
      SetByte(here, op);
      SetCell(Wrap(here as int + 1), 0xDEAD);
      SetCell(control, Wrap(here as int + 1));
      control := control + 2;
      SetCell(LOC_WHERE, Wrap(here as int + 3));
    }

    method InstrIf()
      requires Valid() && If(Abs()).Next?
      modifies this`control, mem
      ensures Valid() && Next(Abs()) == If(old(Abs()))
    {
      var here := GetCell(LOC_WHERE);
      LayJump(here, JMP_FALSE);
    }

    method InstrElse()
      requires Valid() && Else(Abs()).Next?
      modifies this`control, mem
      ensures Valid() && Next(Abs()) == Else(old(Abs()))
    {
      hide Fetch16, Store16, OpenJump;
      control := control - 2;
      var location := GetCell(control);
      var here := GetCell(LOC_WHERE);
      SetCell(location, Wrap(here as int + 3));
      LayJump(here, JMP);
    }

    method InstrThen()
      requires Valid() && Then(Abs()).Next?
      modifies this`control, mem
      ensures Valid() && Next(Abs()) == Then(old(Abs()))
    {
      hide Fetch16, Store16;
      control := control - 2;
      var location := GetCell(control);
      var here := GetCell(LOC_WHERE);
      SetCell(location, here);
      SetByte(here, NOP);
      SetCell(LOC_WHERE, Wrap(here as int + 1));
    }

    method InstrBegin()
      requires Valid() && Begin(Abs()).Next?
      modifies this`control, mem
      ensures Valid() && Next(Abs()) == Begin(old(Abs()))
    {
      hide Fetch16, Store16;
      var here := GetCell(LOC_WHERE);
      SetCell(control, here);
      control := control + 2;
      SetByte(here, NOP);
      SetCell(LOC_WHERE, Wrap(here as int + 1));
    }

    method InstrAgain()
      requires Valid() && Again(Abs()).Next?
      modifies this`control, mem
      ensures Valid() && Next(Abs()) == Again(old(Abs()))
    {
      hide Fetch16, Store16, LayCell;
      control := control - 2;
      var location := GetCell(control);
      LayThree(JMP, location);
    }

    method InstrSemicolon()
      requires Valid()
      modifies this`dictHead, this`dictNew, mem
      ensures Valid() && Next(Abs()) == Semicolon(old(Abs()))
    {
      hide Fetch16, Store16;
      SetCell(dictNew, dictHead);
      dictHead := dictNew;
      dictNew := 0;
      var here := GetCell(LOC_WHERE);
      SetByte(here, LEAVE);
      var next := Wrap(here as int + 1);
      SetCell(LOC_WHERE, Wrap(next as int + next % 2));
      SetCell(LOC_STATE, 0);
    }

    method InstrStore()
      requires Valid() && Store(Abs()).Next?
      modifies this`data, mem
      ensures Valid() && Next(Abs()) == Store(old(Abs()))
    {
      hide Fetch16, Store16;
      var v := Pop();
      var a := Pop();
      SetCell(a, v);
    }

    method InstrAllot()
      requires Valid() && Allot(Abs()).Next?
      modifies this`data, mem
      ensures Valid() && Next(Abs()) == Allot(old(Abs()))
    {
      hide Fetch16, Store16;
      var n := Pop();
      var here := GetCell(LOC_WHERE);
      SetCell(LOC_WHERE, Wrap(n as int + here));
    }

    // One of the two loops of PARSE-NAME.
    method Skip(start: nat, n: nat, space: bool) returns (i: nat)
      requires mem.Length == SIZE && start <= n <= INPUT_BUFFER_SIZE
      ensures i == SkipWhile(mem[..], start, n, space)
    {
      hide IsWhite;
      ghost var m: Memory := mem[..];
      i := start;
      while i < n && IsWhite(mem[LOC_INPUT_BUFFER + i]) == space
        invariant start <= i <= n && SkipWhile(m, i, n, space) == SkipWhile(m, start, n, space)
      {
        i := i + 1;
      }
    }

    // The loop of memcpy and strcpy, inside the array.
    method Copy(text: seq<byte>, to: cell)
      requires mem.Length == SIZE && to + |text| <= SIZE
      modifies mem
      ensures mem[..] == Blit(old(mem[..]), to, text)
    {
      hide Blit;
      ghost var m: Memory := mem[..];
      var i := 0;
      CopyNothing(m, to, text);
      while i < |text|
        invariant 0 <= i <= |text| && mem[..] == Blit(m, to, text[..i])
      {
        CopyStep(m, to, text, i);
        mem[to + i] := text[i];
        i := i + 1;
      }
      assert text[..|text|] == text;
    }

    // PARSE-NAME: where the name is and how long.
    method FindName() returns (c: cell, u: cell)
      requires Valid() && ParseName(mem[..]).Name?
      modifies mem
      ensures var p := ParseName(old(mem[..])); mem[..] == p.mem && c == p.at && u == |p.text|
      ensures Valid() && Abs() == old(Abs()).(mem := mem[..])
      ensures u > 0 ==> c + u <= SIZE && old(mem[..])[c..c + u] == ParseName(old(mem[..])).text
    {
      hide Fetch16, Store16, SkipWhile;
      var index := GetCell(LOC_INPUT_BUFFER_INDEX);
      var n := GetCell(LOC_INPUT_BUFFER_COUNT);
      if index > n {
        SetCell(LOC_INPUT_BUFFER_INDEX, index);
        c := Wrap(LOC_INPUT_BUFFER + index);
        u := 0;
      } else {
        var a := Skip(index, n, true);
        var b := Skip(a, n, false);
        SetCell(LOC_INPUT_BUFFER_INDEX, b);
        c := LOC_INPUT_BUFFER + a;
        u := b - a;
      }
    }

    method InstrParseName()
      requires Valid() && ParseWord(Abs()).Next?
      modifies this`data, mem
      ensures Valid() && Next(Abs()) == ParseWord(old(Abs()))
    {
      hide Fetch16, Store16, ParseName, PushMany;
      var c, u := FindName();
      PutMany([c, u]);
    }

    // set_code.
    method PutCode(text: seq<byte>)
      requires mem.Length == SIZE && |text| < INPUT_BUFFER_SIZE
      modifies mem
      ensures mem[..] == SetCode(old(mem[..]), text)
    {
      hide Store16, Blit;
      Copy(text, LOC_INPUT_BUFFER);
      SetByte(LOC_INPUT_BUFFER + |text|, 0);
      SetCell(LOC_INPUT_BUFFER_COUNT, |text|);
      SetByte(LOC_INPUT_BUFFER_INDEX, 0);
    }

    method InstrAccept()
      requires Valid() && Accept(Abs()).Next?
      modifies this`input, mem
      ensures Valid() && Next(Abs()) == Accept(old(Abs()))
    {
      hide SetCode;
      var n := FgetsLength(input, LINE_SIZE);
      PutCode(CString(input[..n]));
      input := input[n..];
    }

    method InstrColon()
      requires Valid() && Colon(Abs()).Next?
      modifies this`dictNew, mem
      ensures Valid() && Next(Abs()) == Colon(old(Abs()))
    {
      hide Fetch16, Store16, Blit, ParseName, NewHeader;
      ghost var m: Memory := mem[..];
      var c, u := FindName();
      ghost var m1: Memory := mem[..];
      SetCell(data, c);
      SetCell(data + 2, u);
      var here := GetCell(LOC_WHERE);
      assert here == Where(m1) by { PushedApart(m1, data, c, u); }
      dictNew := here;
      var name := if u == 0 then [] else mem[c..c as int + u];
      assert name == ParseName(m).text by { NameApart(m, m1, mem[..], data, c, u); }
      WriteHeader(here, name);
      SetCell(LOC_WHERE, here + H_SIZE + 1 + u);
      SetCell(LOC_STATE, 0xFFFF);
    }

    method WriteHeader(here: cell, name: seq<byte>)
      requires mem.Length == SIZE && here + H_SIZE + 1 + |name| <= SIZE
      modifies mem
      ensures mem[..] == NewHeader(old(mem[..]), here, name)
    {
      hide Fetch16, Store16, Blit;
      SetCell(here, 0);
      SetCell(here + H_FLAGS, F_COLONDEF);
      SetByte(here + H_LENGTH, |name| % 0x100);
      Copy(name, here + H_NAME);
      SetByte(here + H_NAME + |name|, 0);
    }

    // The byte codes that go on at the next byte, without going on.
    method Carry(op: nat)
      requires Valid() && Onward(Abs(), op, Real).Next?
      modifies this, mem
      ensures Valid() && Next(Abs()) == Onward(old(Abs()), op, Real)
    {
      hide Compile, Literal, Colon, Accept, ParseWord, If, Else, Then, Begin, Again, Semicolon, Store, Allot, DataStep;
      hide Fetch16, Store16;
      var next := Wrap(ip + 1);
      if OnDataOnly(op) {
        DataCode(op);
      } else if op == COMPILE {
        InstrCompile();
      } else if op == LITERAL {
        InstrLiteral();
      } else if op == COLON {
        InstrColon();
      } else if op == PACCEPT {
        InstrAccept();
      } else if op == PARSE_NAME {
        InstrParseName();
      } else if op == IF {
        InstrIf();
      } else if op == ELSE {
        InstrElse();
      } else if op == THEN {
        InstrThen();
      } else if op == BEGIN {
        InstrBegin();
      } else if op == AGAIN {
        InstrAgain();
      } else if op == SEMICOLON {
        InstrSemicolon();
      } else if op == STORE {
        InstrStore();
      } else {
        InstrAllot();
      }
      ip := next;
    }

    // semantic_table[op](ctx).
    method Dispatch(op: nat)
      requires Valid() && Perform(Abs(), op, Real).Next?
      modifies this, mem
      ensures Valid() && Next(Abs()) == Perform(old(Abs()), op, Real)
      decreases data, 1
    {
      hide Fetch16, Store16, Onward, Execute;
      var operand := GetCell(Wrap(ip + 1));
      if op == LDN {
        Push(operand);
        ip := Wrap(ip + 3);
      } else if op == ENTER {
        SetCell(ret, Wrap(ip + 3));
        ret := ret + 2;
        ip := GetCell(Wrap(ip + 1));
      } else if op == LEAVE {
        ret := ret - 2;
        ip := GetCell(ret);
      } else if op == JMP {
        ip := operand;
      } else if op == JMP_FALSE {
        var v := Pop();
        ip := if v != 0 then Wrap(ip + 3) else operand;
      } else if op == EXECUTE {
        InstrExecute();
      } else {
        Carry(op);
      }
    }

    method InstrExecute()
      requires Valid() && Execute(Abs(), Real).Next?
      modifies this, mem
      ensures Valid() && Next(Abs()) == Execute(old(Abs()), Real)
      decreases data, 0
    {
      hide Fetch16, Store16, Perform;
      var next := Wrap(ip + 1);
      var xt := Pop();
      var flags := GetCell(Wrap(xt + H_FLAGS));
      if flags % 2 == 1 {
        Dispatch(mem[Wrap(xt + H_SEMANTICS)]);
        ip := next;
      } else {
        SetCell(ret, next);
        ret := ret + 2;
        ip := Wrap(xt + H_SIZE + 1 + mem[Wrap(xt + H_LENGTH)] as int);
      }
    }

    // One turn of the inner interpreter.
    method Turn()
      requires Valid() && Step(Abs(), Real).Next?
      modifies this, mem
      ensures Valid() && Next(Abs()) == Step(old(Abs()), Real)
    {
      hide Perform;
      Dispatch(mem[ip]);
    }

    // The byte codes that work on the data stack: cells come off, top first,
    // and go on again in order.
    method DataCode(op: nat)
      requires Valid() && DataStep(Abs(), op, Real).Next?
      modifies this`data, mem
      ensures Valid() && Next(Abs()) == DataStep(old(Abs()), op, Real)
    {
      hide Fetch16, Store16, Pushes, Pops;
      var st := State(mem[..], ip, dictHead, dictNew, control, data, ret, input);
      var xs := TakeMany(Pops(op));
      var vs: seq<cell>;
      if op == FIND2 || op == PNUM {
        vs := Answer(op, xs, st);
      } else {
        vs := Pushes(op, st, xs, Real);
      }
      PutMany(vs);
    }

    // What FIND2 and (NUMBER) answer.
    method Answer(op: nat, xs: seq<cell>, ghost st: State) returns (vs: seq<cell>)
      requires mem.Length == SIZE && st.mem == mem[..] && st.dictHead == dictHead
      requires (op == FIND2 || op == PNUM) && |xs| == Pops(op)
      ensures vs == Pushes(op, st, xs, Real)
    {
      hide ReadText, FindEntry, IsImmediate;
      var u, a := xs[0], xs[1];
      if op == FIND2 {
        var e := FindWord(a, u % 0x100);
        if e == 0 {
          vs := [a, 0];
        } else {
          var flags := GetCell(Wrap(e as int + H_FLAGS));
          vs := [e, if flags / 4 % 2 == 1 then 1 else 0xFFFF];
          assert vs[1] == if IsImmediate(st.mem, e) then 1 else 0xFFFF by { ImmediateFlag(st.mem, e); }
        }
      } else {
        var n := ConvertText(mem, a, u, 10);
        vs := if n.Converted? then [n.value, 1] else [a, 0];
      }
    }

    // dict_find2: the entry, or 0.
    method FindWord(a: cell, n: byte) returns (e: cell)
      requires mem.Length == SIZE
      ensures e == match FindEntry(mem[..], dictHead, a, n) case Entry(at) => at case _ => 0
    {
      hide Fetch16, NameIs;
      ghost var m: Memory := mem[..];
      var here := dictHead;
      while true
        invariant FindEntry(m, here, a, n) == FindEntry(m, dictHead, a, n)
        decreases here
      {
        var same := BearsName(here, a, n);
        if same {
          return here;
        }
        var previous := GetCell(here);
        if previous == 0 || previous >= here {
          return 0;
        }
        here := previous;
      }
    }

    method BearsName(e: cell, a: cell, n: byte) returns (same: bool)
      requires mem.Length == SIZE
      ensures same == NameIs(mem[..], e, a, n)
    {
      if mem[Wrap(e as int + H_LENGTH)] != n || e + H_NAME + n as int > 0xFFFF || a + n as int > 0xFFFF {
        same := false;
      } else {
        same := SameCharacters(mem, e + H_NAME, a, n);
      }
    }

    method TakeMany(n: nat) returns (xs: seq<cell>)
      requires Valid() && PopMany(Abs(), n).0.Next?
      modifies this`data
      ensures Valid() && (Next(Abs()), xs) == PopMany(old(Abs()), n) && mem[..] == old(mem[..])
    {
      hide Fetch16;
      ghost var st := Abs();
      xs := [];
      var i := n;
      while i > 0
        invariant 0 <= i <= n && Valid() && PopMany(Abs(), i).0.Next? && mem[..] == old(mem[..])
        invariant PopMany(st, n).0 == PopMany(Abs(), i).0 && PopMany(st, n).1 == xs + PopMany(Abs(), i).1
      {
        var v := Pop();
        xs := xs + [v];
        i := i - 1;
      }
      assert PopMany(Abs(), 0) == (Next(Abs()), []) && xs + [] == xs;
    }

    method PutMany(vs: seq<cell>)
      requires Valid() && PushMany(Abs(), vs).Next?
      modifies this`data, mem
      ensures Valid() && Next(Abs()) == PushMany(old(Abs()), vs)
    {
      hide Store16;
      ghost var st := Abs();
      var i := 0;
      assert vs[0..] == vs;
      while i < |vs|
        invariant 0 <= i <= |vs| && Valid() && PushMany(Abs(), vs[i..]) == PushMany(st, vs) && PushMany(st, vs).Next?
      {
        assert vs[i..][0] == vs[i] && vs[i..][1..] == vs[i + 1..];
        Push(vs[i]);
        i := i + 1;
      }
    }

    // inner_interpreter, for n turns.
    method InnerInterpreter(n: nat)
      requires Valid() && Run(Abs(), Real, n).Next?
      modifies this, mem
      ensures Valid() && Next(Abs()) == Run(old(Abs()), Real, n)
    {
      hide Step;
      ghost var st := Abs();
      var i := n;
      while i > 0
        invariant 0 <= i <= n && Valid() && Run(Abs(), Real, i) == Run(st, Real, n) && Run(st, Real, n).Next?
      {
        Turn();
        i := i - 1;
      }
    }
  }

  lemma PushedApart(m: Memory, d: cell, c: cell, u: cell)
    requires DATA_BOTTOM <= d < DATA_TOP - 4
    ensures Where(Store16(Store16(m, d, c), d + 2, u)) == Where(m)
  {
  }

  // The name is still in the input buffer.
  lemma NameApart(m: Memory, m1: Memory, m2: Memory, d: cell, c: cell, u: cell)
    requires DATA_BOTTOM <= d < DATA_TOP - 4 && ParseName(m).Name? && m1 == ParseName(m).mem
    requires c == ParseName(m).at && u == |ParseName(m).text| && m2 == Store16(Store16(m1, d, c), d + 2, u)
    ensures u > 0 ==> c + u <= SIZE && m2[c..c + u] == ParseName(m).text
  {
    var i := Fetch16(m, LOC_INPUT_BUFFER_INDEX);
    var n := Fetch16(m, LOC_INPUT_BUFFER_COUNT);
  }
}
