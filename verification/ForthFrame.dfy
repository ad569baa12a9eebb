// What a word writes.  Of a region of the dataspace that is kept apart, the return
// stack or the code below some address, every word leaves every byte as it was
// unless the cell it patches or the place it lays code at is inside.
module ForthFrame {
  import opened Dataspace
  import Numerals
  import opened ForthState
  import opened ForthWords

  datatype Area = Area(lo: int, hi: int)

  // The bytes from lo to hi, away from the system variables and from the data and
  // control stacks.
  type Region = g: Area | SYSTEM_END <= g.lo && (g.hi <= SPACE_TOP || CONTROL_TOP <= g.lo) witness RETURNS

  const RETURNS := Area(RETURN_BOTTOM, RETURN_TOP)

  ghost predicate RegionSame(g: Region, m: Memory, n: Memory) {
    SameOn(m, n, g.lo, g.hi)
  }

  predicate Outside(g: Region, x: int, size: nat) {
    x + size <= g.lo || g.hi <= x
  }

  // Code laid at HERE, or a header there, does not reach the region.
  predicate LaysOutside(g: Region, st: State) {
    SPACE_TOP <= g.lo || g.hi <= Here(st.mem)
  }

  predicate LaysCode(op: nat) {
    op in {OP_COMMA, OP_LITERAL, OP_PLITERAL, OP_IF, OP_ELSE, OP_AGAIN, OP_SEMICOLON, OP_DOES, OP_COLON, OP_CREATE}
  }

  predicate WritesHeader(op: nat) {
    op in {OP_SEMICOLON, OP_IMMEDIATE, OP_DOES, OP_DOES_RT}
  }

  // What a word with this opcode would write over in st is outside the region.
  predicate Spares(g: Region, st: State, op: nat)
    requires StacksOk(st)
  {
    && (LaysCode(op) ==> LaysOutside(g, st))
    && (op in {OP_THEN, OP_ELSE} && !Empty(st.control) ==> Outside(g, TopControl(st), 2))
    && (WritesHeader(op) ==> st.dictHead + DE_SIZE_MIN <= SPACE_TOP && Outside(g, st.dictHead, DE_SIZE_MIN))
    && (op == OP_STORE && !Empty(st.data) && !Empty(DropData(st).data) ==> Outside(g, TopData(st), 2))
  }

  ghost predicate SameRegion(g: Region, st: State, s: State) {
    s.ret == st.ret && RegionSame(g, st.mem, s.mem)
  }

  // A word outside the control-flow group leaves the region alone, and goes on at
  // the next cell with the return stack pointer as it was, or aborts.
  ghost predicate KeepsRegion(g: Region, st: State, o: Outcome) {
    o.Next? ==>
      && RegionSame(g, st.mem, o.st.mem)
      && ((o.st.ret == st.ret && o.ip == Wrap(st.ip + 2)) || (Empty(o.st.ret) && o.ip == st.recover))
  }

  lemma SelfRegion(g: Region, m: Memory)
    ensures RegionSame(g, m, m)
  {
  }

  lemma RegionTrans(g: Region, m: Memory, n: Memory, o: Memory)
    requires RegionSame(g, m, n) && RegionSame(g, n, o)
    ensures RegionSame(g, m, o)
  {
  }

  lemma StoreRegion(g: Region, m: Memory, n: Memory, x: cell, v: cell)
    requires Outside(g, x, 2) && RegionSame(g, m, n)
    ensures RegionSame(g, m, Store16(n, x, v))
  {
  }

  lemma ByteRegion(g: Region, m: Memory, n: Memory, x: cell, v: byte)
    requires Outside(g, x, 1) && RegionSame(g, m, n)
    ensures RegionSame(g, m, Store8(n, x, v))
  {
  }

  // The two ways a word ends.

  // s differs from st in its memory, but not in the region, and in its data and
  // control stacks.
  ghost predicate Follows(g: Region, st: State, s: State) {
    RegionSame(g, st.mem, s.mem) && s.ret == st.ret && s.ip == st.ip && s.recover == st.recover && StacksOk(s)
  }

  lemma MovesOn(g: Region, st: State, s: State)
    requires Follows(g, st, s)
    ensures KeepsRegion(g, st, Continue(s))
  {
    hide RegionSame;
  }

  lemma GivesUp(g: Region, st: State, s: State)
    requires Follows(g, st, s)
    ensures KeepsRegion(g, st, Abort(s))
  {
    hide RegionSame;
    AbortWrites(g, s);
    RegionTrans(g, st.mem, s.mem, AbortState(s).mem);
  }

  lemma AbortWrites(g: Region, x: State)
    ensures RegionSame(g, x.mem, AbortState(x).mem) && Empty(AbortState(x).ret)
  {
  }

  lemma Itself(g: Region, st: State)
    requires StacksOk(st)
    ensures Follows(g, st, st)
  {
    SelfRegion(g, st.mem);
  }

  lemma Pushes(g: Region, st: State, s: State, v: cell)
    requires Follows(g, st, s) && !Full(s.data)
    ensures Follows(g, st, PushData(s, v))
  {
    hide RegionSame, Store16;
    StoreRegion(g, st.mem, s.mem, s.data.where, v);
  }

  lemma PushesControl(g: Region, st: State, s: State, v: cell)
    requires Follows(g, st, s) && !Full(s.control)
    ensures Follows(g, st, PushControl(s, v))
  {
    hide RegionSame, Store16;
    StoreRegion(g, st.mem, s.mem, s.control.where, v);
  }

  lemma Drops(g: Region, st: State, s: State)
    requires Follows(g, st, s)
    ensures !Empty(s.data) ==> Follows(g, st, DropData(s))
    ensures !Empty(s.control) ==> Follows(g, st, DropControl(s))
  {
    hide RegionSame;
  }

  // One more cell written.
  lemma Writes(g: Region, st: State, s: State, x: cell, v: cell)
    requires Follows(g, st, s) && Outside(g, x, 2)
    ensures Follows(g, st, s.(mem := Store16(s.mem, x, v)))
  {
    hide RegionSame, Store16;
    StoreRegion(g, st.mem, s.mem, x, v);
  }

  lemma WritesByte(g: Region, st: State, s: State, x: cell, v: byte)
    requires Follows(g, st, s) && Outside(g, x, 1)
    ensures Follows(g, st, s.(mem := Store8(s.mem, x, v)))
  {
    hide RegionSame, Store8;
    ByteRegion(g, st.mem, s.mem, x, v);
  }

  // Stack words.

  lemma DropKeeps(g: Region, st: State)
    requires StacksOk(st)
    ensures KeepsRegion(g, st, Drop(st))
  {
    hide KeepsRegion, Follows, Abort, Continue;
    Itself(g, st);
    if Empty(st.data) { GivesUp(g, st, st); } else { Drops(g, st, st); MovesOn(g, st, DropData(st)); }
  }

  lemma PushKeeps(g: Region, st: State, v: cell)
    requires StacksOk(st)
    ensures KeepsRegion(g, st, PushVariable(st, v))
  {
    hide KeepsRegion, Follows, Abort, Continue, PushData;
    Itself(g, st);
    if Full(st.data) { GivesUp(g, st, st); } else { Pushes(g, st, st, v); MovesOn(g, st, PushData(st, v)); }
  }

  lemma ReplaceKeeps(g: Region, st: State, v: cell)
    requires StacksOk(st) && !Empty(st.data)
    ensures KeepsRegion(g, st, Continue(PushData(DropData(st), v)))
  {
    hide KeepsRegion, Follows, Abort, Continue, PushData;
    Itself(g, st);
    Drops(g, st, st);
    Pushes(g, st, DropData(st), v);
    MovesOn(g, st, PushData(DropData(st), v));
  }

  lemma BinaryKeeps(g: Region, st: State, f: (cell, cell) -> cell)
    requires StacksOk(st)
    ensures KeepsRegion(g, st, Binary(st, f))
  {
    hide KeepsRegion, Follows, Abort, Continue, PushData;
    Itself(g, st);
    if Empty(st.data) {
      GivesUp(g, st, st);
    } else {
      var s := DropData(st);
      Drops(g, st, st);
      if Empty(s.data) {
        GivesUp(g, st, s);
      } else {
        var v := f(TopData(st), TopData(s));
        Drops(g, st, s);
        Pushes(g, st, DropData(s), v);
        MovesOn(g, st, PushData(DropData(s), v));
      }
    }
  }

  lemma StackKeeps(g: Region, st: State, op: nat)
    requires StacksOk(st)
    ensures KeepsRegion(g, st, StackWord(st, op))
  {
    hide KeepsRegion, Drop, Binary, PushVariable, PushData, Abort, Continue, Fetch16, Fetch8, IsImmediate;
    Itself(g, st);
    GivesUp(g, st, st);
    MovesOn(g, st, st);
    if op == OP_DROP || op == OP_EMIT { DropKeeps(g, st); }
    else if op == OP_DUP { if !Empty(st.data) && !Full(st.data) { PushKeeps(g, st, TopData(st)); DupPushes(st); } }
    else if op == OP_ADD { BinaryKeeps(g, st, (a: cell, b: cell) => Wrap(a as int + b as int)); }
    else if op == OP_EQUAL { BinaryKeeps(g, st, (a: cell, b: cell) => if a == b then 1 else 0); }
    else if op == OP_STATE { PushKeeps(g, st, LOC_STATE); }
    else if op == OP_WORDBUFFER { PushKeeps(g, st, LOC_WORD_BUFFER); }
    else if op == OP_BASE { PushKeeps(g, st, LOC_BASE); }
    else if !Empty(st.data) {
      ReplaceKeeps(g, st, Fetch16(st.mem, TopData(st)));
      ReplaceKeeps(g, st, Numerals.SignExtend(Fetch8(st.mem, TopData(st))));
      ReplaceKeeps(g, st, if IsImmediate(st.mem, TopData(st)) then 1 else 0);
    }
    StopKeeps(g, st);
  }

  lemma DupPushes(st: State)
    requires StacksOk(st) && !Empty(st.data) && !Full(st.data)
    ensures Dup(st) == PushVariable(st, TopData(st))
  {
  }

  lemma StopKeeps(g: Region, st: State)
    ensures forall why :: KeepsRegion(g, st, Stop(why))
  {
  }

  // Words that read the input.

  lemma TokenKeeps(g: Region, m: Memory, d: byte)
    ensures RegionSame(g, m, ReadToken(m, d).0)
  {
  }

  lemma TokenFollows(g: Region, st: State, s: State, d: byte)
    requires Follows(g, st, s)
    ensures Follows(g, st, s.(mem := ReadToken(s.mem, d).0))
  {
    hide RegionSame, ReadToken;
    TokenKeeps(g, s.mem, d);
    RegionTrans(g, st.mem, s.mem, ReadToken(s.mem, d).0);
  }

  // The state WORD leaves, if it does not stop or abort.
  lemma WordFollows(g: Region, st: State, s: State)
    requires Follows(g, st, s) && !Empty(s.data)
    ensures Word(s).Next? ==> Follows(g, st, Word(s).st) && !Empty(Word(s).st.data) && Word(s) == Continue(Word(s).st)
  {
    hide RegionSame, ReadToken, Store16, Fetch16;
    var d := TopData(s) % 0x100;
    Drops(g, st, s);
    TokenFollows(g, st, DropData(s), d);
    Pushes(g, st, DropData(s).(mem := ReadToken(s.mem, d).0), LOC_WORD_BUFFER);
  }

  lemma WordKeeps(g: Region, st: State)
    requires StacksOk(st)
    ensures KeepsRegion(g, st, Word(st))
  {
    hide KeepsRegion, Follows, Abort, ReadToken, PushData;
    Itself(g, st);
    StopKeeps(g, st);
    if Empty(st.data) {
      GivesUp(g, st, st);
    } else {
      WordFollows(g, st, st);
      if Word(st).Next? { MovesOn(g, st, Word(st).st); }
    }
  }

  lemma TokenHere(m: Memory, x: cell, v: cell, d: byte)
    requires LOC_HERE + 2 <= x
    ensures Here(ReadToken(Store16(m, x, v), d).0) == Here(m)
  {
  }

  // After the blank has been pushed, WORD has run and its result is dropped.
  lemma NameFollows(g: Region, st: State)
    requires StacksOk(st) && !Full(st.data)
    ensures var o := Word(PushData(st, 32));
            o.Next? ==> StacksOk(o.st) && !Empty(o.st.data) && Follows(g, st, o.st) && Follows(g, st, DropData(o.st))
  {
    hide RegionSame, Store16, Word;
    Itself(g, st);
    Pushes(g, st, st, 32);
    WordFollows(g, st, PushData(st, 32));
    if Word(PushData(st, 32)).Next? { Drops(g, st, Word(PushData(st, 32)).st); }
  }

  lemma NameHere(st: State)
    requires StacksOk(st) && !Full(st.data)
    ensures var o := Word(PushData(st, 32)); o.Next? ==> Here(o.st.mem) == Here(st.mem)
  {
    hide ReadToken, Fetch16;
    var d := st.data.where;
    FetchStored(st.mem, d, 32) by { hide Store16; }
    TokenHere(st.mem, d, 32, 32);
    var m := ReadToken(Store16(st.mem, d, 32), 32).0;
    FetchElsewhere(m, d, LOC_WORD_BUFFER, LOC_HERE);
  }

  lemma BlitKeeps(g: Region, m: Memory, a: cell, bytes: seq<byte>)
    requires a + |bytes| <= SPACE_TOP && (SPACE_TOP <= g.lo || g.hi <= a)
    ensures RegionSame(g, m, Blit(m, a, bytes))
  {
  }

  lemma EntryFollows(g: Region, st: State, s: State, name: seq<byte>, flags: byte, op: byte, does: cell)
    requires |name| < 0x80 && Follows(g, st, s) && LaysOutside(g, s)
    ensures var o := AddEntry(s, name, flags, op, does);
            o.Next? ==> Follows(g, st, o.st) && o == Continue(o.st)
  {
    hide Fetch16, Store16, HeaderBytes, Blit, RegionSame, Align;
    var o := AddEntry(s, name, flags, op, does);
    if o.Next? {
      var bytes := HeaderBytes(s.dictHead, flags, op, does, name);
      var m := Blit(s.mem, Here(s.mem), bytes);
      BlitKeeps(g, s.mem, Here(s.mem), bytes);
      RegionTrans(g, st.mem, s.mem, m);
      StoreRegion(g, st.mem, m, LOC_HERE, Align(Here(s.mem) + DE_SIZE_MIN + |name|));
    }
  }

  lemma ColonKeeps(g: Region, st: State)
    requires StacksOk(st) && Spares(g, st, OP_COLON)
    ensures KeepsRegion(g, st, Colon(st))
  {
    hide KeepsRegion, Follows, Abort, Fetch16, Store16, AddEntryUpTo, PushData, Word, WordBuffer;
    Itself(g, st);
    StopKeeps(g, st);
    if Full(st.data) {
      GivesUp(g, st, st);
    } else {
      NameFollows(g, st);
      NameHere(st);
      var o := Word(PushData(st, 32));
      if o.Next? {
        var s := DropData(o.st);
        var name := WordBuffer(s.mem);
        GivesUp(g, st, s);
        if |name| < 0x80 {
          EntryFollows(g, st, s, name, EF_MACHINE_CODE + EF_DIRTY, OP_ENTER, 0);
          var e := AddEntry(s, name, EF_MACHINE_CODE + EF_DIRTY, OP_ENTER, 0);
          if e.Next? {
            Writes(g, st, e.st, LOC_STATE, COMPILING);
            MovesOn(g, st, e.st.(mem := Store16(e.st.mem, LOC_STATE, COMPILING)));
          }
        }
      }
    }
  }

  lemma CreateKeeps(g: Region, st: State, word: cell)
    requires StacksOk(st) && Spares(g, st, OP_CREATE)
    ensures KeepsRegion(g, st, Create(st, word))
  {
    hide KeepsRegion, Follows, Abort, Fetch16, Store16, AddEntryUpTo, PushData, Word, WordBuffer, DoesCode, Continue;
    Itself(g, st);
    StopKeeps(g, st);
    if Full(st.data) {
      GivesUp(g, st, st);
    } else {
      NameFollows(g, st);
      NameHere(st);
      var o := Word(PushData(st, 32));
      if o.Next? {
        var name, does := WordBuffer(o.st.mem), DoesCode(o.st.mem, word);
        GivesUp(g, st, o.st);
        if |name| < 0x80 {
          EntryFollows(g, st, DropData(o.st), name, EF_MACHINE_CODE, OP_CREATE_ENTER, does);
          var e := AddEntry(DropData(o.st), name, EF_MACHINE_CODE, OP_CREATE_ENTER, does);
          if e.Next? { MovesOn(g, st, e.st); }
        }
      }
    }
  }

  lemma FindKeeps(g: Region, st: State)
    requires StacksOk(st)
    ensures KeepsRegion(g, st, Find(st))
  {
    hide KeepsRegion, Follows, Abort, PushData, Word, FindName, Continue;
    Itself(g, st);
    StopKeeps(g, st);
    if Full(st.data) {
      GivesUp(g, st, st);
    } else {
      NameFollows(g, st);
      var o := Word(PushData(st, 32));
      if o.Next? {
        var s := DropData(o.st);
        forall v: cell ensures KeepsRegion(g, st, Continue(PushData(s, v))) {
          Pushes(g, st, s, v);
          MovesOn(g, st, PushData(s, v));
        }
      }
    }
  }

  lemma InputKeeps(g: Region, st: State, op: nat, word: cell)
    requires StacksOk(st) && IsInputOp(op) && Spares(g, st, op)
    ensures KeepsRegion(g, st, InputWord(st, op, word))
  {
    hide KeepsRegion, Word, Find, Colon, Create;
    if op == OP_WORD { WordKeeps(g, st); }
    else if op == OP_FIND { FindKeeps(g, st); }
    else if op == OP_COLON { ColonKeeps(g, st); }
    else { CreateKeeps(g, st, word); }
  }

  // Compiling words.

  lemma WrapSmall(a: cell)
    requires a + 4 <= SPACE_TOP
    ensures Wrap(a + 2) == a + 2 && Wrap(a + 4) == a + 4
  {
  }

  lemma CommaKeeps(g: Region, st: State)
    requires StacksOk(st) && Spares(g, st, OP_COMMA)
    ensures KeepsRegion(g, st, Comma(st))
  {
    hide KeepsRegion, Follows, Abort, Continue, Store16, Fetch16;
    Itself(g, st);
    StopKeeps(g, st);
    if Empty(st.data) {
      GivesUp(g, st, st);
    } else if Room(st, 2) {
      var a := Here(st.mem);
      var s1 := DropData(st);
      Drops(g, st, st);
      Writes(g, st, s1, a, TopData(st));
      var s2 := s1.(mem := Store16(s1.mem, a, TopData(st)));
      Writes(g, st, s2, LOC_HERE, Wrap(a + 2));
      MovesOn(g, st, SetHere(s2, Wrap(a + 2)));
    }
  }

  // Two cells at HERE.
  lemma LaysTwo(g: Region, st: State, s: State, a: cell, x: cell, y: cell)
    requires Follows(g, st, s) && a + 4 <= SPACE_TOP && (SPACE_TOP <= g.lo || g.hi <= a)
    ensures var s1 := s.(mem := Store16(s.mem, a, x));
            Follows(g, st, s1) && Follows(g, st, s1.(mem := Store16(s1.mem, Wrap(a + 2), y)))
  {
    hide RegionSame, Store16;
    WrapSmall(a);
    Writes(g, st, s, a, x);
    var s1 := s.(mem := Store16(s.mem, a, x));
    Writes(g, st, s1, a + 2, y);
  }

  lemma LiteralKeeps(g: Region, st: State)
    requires StacksOk(st) && Spares(g, st, OP_LITERAL)
    ensures KeepsRegion(g, st, Literal(st))
  {
    hide KeepsRegion, Follows, Abort, Continue, Store16, Fetch16, FindOpcode;
    Itself(g, st);
    StopKeeps(g, st);
    var f := FindOpcode(st.mem, st.dictHead, OP_PUSH);
    if Empty(st.data) {
      GivesUp(g, st, st);
    } else if f.Found? && Room(st, 4) {
      var a := Here(st.mem);
      var s1 := DropData(st);
      Drops(g, st, st);
      LaysTwo(g, st, s1, a, f.entry, TopData(st));
      var s3 := s1.(mem := Store16(Store16(s1.mem, a, f.entry), Wrap(a + 2), TopData(st)));
      Writes(g, st, s3, LOC_HERE, Wrap(a + 4));
      MovesOn(g, st, SetHere(s3, Wrap(a + 4)));
    }
  }

  lemma BeginKeeps(g: Region, st: State)
    requires StacksOk(st)
    ensures KeepsRegion(g, st, Begin(st))
  {
    hide KeepsRegion, Follows, Abort, Continue, PushControl;
    Itself(g, st);
    if Full(st.control) {
      GivesUp(g, st, st);
    } else {
      PushesControl(g, st, st, Here(st.mem));
      MovesOn(g, st, PushControl(st, Here(st.mem)));
    }
  }

  lemma IfKeeps(g: Region, st: State)
    requires StacksOk(st) && Spares(g, st, OP_IF)
    ensures KeepsRegion(g, st, If(st))
  {
    hide KeepsRegion, Follows, Abort, Continue, Store16, Fetch16, FindOpcode, PushControl;
    Itself(g, st);
    StopKeeps(g, st);
    var f := FindOpcode(st.mem, st.dictHead, OP_JUMP_IF);
    if Full(st.control) {
      GivesUp(g, st, st);
    } else if f.Found? && Room(st, 4) {
      var a := Here(st.mem);
      LaysTwo(g, st, st, a, f.entry, 0);
      var s2 := st.(mem := Store16(Store16(st.mem, a, f.entry), Wrap(a + 2), 0));
      PushesControl(g, st, s2, Wrap(a + 2));
      var s3 := PushControl(s2, Wrap(a + 2));
      Writes(g, st, s3, LOC_HERE, Wrap(a + 4));
      MovesOn(g, st, SetHere(s3, Wrap(a + 4)));
    }
  }

  lemma ThenKeeps(g: Region, st: State)
    requires StacksOk(st) && Spares(g, st, OP_THEN)
    ensures KeepsRegion(g, st, Then(st))
  {
    hide KeepsRegion, Follows, Abort, Continue, Store16, Fetch16;
    Itself(g, st);
    if Empty(st.control) {
      GivesUp(g, st, st);
    } else {
      var s := DropControl(st);
      Drops(g, st, st);
      Writes(g, st, s, TopControl(st), Here(st.mem));
      MovesOn(g, st, s.(mem := Store16(s.mem, TopControl(st), Here(st.mem))));
    }
  }

  lemma ElseKeeps(g: Region, st: State)
    requires StacksOk(st) && Spares(g, st, OP_ELSE)
    ensures KeepsRegion(g, st, Else(st))
  {
    hide KeepsRegion, Follows, Abort, Continue, Store16, Fetch16, FindOpcode, PushControl;
    Itself(g, st);
    StopKeeps(g, st);
    var f := FindOpcode(st.mem, st.dictHead, OP_JUMP);
    if Empty(st.control) {
      GivesUp(g, st, st);
    } else if f.Found? && Room(st, 4) {
      var a, t := Here(st.mem), TopControl(st);
      WrapSmall(a);
      var s1 := st.(mem := Store16(st.mem, a, f.entry));
      Writes(g, st, st, a, f.entry);
      FetchElsewhere(st.mem, a, f.entry, st.control.where - 2);
      assert TopControl(s1) == t;
      Drops(g, st, s1);
      var s2 := DropControl(s1);
      Writes(g, st, s2, t, Wrap(a + 4));
      var s3 := s2.(mem := Store16(s2.mem, t, Wrap(a + 4)));
      PushesControl(g, st, s3, Wrap(a + 2));
      var s4 := PushControl(s3, Wrap(a + 2));
      Writes(g, st, s4, LOC_HERE, Wrap(a + 4));
      MovesOn(g, st, SetHere(s4, Wrap(a + 4)));
    }
  }

  lemma AgainKeeps(g: Region, st: State)
    requires StacksOk(st) && Spares(g, st, OP_AGAIN)
    ensures KeepsRegion(g, st, Again(st))
  {
    hide KeepsRegion, Follows, Abort, Continue, Store16, Fetch16, FindOpcode;
    Itself(g, st);
    StopKeeps(g, st);
    var f := FindOpcode(st.mem, st.dictHead, OP_JUMP);
    if Empty(st.control) {
      GivesUp(g, st, st);
    } else if f.Found? && Room(st, 4) {
      var a := Here(st.mem);
      WrapSmall(a);
      var s1 := st.(mem := Store16(st.mem, a, f.entry));
      Writes(g, st, st, a, f.entry);
      Drops(g, st, s1);
      var s2 := DropControl(s1);
      Writes(g, st, s2, a + 2, TopControl(s1));
      var s3 := s2.(mem := Store16(s2.mem, a + 2, TopControl(s1)));
      Writes(g, st, s3, LOC_HERE, Wrap(a + 4));
      MovesOn(g, st, SetHere(s3, Wrap(a + 4)));
    }
  }

  lemma SemicolonKeeps(g: Region, st: State)
    requires StacksOk(st) && Spares(g, st, OP_SEMICOLON)
    ensures KeepsRegion(g, st, Semicolon(st))
  {
    hide KeepsRegion, Follows, Continue, Store16, Store8, Fetch16, FindOpcode;
    Itself(g, st);
    StopKeeps(g, st);
    var f := FindOpcode(st.mem, st.dictHead, OP_EXIT);
    if f.Found? && Room(st, 2) {
      var a, h := Here(st.mem), st.dictHead;
      Writes(g, st, st, a, f.entry);
      var s1 := st.(mem := Store16(st.mem, a, f.entry));
      Writes(g, st, s1, LOC_HERE, Wrap(a + 2));
      var s2 := SetHere(s1, Wrap(a + 2));
      Writes(g, st, s2, LOC_STATE, INTERPRETING);
      var s3 := s2.(mem := Store16(s2.mem, LOC_STATE, INTERPRETING));
      var b := Fetch8(s3.mem, h + DE_FLAGS);
      var v := if b / 32 % 2 == 1 then b - 32 else b;
      WritesByte(g, st, s3, h + DE_FLAGS, v);
      MovesOn(g, st, s3.(mem := Store8(s3.mem, h + DE_FLAGS, v)));
    }
  }

  lemma ImmediateKeeps(g: Region, st: State)
    requires StacksOk(st) && Spares(g, st, OP_IMMEDIATE)
    ensures KeepsRegion(g, st, Immediate(st))
  {
    hide KeepsRegion, Follows, Continue, Store8;
    Itself(g, st);
    var b := Fetch8(st.mem, st.dictHead + DE_FLAGS);
    var v := if b / 2 % 2 == 1 then b else b + 2;
    WritesByte(g, st, st, st.dictHead + DE_FLAGS, v);
    MovesOn(g, st, st.(mem := Store8(st.mem, st.dictHead + DE_FLAGS, v)));
  }

  lemma DoesKeeps(g: Region, st: State)
    requires StacksOk(st) && Spares(g, st, OP_DOES)
    ensures KeepsRegion(g, st, Does(st))
  {
    hide KeepsRegion, Follows, Continue, Store16, Fetch16, FindOpcode;
    Itself(g, st);
    StopKeeps(g, st);
    var f := FindOpcode(st.mem, st.dictHead, OP_DOES_RT);
    if f.Found? && Room(st, 4) {
      var a, h := Here(st.mem), st.dictHead;
      WrapSmall(a);
      var s1 := st.(mem := Store16(st.mem, a, f.entry));
      var x := FindOpcode(s1.mem, h, OP_EXIT);
      if x.Found? {
        LaysTwo(g, st, st, a, f.entry, x.entry);
        var s2 := s1.(mem := Store16(s1.mem, a + 2, x.entry));
        Writes(g, st, s2, LOC_HERE, Wrap(a + 4));
        var s3 := SetHere(s2, Wrap(a + 4));
        Writes(g, st, s3, h + DE_DOES_CODE, Wrap(a + 4));
        MovesOn(g, st, s3.(mem := Store16(s3.mem, h + DE_DOES_CODE, Wrap(a + 4))));
      }
    }
  }

  lemma DoesRtKeeps(g: Region, st: State)
    requires StacksOk(st) && Spares(g, st, OP_DOES_RT)
    ensures KeepsRegion(g, st, DoesRt(st))
  {
    hide KeepsRegion, Follows, Continue, Store16, CodeField;
    Itself(g, st);
    StopKeeps(g, st);
    var h := st.dictHead;
    Writes(g, st, st, h + DE_CODE_FIELD, OP_DOES_ENTER);
    var s1 := st.(mem := Store16(st.mem, h + DE_CODE_FIELD, OP_DOES_ENTER));
    Writes(g, st, s1, h + DE_CODE_FIELD + 2, 0);
    var s2 := s1.(mem := Store16(s1.mem, h + DE_CODE_FIELD + 2, 0));
    Writes(g, st, s2, h + DE_DOES_CODE, Wrap(st.ip + 4));
    MovesOn(g, st, s2.(mem := Store16(s2.mem, h + DE_DOES_CODE, Wrap(st.ip + 4))));
  }

  lemma CompilerKeeps(g: Region, st: State, op: nat)
    requires StacksOk(st) && IsCompilerOp(op) && Spares(g, st, op)
    ensures KeepsRegion(g, st, CompilerWord(st, op))
  {
    hide KeepsRegion, Comma, Literal, Begin, If, Then, Else, Again, Semicolon, Immediate, Does, DoesRt, Outside;
    hide LaysOutside;
    if op == OP_COMMA { CommaKeeps(g, st); }
    else if op == OP_LITERAL || op == OP_PLITERAL { LiteralKeeps(g, st); }
    else if op == OP_BEGIN { BeginKeeps(g, st); }
    else if op == OP_AGAIN { AgainKeeps(g, st); }
    else if op == OP_IF { IfKeeps(g, st); }
    else if op == OP_ELSE { ElseKeeps(g, st); }
    else if op == OP_THEN { ThenKeeps(g, st); }
    else if op == OP_SEMICOLON { SemicolonKeeps(g, st); }
    else if op == OP_IMMEDIATE { ImmediateKeeps(g, st); }
    else if op == OP_DOES { DoesKeeps(g, st); }
    else { DoesRtKeeps(g, st); }
  }

  // The other words of the table.

  lemma PasteKeeps(g: Region, m: Memory, text: seq<byte>)
    requires |text| < INPUT_BUFFER_SIZE
    ensures RegionSame(g, m, Paste(m, text))
  {
  }

  lemma QueryKeeps(g: Region, st: State)
    requires StacksOk(st)
    ensures KeepsRegion(g, st, Query(st))
  {
    hide Paste, RegionSame;
    if st.input != [] {
      PasteKeeps(g, st.mem, CString(st.input[..FgetsLength(st.input, LINE_SIZE)]));
    }
  }

  lemma ParenKeeps(g: Region, st: State)
    requires StacksOk(st)
    ensures KeepsRegion(g, st, Paren(st))
  {
    hide KeepsRegion, Follows, Abort, Continue, Store16, Fetch16, SkipComment;
    Itself(g, st);
    StopKeeps(g, st);
    GivesUp(g, st, st);
    var i, n := Fetch16(st.mem, LOC_INDEX), Fetch16(st.mem, LOC_COUNT);
    var (j, c) := SkipComment(st.mem, i, n, st.mem[Wrap(LOC_INPUT_BUFFER + i)]);
    Writes(g, st, st, LOC_INDEX, j);
    MovesOn(g, st, st.(mem := Store16(st.mem, LOC_INDEX, j)));
  }

  lemma PNumberKeeps(g: Region, st: State)
    requires StacksOk(st)
    ensures KeepsRegion(g, st, PNumber(st))
  {
    hide KeepsRegion, Follows, Abort, Continue, PushData, ReadNumber, Fetch16;
    Itself(g, st);
    GivesUp(g, st, st);
    if !Empty(st.data) {
      var n := ReadNumber(st.mem, TopData(st));
      var v := if n.Converted? then n.value else TopData(st);
      var s := PushData(DropData(st), v);
      Drops(g, st, st);
      Pushes(g, st, DropData(st), v);
      GivesUp(g, st, s);
      if !Full(s.data) {
        Pushes(g, st, s, if n.Converted? then 1 else 0);
        MovesOn(g, st, PushData(s, if n.Converted? then 1 else 0));
      }
    }
  }

  lemma AllotKeeps(g: Region, st: State)
    requires StacksOk(st)
    ensures KeepsRegion(g, st, Allot(st))
  {
    hide KeepsRegion, Follows, Abort, Continue, Store16, Fetch16;
    Itself(g, st);
    GivesUp(g, st, st);
    if !Empty(st.data) {
      Drops(g, st, st);
      Writes(g, st, DropData(st), LOC_HERE, Wrap(Here(st.mem) + TopData(st)));
      MovesOn(g, st, SetHere(DropData(st), Wrap(Here(st.mem) + TopData(st))));
    }
  }

  lemma StoreKeeps(g: Region, st: State)
    requires StacksOk(st) && Spares(g, st, OP_STORE)
    ensures KeepsRegion(g, st, StoreCell(st))
  {
    hide KeepsRegion, Follows, Abort, Continue, Store16, Fetch16;
    Itself(g, st);
    GivesUp(g, st, st);
    if !Empty(st.data) {
      var s := DropData(st);
      Drops(g, st, st);
      GivesUp(g, st, s);
      if !Empty(s.data) {
        Drops(g, st, s);
        Writes(g, st, DropData(s), TopData(st), TopData(s));
        MovesOn(g, st, DropData(s).(mem := Store16(s.mem, TopData(st), TopData(s))));
      }
    }
  }

  // `.` and DECOMPILE change nothing but the stack.
  lemma PopKeeps(g: Region, st: State)
    requires StacksOk(st)
    ensures KeepsRegion(g, st, Dot(st)) && KeepsRegion(g, st, Decompile(st)) && KeepsRegion(g, st, Bye(st))
  {
    hide KeepsRegion, Abort, Fetch16, SweepEnds, SweepStart, RegionSame;
    Itself(g, st);
    StopKeeps(g, st);
    GivesUp(g, st, st);
    MovesOn(g, st, st.(run := false));
    if !Empty(st.data) {
      Drops(g, st, st);
      MovesOn(g, st, DropData(st));
    }
  }

  lemma SystemKeeps(g: Region, st: State, op: nat)
    requires StacksOk(st) && IsSystemOp(op) && Spares(g, st, op)
    ensures KeepsRegion(g, st, SystemWord(st, op))
  {
    hide KeepsRegion, Query, Paren, PNumber, Allot, StoreCell, Dot, Decompile, Bye;
    QueryKeeps(g, st);
    ParenKeeps(g, st);
    PNumberKeeps(g, st);
    AllotKeeps(g, st);
    PopKeeps(g, st);
    if op == OP_STORE { StoreKeeps(g, st); }
  }

  // Any word of the table outside the control-flow group.
  lemma WordSpares(g: Region, st: State, op: nat, word: cell)
    requires StacksOk(st) && !IsFlowOp(op) && Spares(g, st, op)
    ensures KeepsRegion(g, st, Simple(st, op, word))
  {
    hide KeepsRegion, StackWord, CompilerWord, InputWord, SystemWord, Spares;
    if IsCompilerOp(op) { CompilerKeeps(g, st, op); }
    else if IsInputOp(op) { InputKeeps(g, st, op, word); }
    else if IsSystemOp(op) { SystemKeeps(g, st, op); }
    else { StackKeeps(g, st, op); }
  }
}
