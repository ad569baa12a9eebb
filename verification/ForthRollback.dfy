// ABORT in the middle of a definition: whatever compile-time words have run,
// nested or not, the dictionary goes back to what it was before `:`.
module ForthRollback {
  import opened Dataspace
  import opened ForthState
  import opened ForthWords
  import opened ForthSource
  import opened ForthCompile
  import opened ForthDefine

  // The immediate words that compile something; `;` is not among them, it ends
  // the definition.
  predicate CompilesOp(op: nat) {
    op in {OP_LITERAL, OP_BEGIN, OP_AGAIN, OP_IF, OP_ELSE, OP_THEN, OP_DOES}
  }

  // A token that may occur inside the definition e: a number, a word that is
  // compiled, or a compiling word; e itself may be named.
  ghost predicate CompileTime(m: Memory, t: Token, e: cell) {
    match t
    case Numeral(_) => true
    case Entry(xt) =>
      && SYSTEM_END <= xt && (xt == e || xt + DE_SIZE_MIN <= e)
      && (!IsImmediate(m, xt) || CompilesOp(CodeField(m, xt)))
  }

  // m and n agree below b, but for the does code of the entry e.
  ghost predicate LowSame(m: Memory, n: Memory, e: int, b: int) {
    forall i :: SYSTEM_END <= i < b <= SIZE && !(e + DE_DOES_CODE <= i < e + DE_DOES_CODE + 2) ==> m[i] == n[i]
  }

  // Everything on the control stack is an address inside the new definition.
  ghost predicate Targets(n: Memory, control: cell, b: int)
    requires CONTROL_BOTTOM <= control
  {
    forall i :: 0 <= i < |Cells(n, CONTROL_BOTTOM, control)| ==> b <= Cells(n, CONTROL_BOTTOM, control)[i] <= SPACE_TOP
  }

  // What the words of the compiler need of the dictionary.
  ghost predicate Lookups(m: Memory, head: cell) {
    && FindOpcode(m, head, OP_PUSH).Found? && FindOpcode(m, head, OP_JUMP).Found?
    && FindOpcode(m, head, OP_JUMP_IF).Found? && FindOpcode(m, head, OP_EXIT).Found?
    && FindOpcode(m, head, OP_DOES_RT).Found?
  }

  // In the middle of the definition e, opened when memory was m.
  ghost predicate Mid(st: State, m: Memory, e: cell, b: cell) {
    && StacksOk(st) && st.dictHead == e && Entered(m, e, b)
    && b <= Here(st.mem) <= SPACE_TOP
    && MidMemory(st.mem, m, e, b, st.control.where)
  }

  ghost predicate MidMemory(n: Memory, m: Memory, e: cell, b: cell, control: cell)
    requires CONTROL_BOTTOM <= control
  {
    && Fetch16(n, LOC_STATE) == COMPILING && LowSame(m, n, e, b) && Targets(n, control, b)
  }

  ghost predicate Entered(m: Memory, e: cell, b: cell) {
    && SYSTEM_END <= e && e + DE_SIZE_MIN <= b <= SPACE_TOP && Chain(m, e, b) && Lookups(m, e)
  }

  // The state before the definition, as far as the dictionary goes; nothing on
  // any stack; interpreting; no input left.
  ghost predicate RolledBack(s: State, m: Memory, e: cell) {
    && StacksOk(s) && Empty(s.data) && Empty(s.control) && Empty(s.ret)
    && Fetch16(s.mem, LOC_STATE) == INTERPRETING
    && Fetch16(s.mem, LOC_INDEX) == 0 && Fetch16(s.mem, LOC_COUNT) == 0
    && s.dictHead == Previous(m, e) && SameOn(m, s.mem, SYSTEM_END, e)
  }

  lemma LowHeader(m: Memory, n: Memory, e: int, b: int, x: cell)
    requires LowSame(m, n, e, b) && SYSTEM_END <= x && x + DE_SIZE_MIN <= b <= SPACE_TOP
    requires x == e || x + DE_SIZE_MIN <= e
    ensures Previous(n, x) == Previous(m, x) && CodeField(n, x) == CodeField(m, x)
    ensures NameCount(n, x) == NameCount(m, x) && IsImmediate(n, x) == IsImmediate(m, x)
  {
    hide Fetch16;
    assert SameOn(m, n, x, x + DE_DOES_CODE);
    FetchSame(m, n, x, x + DE_DOES_CODE, x);
    FetchSame(m, n, x, x + DE_DOES_CODE, x + DE_CODE_FIELD);
    FetchSame(m, n, x, x + DE_DOES_CODE, x + DE_CODE_FIELD + 2);
  }

  lemma AbortRollsBack(st: State, m: Memory, e: cell, b: cell)
    requires Mid(st, m, e, b)
    ensures RolledBack(AbortState(st), m, e)
  {
    hide Fetch16, Store16, Chain, Lookups, LowSame, SameOn, Cells, Previous, Targets;
    LowHeader(m, st.mem, e, b, e);
    AbortMemory(st.mem, m, e, b);
  }

  lemma AbortMemory(n: Memory, m: Memory, e: cell, b: cell)
    requires SYSTEM_END <= e && e + DE_SIZE_MIN <= b <= SPACE_TOP && LowSame(m, n, e, b)
    ensures var n1 := Store8(n, LOC_INPUT_BUFFER, 0);
            var n2 := Store16(Store16(n1, LOC_INDEX, 0), LOC_COUNT, 0);
            var n3 := Store16(n2, LOC_STATE, INTERPRETING);
            && Previous(n2, e) == Previous(n, e) && Fetch16(n3, LOC_STATE) == INTERPRETING
            && Fetch16(n3, LOC_INDEX) == 0 && Fetch16(n3, LOC_COUNT) == 0 && SameOn(m, n3, SYSTEM_END, e)
  {
    hide Fetch16;
    var n1 := Store8(n, LOC_INPUT_BUFFER, 0);
    var n2 := Store16(n1, LOC_INDEX, 0);
    var n3 := Store16(n2, LOC_COUNT, 0);
    var n4 := Store16(n3, LOC_STATE, INTERPRETING);
    FetchStored(n1, LOC_INDEX, 0);
    FetchStored(n2, LOC_COUNT, 0);
    FetchStored(n3, LOC_STATE, INTERPRETING);
    FetchElsewhere(n2, LOC_COUNT, 0, LOC_INDEX);
    FetchElsewhere(n3, LOC_STATE, INTERPRETING, LOC_INDEX);
    FetchElsewhere(n3, LOC_STATE, INTERPRETING, LOC_COUNT);
    FetchSame(n, n3, SYSTEM_END, SIZE, e);
  }

  // Writes a compiling word may make: the code, free stack space, HERE and the
  // does code of the entry.
  predicate Allowed(x: cell, e: cell, b: cell) {
    (b <= x <= SPACE_TOP) || (DATA_BOTTOM <= x < DATA_TOP - 2) || x == LOC_HERE || x == e + DE_DOES_CODE
  }

  lemma MidStore(n: Memory, m: Memory, e: cell, b: cell, t: cell, x: cell, v: cell)
    requires CONTROL_BOTTOM <= t < CONTROL_TOP && MidMemory(n, m, e, b, t) && Entered(m, e, b) && Allowed(x, e, b)
    ensures MidMemory(Store16(n, x, v), m, e, b, t)
    ensures x != LOC_HERE ==> Here(Store16(n, x, v)) == Here(n)
    ensures Here(Store16(n, LOC_HERE, v)) == v
  {
    hide Fetch16, Cells, Chain, Lookups, Targets, SameOn, LowSame;
    var o := Store16(n, x, v);
    FetchElsewhere(n, x, v, LOC_STATE);
    if x != LOC_HERE {
      FetchElsewhere(n, x, v, LOC_HERE);
    }
    FetchStored(n, LOC_HERE, v);
    StoreOutside(n, x, v, CONTROL_BOTTOM, t);
    CellsFrame(n, o, CONTROL_BOTTOM, t);
    LowStore(n, m, e, b, x, v);
    assert Targets(o, t, b) by { TargetsSame(n, o, t, b); }
  }

  lemma TargetsSame(n: Memory, o: Memory, t: cell, b: int)
    requires CONTROL_BOTTOM <= t && Targets(n, t, b) && Cells(n, CONTROL_BOTTOM, t) == Cells(o, CONTROL_BOTTOM, t)
    ensures Targets(o, t, b)
  {
    hide Cells;
  }

  lemma LowStore(n: Memory, m: Memory, e: cell, b: cell, x: cell, v: cell)
    requires LowSame(m, n, e, b) && SYSTEM_END <= e && e + DE_SIZE_MIN <= b <= SPACE_TOP
    requires x == LOC_HERE || b <= x < 0xFFFF || x == e + DE_DOES_CODE
    ensures LowSame(m, Store16(n, x, v), e, b)
  {
  }

  lemma MidPush(n: Memory, m: Memory, e: cell, b: cell, t: cell, v: cell)
    requires CONTROL_BOTTOM <= t < CONTROL_TOP - 2 && (t - CONTROL_BOTTOM) % 2 == 0
    requires MidMemory(n, m, e, b, t) && Entered(m, e, b)
    requires b <= v <= SPACE_TOP
    ensures MidMemory(Store16(n, t, v), m, e, b, t + 2) && Here(Store16(n, t, v)) == Here(n)
  {
    hide Fetch16, Cells, Chain, Lookups, LowSame, SameOn;
    FetchElsewhere(n, t, v, LOC_STATE);
    FetchElsewhere(n, t, v, LOC_HERE);
    CellsPush(n, CONTROL_BOTTOM, t, v);
    LowStore(n, m, e, b, t, v);
  }

  lemma MidPop(n: Memory, m: Memory, e: cell, b: cell, t: cell)
    requires CONTROL_BOTTOM + 2 <= t && (t - CONTROL_BOTTOM) % 2 == 0 && MidMemory(n, m, e, b, t)
    ensures MidMemory(n, m, e, b, t - 2) && b <= Fetch16(n, t - 2) <= SPACE_TOP
  {
    hide Fetch16, Cells, LowSame;
    CellsPop(n, CONTROL_BOTTOM, t);
    var xs, x := Cells(n, CONTROL_BOTTOM, t - 2), Fetch16(n, t - 2);
    assert (xs + [x])[|xs|] == x;
    forall i | 0 <= i < |xs| ensures b <= xs[i] <= SPACE_TOP {
      assert (xs + [x])[i] == xs[i];
    }
  }

  // The searches of the compiling words succeed in the middle of a definition.
  lemma {:induction false} LowChain(m: Memory, n: Memory, e: int, b: int, h: cell, bound: int, op: nat)
    requires LowSame(m, n, e, b) && Chain(m, h, bound) && bound <= b <= SPACE_TOP
    requires (h == e && bound <= b) || bound <= e
    ensures Chain(n, h, bound) && FindOpcode(n, h, op) == FindOpcode(m, h, op)
    decreases h
  {
    hide Previous, CodeField, NameCount, LowSame, IsImmediate;
    LowHeader(m, n, e, b, h);
    if Previous(m, h) != 0 {
      LowChain(m, n, e, b, Previous(m, h), h, op);
    }
  }

  lemma MidLookups(n: Memory, m: Memory, e: cell, b: cell)
    requires Entered(m, e, b) && LowSame(m, n, e, b)
    ensures Lookups(n, e)
  {
    hide FindOpcode, Chain, LowSame;
    LowChain(m, n, e, b, e, b, OP_PUSH);
    LowChain(m, n, e, b, e, b, OP_JUMP);
    LowChain(m, n, e, b, e, b, OP_JUMP_IF);
    LowChain(m, n, e, b, e, b, OP_EXIT);
    LowChain(m, n, e, b, e, b, OP_DOES_RT);
  }

  // How a compile-time word may end: still in the definition, rolled back, or
  // out of room.
  ghost predicate MidOutcome(o: Outcome, m: Memory, e: cell, b: cell) {
    match o
    case Next(s, _) => Mid(s, m, e, b) || RolledBack(s, m, e)
    case Stop(why) => why == DictionaryFull
  }

  lemma AbortOutcome(st: State, m: Memory, e: cell, b: cell)
    requires Mid(st, m, e, b)
    ensures MidOutcome(Abort(st), m, e, b)
  {
    hide Fetch16, AbortState, Entered, MidMemory, RolledBack;
    AbortRollsBack(st, m, e, b);
  }

  lemma CommaMid(st: State, m: Memory, e: cell, b: cell)
    requires Mid(st, m, e, b) && !Empty(st.data)
    ensures MidOutcome(Comma(st), m, e, b)
  {
    hide Fetch16, Store16, AbortState, Entered, MidMemory;
    if Room(st, 2) {
      var a, n := Here(st.mem), TopData(st);
      MidBounds(m, e, b);
      MidStore(st.mem, m, e, b, st.control.where, a, n);
      MidStore(Store16(st.mem, a, n), m, e, b, st.control.where, LOC_HERE, a + 2);
    }
  }

  lemma MidBounds(m: Memory, e: cell, b: cell)
    requires Entered(m, e, b)
    ensures SYSTEM_END <= e && e + DE_SIZE_MIN <= b <= SPACE_TOP
  {
  }

  lemma MidLow(st: State, m: Memory, e: cell, b: cell)
    requires Mid(st, m, e, b)
    ensures LowSame(m, st.mem, e, b)
  {
  }

  lemma LiteralMid(st: State, m: Memory, e: cell, b: cell)
    requires Mid(st, m, e, b)
    ensures MidOutcome(Literal(st), m, e, b)
  {
    hide Fetch16, Store16, AbortState, Entered, MidMemory, FindOpcode, LowSame;
    MidBounds(m, e, b);
    MidLow(st, m, e, b);
    MidLookups(st.mem, m, e, b);
    if Empty(st.data) {
      AbortOutcome(st, m, e, b);
    } else if Room(st, 4) {
      var a, n, t, x := Here(st.mem), TopData(st), st.control.where, FindOpcode(st.mem, st.dictHead, OP_PUSH).entry;
      MidStore(st.mem, m, e, b, t, a, x);
      MidStore(Store16(st.mem, a, x), m, e, b, t, a + 2, n);
      MidStore(Store16(Store16(st.mem, a, x), a + 2, n), m, e, b, t, LOC_HERE, a + 4);
    }
  }

  lemma BeginMid(st: State, m: Memory, e: cell, b: cell)
    requires Mid(st, m, e, b)
    ensures MidOutcome(Begin(st), m, e, b)
  {
    hide Fetch16, Store16, AbortState, Entered, MidMemory, FindOpcode, LowSame;
    MidBounds(m, e, b);
    MidLow(st, m, e, b);
    MidLookups(st.mem, m, e, b);
    if Full(st.control) {
      AbortOutcome(st, m, e, b);
    } else {
      MidPush(st.mem, m, e, b, st.control.where, Here(st.mem));
    }
  }

  lemma AgainMid(st: State, m: Memory, e: cell, b: cell)
    requires Mid(st, m, e, b)
    ensures MidOutcome(Again(st), m, e, b)
  {
    hide Fetch16, Store16, AbortState, Entered, MidMemory, FindOpcode, LowSame;
    MidBounds(m, e, b);
    MidLow(st, m, e, b);
    MidLookups(st.mem, m, e, b);
    if Empty(st.control) {
      AbortOutcome(st, m, e, b);
    } else if Room(st, 4) {
      var a, t, x := Here(st.mem), st.control.where, FindOpcode(st.mem, st.dictHead, OP_JUMP).entry;
      var m1 := Store16(st.mem, a, x);
      MidStore(st.mem, m, e, b, t, a, x);
      MidPop(m1, m, e, b, t);
      var y := Fetch16(m1, t - 2);
      MidStore(m1, m, e, b, t - 2, a + 2, y);
      MidStore(Store16(m1, a + 2, y), m, e, b, t - 2, LOC_HERE, a + 4);
    }
  }

  lemma IfMid(st: State, m: Memory, e: cell, b: cell)
    requires Mid(st, m, e, b)
    ensures MidOutcome(If(st), m, e, b)
  {
    hide Fetch16, Store16, AbortState, Entered, MidMemory, FindOpcode, LowSame;
    MidBounds(m, e, b);
    MidLow(st, m, e, b);
    MidLookups(st.mem, m, e, b);
    if Full(st.control) {
      AbortOutcome(st, m, e, b);
    } else if Room(st, 4) {
      var a, t, x := Here(st.mem), st.control.where, FindOpcode(st.mem, st.dictHead, OP_JUMP_IF).entry;
      var m1 := Store16(st.mem, a, x);
      var m2 := Store16(m1, a + 2, 0);
      var m3 := Store16(m2, t, a + 2);
      MidStore(st.mem, m, e, b, t, a, x);
      MidStore(m1, m, e, b, t, a + 2, 0);
      MidPush(m2, m, e, b, t, a + 2);
      MidStore(m3, m, e, b, t + 2, LOC_HERE, a + 4);
    }
  }

  lemma ThenMid(st: State, m: Memory, e: cell, b: cell)
    requires Mid(st, m, e, b)
    ensures MidOutcome(Then(st), m, e, b)
  {
    hide Fetch16, Store16, AbortState, Entered, MidMemory, FindOpcode, LowSame;
    MidBounds(m, e, b);
    MidLow(st, m, e, b);
    MidLookups(st.mem, m, e, b);
    if Empty(st.control) {
      AbortOutcome(st, m, e, b);
    } else {
      MidPop(st.mem, m, e, b, st.control.where);
      MidStore(st.mem, m, e, b, st.control.where - 2, TopControl(st), Here(st.mem));
    }
  }

  lemma ElseMid(st: State, m: Memory, e: cell, b: cell)
    requires Mid(st, m, e, b)
    ensures MidOutcome(Else(st), m, e, b)
  {
    hide Fetch16, Store16, AbortState, Entered, MidMemory, FindOpcode, LowSame;
    MidBounds(m, e, b);
    MidLow(st, m, e, b);
    MidLookups(st.mem, m, e, b);
    if Empty(st.control) {
      AbortOutcome(st, m, e, b);
    } else if Room(st, 4) {
      var a, t, x := Here(st.mem), st.control.where, FindOpcode(st.mem, st.dictHead, OP_JUMP).entry;
      var m1 := Store16(st.mem, a, x);
      MidStore(st.mem, m, e, b, t, a, x);
      MidPop(m1, m, e, b, t);
      var y := Fetch16(m1, t - 2);
      var m2 := Store16(m1, y, a + 4);
      var m3 := Store16(m2, t - 2, a + 2);
      MidStore(m1, m, e, b, t - 2, y, a + 4);
      MidPush(m2, m, e, b, t - 2, a + 2);
      MidStore(m3, m, e, b, t, LOC_HERE, a + 4);
    }
  }

  lemma DoesMid(st: State, m: Memory, e: cell, b: cell)
    requires Mid(st, m, e, b)
    ensures MidOutcome(Does(st), m, e, b)
  {
    hide Fetch16, Store16, AbortState, Entered, MidMemory, FindOpcode, LowSame;
    MidBounds(m, e, b);
    MidLow(st, m, e, b);
    MidLookups(st.mem, m, e, b);
    if Room(st, 4) {
      var a, t, x := Here(st.mem), st.control.where, FindOpcode(st.mem, st.dictHead, OP_DOES_RT).entry;
      var m1 := Store16(st.mem, a, x);
      MidStore(st.mem, m, e, b, t, a, x);
      var s1 := st.(mem := m1);
      MidLow(s1, m, e, b);
      MidLookups(m1, m, e, b);
      var y := FindOpcode(m1, st.dictHead, OP_EXIT).entry;
      var m2 := Store16(m1, a + 2, y);
      var m3 := Store16(m2, LOC_HERE, a + 4);
      MidStore(m1, m, e, b, t, a + 2, y);
      MidStore(m2, m, e, b, t, LOC_HERE, a + 4);
      MidStore(m3, m, e, b, t, e + DE_DOES_CODE, a + 4);
    }
  }

  lemma PushedMid(st: State, m: Memory, e: cell, b: cell, v: cell)
    requires Mid(st, m, e, b) && !Full(st.data)
    ensures Mid(PushData(st, v), m, e, b)
    ensures Mid(st.(mem := Store16(st.mem, st.data.where, v)), m, e, b)
  {
    hide Fetch16, Store16, Entered, MidMemory;
    MidStore(st.mem, m, e, b, st.control.where, st.data.where, v);
  }

  lemma OpMid(st: State, m: Memory, e: cell, b: cell, op: nat)
    requires Mid(st, m, e, b) && CompilesOp(op)
    ensures MidOutcome(CompilerWord(st, op), m, e, b)
  {
    hide Mid, MidOutcome, Comma, Literal, Begin, Again, If, Else, Then, Semicolon, Immediate, Does, DoesRt;
    LiteralMid(st, m, e, b);
    BeginMid(st, m, e, b);
    AgainMid(st, m, e, b);
    IfMid(st, m, e, b);
    ThenMid(st, m, e, b);
    ElseMid(st, m, e, b);
    DoesMid(st, m, e, b);
  }

  lemma TokenMid(st: State, m: Memory, e: cell, b: cell, t: Token)
    requires Mid(st, m, e, b) && CompileTime(m, t, e)
    ensures MidOutcome(CompileToken(st, t), m, e, b)
  {
    hide Fetch16, Store16, AbortState, MidMemory, Literal, Comma, CompilerWord, StackWord, FlowWord, InputWord;
    hide RolledBack, IsImmediate, CodeField, Execute;
    if Full(st.data) {
      AbortOutcome(st, m, e, b);
    } else {
      match t
      case Numeral(n) =>
        PushedMid(st, m, e, b, n);
        LiteralMid(PushData(st, n), m, e, b);
      case Entry(xt) =>
        PushedMid(st, m, e, b, xt);
        MidLow(st, m, e, b);
        LowHeader(m, st.mem, e, b, xt);
        if IsImmediate(m, xt) {
          ExecutePushed(st, xt);
          OpMid(st.(mem := Store16(st.mem, st.data.where, xt)), m, e, b, CodeField(m, xt));
        } else {
          CommaMid(PushData(st, xt), m, e, b);
        }
    }
  }

  lemma {:induction false} TokensMid(st: State, m: Memory, e: cell, b: cell, ts: seq<Token>)
    requires Mid(st, m, e, b) || RolledBack(st, m, e)
    requires forall i :: 0 <= i < |ts| ==> CompileTime(m, ts[i], e)
    ensures MidOutcome(CompileTokens(st, ts), m, e, b)
    decreases |ts|
  {
    hide Fetch16, MidMemory, CompileToken, CompileTime, Entered;
    if ts != [] && Fetch16(st.mem, LOC_STATE) == COMPILING {
      TokenMid(st, m, e, b, ts[0]);
      var o := CompileToken(st, ts[0]);
      if o.Next? {
        TokensMid(o.st, m, e, b, ts[1..]);
      }
    }
  }

  lemma OpenMid(st: State, s: State)
    requires StacksOk(st) && CanName(st) && Opened(st, s) && Empty(st.control)
    requires SYSTEM_END <= Here(st.mem) && Chain(st.mem, st.dictHead, Here(st.mem)) && Lookups(st.mem, st.dictHead)
    ensures Mid(s, s.mem, Here(st.mem), NewField(st)) && Previous(s.mem, Here(st.mem)) == st.dictHead
  {
    hide Fetch16, SameOn, CodeField, Previous, NameCount, Named;
    var e, h := Here(st.mem), st.dictHead;
    ChainFrame(st.mem, s.mem, h, e);
    assert Chain(s.mem, e, NewField(st));
    FindOpcodeFrame(st.mem, s.mem, h, e, OP_PUSH);
    FindOpcodeFrame(st.mem, s.mem, h, e, OP_JUMP);
    FindOpcodeFrame(st.mem, s.mem, h, e, OP_JUMP_IF);
    FindOpcodeFrame(st.mem, s.mem, h, e, OP_EXIT);
    FindOpcodeFrame(st.mem, s.mem, h, e, OP_DOES_RT);
    forall op | op in {OP_PUSH, OP_JUMP, OP_JUMP_IF, OP_EXIT, OP_DOES_RT}
      ensures FindOpcode(s.mem, e, op) == FindOpcode(s.mem, h, op)
    {
    }
  }

  // Open a definition with an empty control stack, compile any tokens but `;`,
  // and abort if that has not happened already: every stack is empty, the mode
  // is interpreting, the dictionary head is the old one, and not a byte of the
  // dictionary below the aborted entry has changed.
  lemma Rollback(st: State, ts: seq<Token>) returns (s1: State)
    requires StacksOk(st) && CanName(st) && Empty(st.control)
    requires SYSTEM_END <= Here(st.mem) && Chain(st.mem, st.dictHead, Here(st.mem)) && Lookups(st.mem, st.dictHead)
    ensures Colon(st).Next? && s1 == Colon(st).st && StacksOk(s1)
    ensures (forall i :: 0 <= i < |ts| ==> CompileTime(s1.mem, ts[i], Here(st.mem))) ==>
      match CompileTokens(s1, ts)
      case Stop(why) => why == DictionaryFull
      case Next(s, _) =>
        var f := if Fetch16(s.mem, LOC_STATE) == COMPILING then AbortState(s) else s;
        && StacksOk(f) && Empty(f.data) && Empty(f.control) && Empty(f.ret)
        && Fetch16(f.mem, LOC_STATE) == INTERPRETING
        && f.dictHead == st.dictHead && SameOn(st.mem, f.mem, SYSTEM_END, Here(st.mem))
  {
    hide Fetch16, AbortState, SameOn, CompileTokens, CompileTime, MidMemory, Entered, Chain, Lookups, Previous, Named;
    hide Colon, CodeField, NameCount, FindOpcode;
    s1 := ColonOpens(st);
    var e, b := Here(st.mem), NewField(st);
    OpenMid(st, s1);
    if forall i :: 0 <= i < |ts| ==> CompileTime(s1.mem, ts[i], e) {
      TokensMid(s1, s1.mem, e, b, ts);
      var o := CompileTokens(s1, ts);
      if o.Next? {
        var s := o.st;
        if Fetch16(s.mem, LOC_STATE) == COMPILING {
          assert Mid(s, s1.mem, e, b);
          AbortRollsBack(s, s1.mem, e, b);
          SameBoth(st.mem, s1.mem, AbortState(s).mem, SYSTEM_END, e);
        } else {
          NotMid(s, s1.mem, e, b);
          SameBoth(st.mem, s1.mem, s.mem, SYSTEM_END, e);
        }
      }
    }
  }

  lemma NotMid(s: State, m: Memory, e: cell, b: cell)
    requires Fetch16(s.mem, LOC_STATE) != COMPILING
    ensures !Mid(s, m, e, b)
  {
  }
}
