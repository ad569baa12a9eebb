// What a turn of the first system's INTERPRET leaves: the token compiled, a line asked
// for, or nothing.
module ByteTurnEnds {
  import opened Dataspace
  import opened ByteState
  import opened ByteWords
  import ByteProgram
  import opened ByteCompile
  import opened ByteDefine
  import opened ByteBootstrap
  import opened ByteSource
  import opened ByteMeaning
  import opened ByteEffect
  import opened ByteInterpret
  import opened ByteAnswers
  import opened ByteTurn

  // The system that main starts is one whose turns are spoken of here.

  lemma CoreCodes(i: nat)
    requires i < 34
    ensures |CORE| == 34 && CORE[i].flags % 2 == 1
  {
  }

  lemma CodesThere(t: State, code: Memory, at: seq<cell>, state: cell, bound: int)
    requires |CORE| == |at| == 34 && AllPlaced(at, state, bound) && bound <= SPACE_TOP
    requires SameOn(t.mem, code, DICTIONARY_START, bound) && forall i :: 0 <= i < |CORE| ==> Holds(t, at[i], CORE[i])
    ensures Codes(code, at)
  {
    hide CORE, SameOn, OnChain;
    forall i | 0 <= i < 34 ensures IsInstruction(code, at[i]) && Named(code, at[i]) == CORE[i].op {
      assert Holds(t, at[i], CORE[i]);
      CoreCodes(i);
      HeaderSame(t.mem, code, bound, at[i]);
    }
  }

  lemma HeaderSame(m: Memory, n: Memory, bound: int, xt: cell)
    requires SameOn(m, n, DICTIONARY_START, bound) && bound <= SPACE_TOP
    requires DICTIONARY_START <= xt && xt + H_SIZE <= bound
    ensures IsInstruction(n, xt) == IsInstruction(m, xt) && CodeStart(n, xt) == CodeStart(m, xt)
    ensures FlagsOf(n, xt) == FlagsOf(m, xt)
    ensures Fetch8(n, Wrap(xt + H_SEMANTICS)) == Fetch8(m, Wrap(xt + H_SEMANTICS))
  {
    hide Fetch16;
    FetchSame(m, n, DICTIONARY_START, bound, xt + H_FLAGS);
  }

  ghost predicate Works(code: Memory, b: cell, at: seq<cell>, state: cell, start: cell)
    requires |at| == 34
  {
    && Working(code, b, InterpretWords(at, state, start, Called(code, state)), at, state)
    && InCode(code, b, TurnBody(at, state), start + 1)
  }

  lemma SystemWorks(st: State) returns (t: State, s: State, at: seq<cell>, start: cell)
    requires StacksOk(st) && st.control == CONTROL_BOTTOM && st.data == DATA_BOTTOM && st.dictHead == 0
    requires Where(st.mem) == DICTIONARY_START && ByteProgram.InputOk(st.mem)
    ensures |CORE| == |at| == 34 && AddAll(st, CORE).Next?
    ensures AddVariable(AddAll(st, CORE).st, LOC_STATE, Bytes("STATE")) == Next(t) && StacksOk(t)
    ensures Define(t.(mem := SetCode(t.mem, Bytes("INTERPRET "))), Interpret(at, t.dictHead)) == Next(s)
    ensures start == CodeStart(s.mem, s.dictHead)
    ensures Works(s.mem, Where(s.mem), at, t.dictHead, start)
  {
    hide Fetch16, SameOn, Ready, IsInstruction, AddAll, AddVariable, Bytes, CORE, SetCode, Define, Holds, InterpretBody;
    hide Interpret, Vocabulary, CodeStart, Codes, InCode;
    var z;
    t, s, at, start, z := InterpretCompiled(st);
    var state := t.dictHead;
    HeaderSame(t.mem, s.mem, Where(t.mem), state);
    CodesThere(t, s.mem, at, state, Where(t.mem));
    TurnInCode(s.mem, Where(s.mem), at, state, start, z);
  }

  lemma TurnInCode(m: Memory, b: cell, at: seq<cell>, state: cell, start: cell, z: cell)
    requires |at| == 34 && Vocabulary(m, InterpretWords(at, state, start, z), b)
    ensures InCode(m, b, TurnBody(at, state), start + 1)
  {
    hide Code, CodeAt, Known, Size;
    var p := TurnBody(at, state);
    LoopThere(at, state);
    hide InterpretBody, TurnBody;
    var w := InterpretWords(at, state, start, z);
    assert start in w && w[start] == InterpretBody(at, state);
    assert Callable(m, w[start], start, b);
    LoopShape(m, p, start);
    CodeSplit(m, start, Code(m, Loop(p), start), [LEAVE]);
    CodeSplit(m, start, [NOP] + Code(m, p, start + 1), Operand(JMP, start));
    CodeSplit(m, start, [NOP], Code(m, p, start + 1));
  }

  lemma LoopThere(at: seq<cell>, state: cell)
    requires |at| == 34
    ensures InterpretBody(at, state) == Loop(TurnBody(at, state))
  {
    hide Line, NameBody;
  }

  // The token that a turn hands to the compiler while STATE is on, if there is one: an
  // entry that is not immediate, a number, or an immediate word that closes or opens a
  // jump.
  function Control(op: byte): seq<Token> {
    if op == IF then [TokIf]
    else if op == ELSE then [TokElse]
    else if op == THEN then [TokThen]
    else if op == BEGIN then [TokBegin]
    else if op == AGAIN then [TokAgain]
    else []
  }

  function Handed(m: Memory, e: (cell, cell), n: (cell, cell)): seq<Token> {
    if e.1 == 1 then if IsInstruction(m, e.0) then Control(Named(m, e.0)) else []
    else if e.1 != 0 then [Word(e.0)]
    else if n.1 != 0 then [Number(n.0)]
    else []
  }

  lemma {:induction false} StoredBack(m: Memory, a: cell)
    requires a + 1 < SIZE
    ensures Store16(m, a, Fetch16(m, a)) == m
  {
    var low: int, high: int := m[a], m[a + 1];
    assert Fetch16(m, a) == low + 0x100 * high;
    assert (low + 0x100 * high) % 0x100 == low && (low + 0x100 * high) / 0x100 == high;
  }

  // A value popped and pushed again.
  lemma PushedBack(u: State, v: State, x: cell)
    requires StacksOk(u) && StacksOk(v) && PopData(u) == Popped(v, x)
    ensures PushData(v, x) == Next(u)
  {
    hide Fetch16, Store16;
    StoredBack(u.mem, u.data - 2);
  }

  // A machine with x on top, without it.
  lemma Without(from: State, u: State, m: Memory, s: seq<cell>, x: cell) returns (v: State)
    requires StacksOk(from) && On(from, u, m, s + [x])
    ensures StacksOk(v) && On(from, v, m, s) && PopData(u) == Popped(v, x) && PushData(v, x) == Next(u)
    ensures v.ret == u.ret && v.ip == u.ip
  {
    hide PopData, PushData, Running, DataOf, ReturnOf, ControlOf;
    RunningOk(u, m);
    Pops1(u, m);
    assert Last(s + [x]) == x && Front(s + [x]) == s;
    v := PopData(u).st;
    OnOn(from, u, v, m, m, s + [x], s);
    RunningOk(v, m);
    PushedBack(u, v, x);
  }

  // COMPILE and LITERAL do with the value on the stack what the compiler does with the
  // token.
  lemma LaysToken(u: State, v: State, x: cell, t: Token, op: byte)
    requires StacksOk(u) && StacksOk(v) && PushData(v, x) == Next(u)
    requires (op == COMPILE && t == Word(x)) || (op == LITERAL && t == Number(x))
    ensures Perform(u, op, Real) == After(CompileToken(v, t), u.ip)
  {
    PerformsDictionary(u, op);
    hide Perform, PushData, Compile, Literal, ParseWord, Colon, Accept, After;
  }

  lemma ControlDoes(v: State, op: byte)
    requires StacksOk(v) && Control(op) != []
    ensures Perform(v, op, Real) == After(CompileToken(v, Control(op)[0]), v.ip)
  {
    PerformsOnward(v, op);
    hide Perform, If, Else, Then, Begin, Again, DataStep, DictionaryStep, PushData, Compile, Literal;
  }

  // So does EXECUTE with an immediate word that closes or opens a jump.
  lemma ExecutesControl(u: State, v: State, x: cell)
    requires StacksOk(u) && StacksOk(v) && PopData(u) == Popped(v, x) && v.ip == u.ip
    requires IsInstruction(v.mem, x) && Control(Named(v.mem, x)) != []
    ensures Perform(u, EXECUTE, Real) == After(CompileToken(v, Control(Named(v.mem, x))[0]), u.ip)
  {
    hide Perform, Fetch8, IsInstruction, PopData, CompileToken, Control;
    ExecutesCode(u, v, x, Real);
    ControlDoes(v, Named(v.mem, x));
    AfterAfter(CompileToken(v, Control(Named(v.mem, x))[0]), u.ip);
  }

  lemma AfterAfter(o: Outcome, ip: cell)
    ensures After(After(o, ip), ip) == After(o, ip)
  {
  }

  // No token moves the return stack.
  lemma TokenReturn(v: State, t: Token)
    requires StacksOk(v)
    ensures match CompileToken(v, t) case Stop(why) => true case Next(s) => s.ret == v.ret
  {
    hide Fetch16, Store16, IsInstruction;
  }

  // A byte code that does o and goes on at the next byte, at z.
  lemma CodeDoes(u: State, code: Memory, b: cell, w: Words, op: byte, o: Outcome, z: int, fuel: nat)
    requires StacksOk(u) && Intact(code, b, u) && Perform(u, op, Real) == After(o, u.ip)
    requires o.Next? ==> o.st.ret == u.ret
    ensures var r := Landed(MeanCode(code, b, w, Real, op, 1, u, fuel), z);
            match o
            case Stop(why) => r == Stopped(why)
            case Next(s) => Intact(code, b, s) ==> r == Normal(At(s, z))
  {
    hide Fetch16, Perform, StacksOk, MeanCall;
    if o.Next? && Intact(code, b, o.st) { assert Intact(code, b, After(o, u.ip).st); }
  }

  // An entry found is below the stacks.
  lemma FoundBelow(st: State, m: Memory, a: cell, k: cell, bound: int)
    requires DictionaryOk(m, st.dictHead, bound) && a + k <= SPACE_TOP && k < 0x100 && Found(st, m, a, k).1 != 0
    ensures Found(st, m, a, k).0 + H_SIZE <= SPACE_TOP
  {
    hide DictionaryOk, FindEntry, IsImmediate;
    SearchSame(m, m, st.dictHead, bound, a, k);
    HeaderInside(m, st.dictHead, bound);
  }

  // While STATE is on, a turn whose name is an entry that is not immediate, a number, or
  // a word that opens or closes a jump does with the half-built definition what the
  // compiler does with that token, on the stack that was there.
  lemma TurnCompiles(st: State, code: Memory, b: cell, w: Words, at: seq<cell>, state: cell, x: seq<byte>,
      name: seq<byte>, y: seq<byte>, bound: int, fuel: nat)
    returns (v: State, t: Token)
    requires |at| == 34 && Fine(st, code, b, w, at, state, TurnBody(at, state), st.mem) && fuel > 0
    requires |DataOf(st)| + 4 <= DATA_DEPTH && |ReturnOf(st)| < RETURN_DEPTH
    requires Ahead(st.mem, x, name, y) && 0 < |name| < 0x100 && DictionaryOk(st.mem, st.dictHead, bound)
    requires Fetch16(st.mem, LOC_STATE) != 0
    requires var m := Read(st.mem, x, name);
             Handed(m, Found(st, m, Place(st.mem, x), |name|), Valued(st, m, Place(st.mem, x), |name|)) != []
    ensures StacksOk(v) && On(st, v, Read(st.mem, x, name), DataOf(st)) && Intact(code, b, st)
    ensures var m := Read(st.mem, x, name);
            [t] == Handed(m, Found(st, m, Place(st.mem, x), |name|), Valued(st, m, Place(st.mem, x), |name|))
    ensures var r := Mean(code, b, w, Real, TurnBody(at, state), st, fuel);
            match CompileToken(v, t)
            case Stop(why) => r == Stopped(why)
            case Next(s) => Intact(code, b, s) ==> r == Normal(At(s, st.ip + Size(code, TurnBody(at, state))))
  {
    hide Fine, Ahead, Running, DataOf, ReturnOf, DictionaryOk, Fetch16, Mean, MeanCode, Read, Place, Found, Valued;
    hide TurnBody;
    hide CompileToken, Intact, IsInstruction, Named, Perform, Size, Control, PopData, PushData, SameFrame, Landed, On;
    FineOk(st, code, b, w, at, state, TurnBody(at, state), st.mem);
    var u := TurnHandles(st, code, b, w, at, state, x, name, y, bound, fuel);
    var m, a, k: cell := Read(st.mem, x, name), Place(st.mem, x), |name|;
    var e, n, z := Found(st, m, a, k), Valued(st, m, a, k), st.ip + Size(code, TurnBody(at, state));
    var value := if e.1 != 0 then e.0 else n.0;
    var op := if e.1 == 1 then EXECUTE else if e.1 != 0 then COMPILE else LITERAL;
    v := Without(st, u, m, DataOf(st), value);
    t := Handed(m, e, n)[0];
    Handing(m, e, n);
    if e.1 == 1 {
      AfterRead(st.mem, x, name, y, st.dictHead, bound);
      FoundBelow(st, m, a, k, bound);
      OnRunning(st, v, m, DataOf(st));
      HeaderThere(v, m, e.0);
      NamedThere(v, m, e.0);
      ExecutesControl(u, v, e.0);
    } else {
      LaysToken(u, v, value, t, op);
    }
    TokenReturn(v, t);
    CodeDoes(u, code, b, w, op, CompileToken(v, t), z, fuel);
  }

  lemma Handing(m: Memory, e: (cell, cell), n: (cell, cell))
    ensures |Handed(m, e, n)| <= 1
  {
    hide IsInstruction, Named;
  }

  lemma OnRunning(from: State, u: State, m: Memory, s: seq<cell>)
    requires StacksOk(from) && On(from, u, m, s)
    ensures Running(u, m) && StacksOk(u)
  {
    hide DataOf, ReturnOf, ControlOf, SameOn;
  }

  lemma NamedThere(v: State, m: Memory, xt: cell)
    requires Running(v, m) && xt + H_SIZE <= SPACE_TOP && IsInstruction(m, xt)
    ensures IsInstruction(v.mem, xt) && Named(v.mem, xt) == Named(m, xt)
  {
    hide Running, IsInstruction, Fetch8;
    HeaderThere(v, m, xt);
  }

  // CR 75 79 EMIT EMIT CR
  lemma PromptLine(code: Memory, m: Memory, w: Words, at: seq<cell>, s: seq<cell>, depth: nat, fuel: nat)
    requires Codes(code, at) && |s| + 2 <= DATA_DEPTH
    ensures BodyEffect(code, m, w, Line([Word(at[24]), Number(75), Number(79), Word(at[9]), Word(at[9]), Word(at[24])]),
            s, depth, fuel) == Gives(s)
  {
    hide BodyEffect, Line, Codes, IsInstruction, Named, CORE;
    Coded(code, at);
    var c, o, k, e := Word(at[24]), Number(75), Number(79), Word(at[9]);
    assert [c, o] + [k] == [c, o, k] && [c, o, k] + [e] == [c, o, k, e] && [c, o, k, e] + [e] == [c, o, k, e, e];
    assert [c, o, k, e, e] + [c] == [c, o, k, e, e, c];
    CodeGives(code, m, w, at[24], s, depth, fuel);
    ValueGives(code, m, w, 75, s, depth, fuel);
    EffectTwo(code, m, w, c, o, s, s, s + [75], depth, fuel);
    ValueGives(code, m, w, 79, s + [75], depth, fuel);
    EffectMore(code, m, w, [c, o], k, s, depth, fuel);
    CodeGives(code, m, w, at[9], s + [75] + [79], depth, fuel);
    TopMoves(m, s + [75], 79, depth);
    EffectMore(code, m, w, [c, o, k], e, s, depth, fuel);
    CodeGives(code, m, w, at[9], s + [75], depth, fuel);
    TopMoves(m, s, 75, depth);
    EffectMore(code, m, w, [c, o, k, e], e, s, depth, fuel);
    EffectMore(code, m, w, [c, o, k, e, e], c, s, depth, fuel);
  }

  // With nothing left of the line, a turn asks for the next one, with the stack that was
  // there, and stops where there is none.
  lemma TurnRefills(st: State, code: Memory, b: cell, w: Words, at: seq<cell>, state: cell, fuel: nat)
    returns (u: State)
    requires |at| == 34 && Fine(st, code, b, w, at, state, TurnBody(at, state), st.mem)
    requires |DataOf(st)| + 2 <= DATA_DEPTH && Remaining(st.mem) == 0
    ensures StacksOk(u) && On(st, u, st.mem, DataOf(st)) && Intact(code, b, st)
    ensures Mean(code, b, w, Real, TurnBody(at, state), st, fuel) ==
            match Accept(u)
            case Stop(why) => Stopped(why)
            case Next(s) => Normal(At(s, st.ip + Size(code, TurnBody(at, state))))
  {
    hide Running, DataOf, ReturnOf, Fetch16, Mean, MeanCode, TurnBody, Line, BodyEffect, Vocabulary, Over, Code, CodeAt;
    hide Intact, IsInstruction, Named, Perform, Size, Landed, On, Accept, Codes, Remaining;
    FineOk(st, code, b, w, at, state, TurnBody(at, state), st.mem);
    var s, z := DataOf(st), st.ip + Size(code, TurnBody(at, state));
    var u1 := ToRest(st, code, b, w, at, state, st.mem, fuel);
    OnRunning(st, u1, st.mem, s);
    var c, o, k, e, p := Word(at[24]), Number(75), Number(79), Word(at[9]), Word(at[23]);
    assert [c, o, k, e, e, c] + [p] == [c, o, k, e, e, c, p];
    Coded(code, at);
    OnData(st, u1, st.mem, s);
    PromptLine(code, st.mem, w, at, s, |ReturnOf(u1)|, fuel);
    u := LastWord(u1, code, b, w, [c, o, k, e, e, c], at[23], st.mem, s, fuel);
    OnOn(st, u1, u, st.mem, st.mem, s, s);
    AcceptDoes(u, code, b);
    CodeDoes(u, code, b, w, PACCEPT, Accept(u), z, fuel);
  }

  lemma OnData(from: State, u: State, m: Memory, s: seq<cell>)
    requires StacksOk(from) && On(from, u, m, s)
    ensures StacksOk(u) && DataOf(u) == s
  {
    hide DataOf, ReturnOf, ControlOf, SameOn;
  }

  lemma AcceptDoes(u: State, code: Memory, b: cell)
    requires StacksOk(u) && Intact(code, b, u)
    ensures Perform(u, PACCEPT, Real) == After(Accept(u), u.ip)
    ensures Accept(u).Next? ==> Intact(code, b, Accept(u).st) && Accept(u).st.ret == u.ret
  {
    PerformsDictionary(u, PACCEPT);
    hide Perform, Fetch16, SetCode, Compile, Literal, ParseWord, Colon;
    if u.input != [] { ByteProgram.CodeSet(u.mem, CString(u.input[..FgetsLength(u.input, LINE_SIZE)])); }
  }

  // With only white space left, a turn drops the empty name and is over.
  lemma TurnDrops(st: State, code: Memory, b: cell, w: Words, at: seq<cell>, state: cell, x: seq<byte>, fuel: nat)
    returns (u: State)
    requires |at| == 34 && Fine(st, code, b, w, at, state, TurnBody(at, state), st.mem)
    requires |DataOf(st)| + 3 <= DATA_DEPTH && Ahead(st.mem, x, [], []) && Remaining(st.mem) != 0
    ensures StacksOk(u) && On(st, u, Read(st.mem, x, []), DataOf(st)) && Intact(code, b, st)
    ensures Mean(code, b, w, Real, TurnBody(at, state), st, fuel)
            == Normal(At(u, st.ip + Size(code, TurnBody(at, state))))
  {
    hide Running, DataOf, ReturnOf, Fetch16, Mean, MeanCode, TurnBody, Line, BodyEffect, Vocabulary, Over, Code, CodeAt;
    hide Intact, IsInstruction, Named, Perform, Size, Landed, On, Codes, Remaining, Read, Place, Ahead, RestBody;
    FineOk(st, code, b, w, at, state, TurnBody(at, state), st.mem);
    var s, z, m, a := DataOf(st), st.ip + Size(code, TurnBody(at, state)), Read(st.mem, x, []), Place(st.mem, x);
    var u1 := ToRest(st, code, b, w, at, state, st.mem, fuel);
    OnData(st, u1, st.mem, s);
    var u2 := ToName(u1, code, b, w, at, state, st.mem, x, [], [], fuel);
    OnOn(st, u1, u2, st.mem, m, s, s + [a, 0]);
    OnData(u1, u2, m, s + [a, 0]);
    var d := Word(at[7]);
    DropLine(code, m, w, at, s, a, |ReturnOf(u2)|, fuel);
    BodyGoes(u2, code, b, w, Line([d, d]), m, s, fuel);
    var r := Mean(code, b, w, Real, Line([d, d]), u2, fuel);
    u := r.st;
    OnOn(st, u2, u, m, m, s + [a, 0], s);
    LandedTwice(r, u1.ip + Size(code, RestBody(at, state)), z);
    LandedNormal(u, z);
    OnRunning(st, u, m, s);
  }

  lemma DropLine(code: Memory, m: Memory, w: Words, at: seq<cell>, s: seq<cell>, a: cell, depth: nat, fuel: nat)
    requires Codes(code, at)
    ensures BodyEffect(code, m, w, Line([Word(at[7]), Word(at[7])]), s + [a, 0], depth, fuel) == Gives(s)
  {
    hide BodyEffect, Line, Codes, IsInstruction, Named, CORE;
    Coded(code, at);
    assert s + [a] + [0] == s + [a, 0];
    CodeGives(code, m, w, at[7], s + [a, 0], depth, fuel);
    TopMoves(m, s + [a], 0, depth);
    CodeGives(code, m, w, at[7], s + [a], depth, fuel);
    TopMoves(m, s, a, depth);
    EffectTwo(code, m, w, Word(at[7]), Word(at[7]), s + [a, 0], s + [a], s, depth, fuel);
  }
}
