// Compiling: what the outer interpreter does with each token while STATE is
// compiling, and the proof that the one-pass, back-patching words turn
// structured source into the threaded code of the same structure.
module ForthCompile {
  import opened Dataspace
  import opened ForthState
  import opened ForthWords
  import opened ForthSource

  // One token, as FIND or (NUMBER) leaves it on the data stack: a number is
  // compiled as a literal, an immediate word is executed, any other appended.
  function CompileToken(st: State, t: Token): (r: Outcome)
    requires StacksOk(st)
    ensures r.Next? ==> StacksOk(r.st) && r.st.recover == st.recover
  {
    if Full(st.data) then Abort(st)
    else
      match t
      case Numeral(n) => Literal(PushData(st, n))
      case Entry(xt) =>
        if IsImmediate(st.mem, xt) then Execute(PushData(st, xt)) else Comma(PushData(st, xt))
  }

  // Tokens are compiled until STATE goes back to interpreting: `;` was met, or
  // ABORT dropped the rest of the input.
  function CompileTokens(st: State, ts: seq<Token>): (r: Outcome)
    requires StacksOk(st)
    ensures r.Next? ==> StacksOk(r.st)
    decreases |ts|
  {
    if ts == [] || Fetch16(st.mem, LOC_STATE) != COMPILING then Next(st, st.ip)
    else
      match CompileToken(st, ts[0])
      case Stop(why) => Stop(why)
      case Next(s, _) => CompileTokens(s, ts[1..])
  }

  lemma {:induction false} CompileAppend(st: State, xs: seq<Token>, ys: seq<Token>)
    requires StacksOk(st)
    requires CompileTokens(st, xs).Next?
    ensures CompileTokens(st, xs + ys) == CompileTokens(CompileTokens(st, xs).st, ys)
    decreases |xs|
  {
    if xs == [] {
      assert xs + ys == ys;
    } else if Fetch16(st.mem, LOC_STATE) == COMPILING {
      assert (xs + ys)[1..] == xs[1..] + ys;
      CompileAppend(CompileToken(st, xs[0]).st, xs[1..], ys);
    }
  }

  // The bytes compiling may change: HERE, the code in [a, b) and the stack
  // space above the two stack pointers.
  predicate Kept(i: int, a: int, b: int, data: int, control: int) {
    && !(LOC_HERE <= i < LOC_HERE + 2) && !(a <= i < b)
    && !(data <= i < DATA_TOP) && !(control <= i < CONTROL_TOP)
  }

  ghost predicate SameBut(m: Memory, n: Memory, a: int, b: int, data: int, control: int) {
    forall i :: 0 <= i < SIZE && Kept(i, a, b, data, control) ==> m[i] == n[i]
  }

  ghost predicate Registers(st: State, s: State) {
    && s.dictHead == st.dictHead && s.recover == st.recover && s.ip == st.ip
    && s.ret == st.ret && s.data == st.data && s.top == st.top
    && s.control.top == st.control.top && s.control.bottom == st.control.bottom
  }

  ghost predicate KeywordOk(m: Memory, xt: cell, op: nat, base: int) {
    && SYSTEM_END <= xt && xt + DE_SIZE_MIN <= base
    && CodeField(m, xt) == op && IsImmediate(m, xt)
  }

  // A definition is being compiled: the dictionary below `base` has the words
  // the compiler needs, and HERE has reached base.
  ghost predicate Compiling(st: State, c: Core, k: Keywords, base: int) {
    && StacksOk(st) && !Full(st.data)
    && Fetch16(st.mem, LOC_STATE) == COMPILING
    && SYSTEM_END <= base <= Here(st.mem) && base <= SPACE_TOP
    && Dictionary(st.mem, st.dictHead, c, k, base)
  }

  ghost predicate Dictionary(m: Memory, head: cell, c: Core, k: Keywords, base: int) {
    && Chain(m, head, base)
    && FindOpcode(m, head, OP_PUSH) == Found(c.push)
    && FindOpcode(m, head, OP_JUMP) == Found(c.jump)
    && FindOpcode(m, head, OP_JUMP_IF) == Found(c.jumpIf)
    && FindOpcode(m, head, OP_EXIT) == Found(c.exit)
    && KeywordOk(m, k.kif, OP_IF, base)
    && KeywordOk(m, k.kelse, OP_ELSE, base)
    && KeywordOk(m, k.kthen, OP_THEN, base)
    && KeywordOk(m, k.kbegin, OP_BEGIN, base)
    && KeywordOk(m, k.kagain, OP_AGAIN, base)
  }

  lemma KeywordFrame(m: Memory, n: Memory, xt: cell, op: nat, base: int)
    requires base <= SPACE_TOP && SameOn(m, n, SYSTEM_END, base)
    requires KeywordOk(m, xt, op, base)
    ensures KeywordOk(n, xt, op, base)
  {
    FetchSame(m, n, SYSTEM_END, base, xt + DE_CODE_FIELD);
    FetchSame(m, n, SYSTEM_END, base, xt + DE_CODE_FIELD + 2);
  }

  lemma DictionaryFrame(m: Memory, n: Memory, head: cell, c: Core, k: Keywords, base: int)
    requires SameOn(m, n, SYSTEM_END, base) && Dictionary(m, head, c, k, base)
    ensures Dictionary(n, head, c, k, base)
  {
    hide CodeField, IsImmediate, SameOn;
    ChainFrame(m, n, head, base);
    FindOpcodeFrame(m, n, head, base, OP_PUSH);
    FindOpcodeFrame(m, n, head, base, OP_JUMP);
    FindOpcodeFrame(m, n, head, base, OP_JUMP_IF);
    FindOpcodeFrame(m, n, head, base, OP_EXIT);
    KeywordFrame(m, n, k.kif, OP_IF, base);
    KeywordFrame(m, n, k.kelse, OP_ELSE, base);
    KeywordFrame(m, n, k.kthen, OP_THEN, base);
    KeywordFrame(m, n, k.kbegin, OP_BEGIN, base);
    KeywordFrame(m, n, k.kagain, OP_AGAIN, base);
  }

  // EXECUTE of a word just pushed performs it on the stack as it was.
  lemma ExecutePushed(st: State, xt: cell)
    requires StacksOk(st) && !Full(st.data) && xt + DE_SIZE_MIN <= SPACE_TOP
    requires CodeField(st.mem, xt) != OP_EXECUTE
    ensures var s := DropData(PushData(st, xt));
            var op := CodeField(st.mem, xt);
            && StacksOk(s) && s == st.(mem := Store16(st.mem, st.data.where, xt))
            && CodeField(s.mem, xt) == op
            && Execute(PushData(st, xt)) ==
               match Simple(s, op, xt)
               case Stop(why) => Stop(why)
               case Next(s', ip) =>
                 if ip == s'.recover || op == OP_ENTER || op == OP_DOES_ENTER then Next(s', ip) else Continue(s')
  {
    hide Fetch16, Store16, Simple, AbortState;
    FetchStored(st.mem, st.data.where, xt);
    FetchElsewhere(st.mem, st.data.where, xt, xt + DE_CODE_FIELD);
    FetchElsewhere(st.mem, st.data.where, xt, xt + DE_CODE_FIELD + 2);
    var s := DropData(PushData(st, xt));
    assert Perform(s, xt) == Simple(s, CodeField(s.mem, xt), xt);
  }

  // What one token leaves behind: code in [a, b), HERE at b, the rest as it was.
  ghost predicate Emitted(st: State, s: State, a: int, b: int) {
    && StacksOk(s) && Registers(st, s)
    && SameBut(st.mem, s.mem, a, b, st.data.where, st.control.where)
    && Here(s.mem) == b
  }

  lemma StoreFree(m: Memory, n: Memory, a: int, b: int, data: int, control: int, x: cell, v: cell)
    requires SameBut(m, n, a, b, data, control) && x < 0xFFFF
    requires !Kept(x, a, b, data, control) && !Kept(x + 1, a, b, data, control)
    ensures SameBut(m, Store16(n, x, v), a, b, data, control)
  {
  }

  lemma WordToken(st: State, c: Core, k: Keywords, base: int, xt: cell)
    requires Compiling(st, c, k, base) && Room(st, 2) && !IsImmediate(st.mem, xt)
    ensures var r := CompileToken(st, Entry(xt));
            && r.Next? && r.st.control == st.control
            && Emitted(st, r.st, Here(st.mem), Here(st.mem) + 2)
            && CodeAt(r.st.mem, Here(st.mem), [xt])
  {
    hide Fetch16, Store16, SameBut, Execute, AbortState, Dictionary, Literal;
    var a := Here(st.mem);
    var m1 := Store16(st.mem, st.data.where, xt);
    var m2 := Store16(m1, a, xt);
    var m3 := Store16(m2, LOC_HERE, a + 2);
    FetchStored(st.mem, st.data.where, xt);
    FetchElsewhere(st.mem, st.data.where, xt, LOC_HERE);
    assert CompileToken(st, Entry(xt)) == Continue(st.(mem := m3));
    assert SameBut(st.mem, m3, a, a + 2, st.data.where, st.control.where) by {
      SameButSelf(st.mem, a, a + 2, st.data.where, st.control.where);
      StoreFree(st.mem, st.mem, a, a + 2, st.data.where, st.control.where, st.data.where, xt);
      StoreFree(st.mem, m1, a, a + 2, st.data.where, st.control.where, a, xt);
      StoreFree(st.mem, m2, a, a + 2, st.data.where, st.control.where, LOC_HERE, a + 2);
    }
    FetchStored(m1, a, xt);
    FetchStored(m2, LOC_HERE, a + 2);
    FetchElsewhere(m2, LOC_HERE, a + 2, a);
  }

  lemma SameButSelf(m: Memory, a: int, b: int, data: int, control: int)
    ensures SameBut(m, m, a, b, data, control)
  {
  }

  lemma NumberToken(st: State, c: Core, k: Keywords, base: int, n: cell)
    requires Compiling(st, c, k, base) && Room(st, 4)
    ensures var r := CompileToken(st, Numeral(n));
            && r.Next? && r.st.control == st.control
            && Emitted(st, r.st, Here(st.mem), Here(st.mem) + 4)
            && CodeAt(r.st.mem, Here(st.mem), [c.push, n])
  {
    hide Fetch16, Store16, SameBut, AbortState, Chain, Comma, Execute, FindOpcode, KeywordOk, SameOn, CodeField;
    var a, d, t := Here(st.mem), st.data.where, st.control.where;
    var m1 := Store16(st.mem, d, n);
    var m2 := Store16(m1, a, c.push);
    var m3 := Store16(m2, a + 2, n);
    var m4 := Store16(m3, LOC_HERE, a + 4);
    FetchStored(st.mem, d, n);
    FetchElsewhere(st.mem, d, n, LOC_HERE);
    assert FindOpcode(m1, st.dictHead, OP_PUSH) == Found(c.push) by {
      SameButSelf(st.mem, a, a + 4, d, t);
      StoreFree(st.mem, st.mem, a, a + 4, d, t, d, n);
      Protected(st.mem, m1, a, a + 4, d, t, base);
      FindOpcodeFrame(st.mem, m1, st.dictHead, base, OP_PUSH);
    }
    assert CompileToken(st, Numeral(n)) == Continue(st.(mem := m4));
    assert SameBut(st.mem, m4, a, a + 4, d, t) by {
      SameButSelf(st.mem, a, a + 4, d, t);
      StoreFree(st.mem, st.mem, a, a + 4, d, t, d, n);
      StoreFree(st.mem, m1, a, a + 4, d, t, a, c.push);
      StoreFree(st.mem, m2, a, a + 4, d, t, a + 2, n);
      StoreFree(st.mem, m3, a, a + 4, d, t, LOC_HERE, a + 4);
    }
    FetchStored(m1, a, c.push);
    FetchElsewhere(m2, a + 2, n, a);
    FetchElsewhere(m3, LOC_HERE, a + 4, a);
    FetchStored(m2, a + 2, n);
    FetchElsewhere(m3, LOC_HERE, a + 4, a + 2);
    FetchStored(m3, LOC_HERE, a + 4);
  }

  // Compiling never reaches below the code being compiled.
  lemma Protected(m: Memory, n: Memory, a: int, b: int, data: int, control: int, base: int)
    requires SameBut(m, n, a, b, data, control)
    requires SYSTEM_END <= base <= a && base <= DATA_BOTTOM <= data && CONTROL_BOTTOM <= control
    ensures SameOn(m, n, LOC_STATE, base) && SameOn(m, n, SYSTEM_END, base)
  {
  }

  // An immediate word runs on the state as it was, but for the stack cell its
  // token passed through.
  lemma KeywordToken(st: State, c: Core, k: Keywords, base: int, xt: cell, op: nat) returns (s: State)
    requires Compiling(st, c, k, base)
    requires KeywordOk(st.mem, xt, op, base) && IsCompilerOp(op)
    ensures s == st.(mem := Store16(st.mem, st.data.where, xt))
    ensures Compiling(s, c, k, base) && Here(s.mem) == Here(st.mem)
    ensures forall a, b, control :: SameBut(st.mem, s.mem, a, b, st.data.where, control)
    ensures CompileToken(st, Entry(xt)) ==
            match CompilerWord(s, op)
            case Stop(why) => Stop(why)
            case Next(s', ip) => if ip == s'.recover then Next(s', ip) else Continue(s')
  {
    hide Fetch16, Store16, AbortState, Chain, FindOpcode, SameOn, CompilerWord, StackWord, FlowWord, InputWord;
    hide CodeField;
    ExecutePushed(st, xt);
    s := st.(mem := Store16(st.mem, st.data.where, xt));
    forall a: int, b: int, control: int
      ensures SameBut(st.mem, s.mem, a, b, st.data.where, control)
    {
      SameButSelf(st.mem, a, b, st.data.where, control);
      StoreFree(st.mem, st.mem, a, b, st.data.where, control, st.data.where, xt);
    }
    Protected(st.mem, s.mem, base, base, st.data.where, CONTROL_BOTTOM, base);
    DictionaryFrame(st.mem, s.mem, st.dictHead, c, k, base);
    FetchElsewhere(st.mem, st.data.where, xt, LOC_HERE);
    FetchElsewhere(st.mem, st.data.where, xt, LOC_STATE);
  }

  lemma IfToken(st: State, c: Core, k: Keywords, base: int)
    requires Compiling(st, c, k, base) && Room(st, 4) && !Full(st.control)
    ensures var r := CompileToken(st, Entry(k.kif));
            var a := Here(st.mem);
            && r.Next? && r.st.control == st.control.(where := st.control.where + 2)
            && Emitted(st, r.st, a, a + 4)
            && Fetch16(r.st.mem, a) == c.jumpIf
            && Fetch16(r.st.mem, st.control.where) == a + 2
  {
    hide Fetch16, Store16, SameBut, AbortState, FindOpcode, Chain, KeywordOk, SameOn, Execute, Comma;
    var a, d, t := Here(st.mem), st.data.where, st.control.where;
    var s := KeywordToken(st, c, k, base, k.kif, OP_IF);
    var m1 := s.mem;
    var m2 := Store16(m1, a, c.jumpIf);
    var m3 := Store16(m2, a + 2, 0);
    var m4 := Store16(m3, t, a + 2);
    var m5 := Store16(m4, LOC_HERE, a + 4);
    assert If(s) == Continue(st.(mem := m5, control := st.control.(where := t + 2)));
    assert SameBut(st.mem, m5, a, a + 4, d, t) by {
      StoreFree(st.mem, m1, a, a + 4, d, t, a, c.jumpIf);
      StoreFree(st.mem, m2, a, a + 4, d, t, a + 2, 0);
      StoreFree(st.mem, m3, a, a + 4, d, t, t, a + 2);
      StoreFree(st.mem, m4, a, a + 4, d, t, LOC_HERE, a + 4);
    }
    FetchStored(m1, a, c.jumpIf);
    FetchElsewhere(m2, a + 2, 0, a);
    FetchElsewhere(m3, t, a + 2, a);
    FetchElsewhere(m4, LOC_HERE, a + 4, a);
    FetchStored(m3, t, a + 2);
    FetchElsewhere(m4, LOC_HERE, a + 4, t);
    FetchStored(m4, LOC_HERE, a + 4);
  }

  // THEN and ELSE fill in the operand whose address is on the control stack.
  lemma ThenToken(st: State, c: Core, k: Keywords, base: int)
    requires Compiling(st, c, k, base) && !Empty(st.control)
    ensures var r := CompileToken(st, Entry(k.kthen));
            var x := Fetch16(st.mem, st.control.where - 2);
            && r.Next?
            && r.st == st.(mem := Store16(Store16(st.mem, st.data.where, k.kthen), x, Here(st.mem)),
                           control := st.control.(where := st.control.where - 2))
  {
    hide Fetch16, Store16, SameBut, AbortState, FindOpcode, Chain, KeywordOk, SameOn, Execute, Comma;
    var s := KeywordToken(st, c, k, base, k.kthen, OP_THEN);
    FetchElsewhere(st.mem, st.data.where, k.kthen, st.control.where - 2);
  }

  lemma ElseToken(st: State, c: Core, k: Keywords, base: int)
    requires Compiling(st, c, k, base) && !Empty(st.control) && Room(st, 4)
    ensures var r := CompileToken(st, Entry(k.kelse));
            var a, t := Here(st.mem), st.control.where - 2;
            var m := Store16(Store16(st.mem, st.data.where, k.kelse), a, c.jump);
            var m := Store16(m, Fetch16(st.mem, t), a + 4);
            && r.Next?
            && r.st == st.(mem := Store16(Store16(m, t, a + 2), LOC_HERE, a + 4))
  {
    hide Fetch16, Store16, SameBut, AbortState, FindOpcode, Chain, KeywordOk, SameOn, Execute, Comma;
    var s := KeywordToken(st, c, k, base, k.kelse, OP_ELSE);
    FetchElsewhere(st.mem, st.data.where, k.kelse, st.control.where - 2);
    FetchElsewhere(s.mem, Here(st.mem), c.jump, st.control.where - 2);
  }

  lemma BeginToken(st: State, c: Core, k: Keywords, base: int)
    requires Compiling(st, c, k, base) && !Full(st.control)
    ensures var r := CompileToken(st, Entry(k.kbegin));
            var a := Here(st.mem);
            && r.Next? && r.st.control == st.control.(where := st.control.where + 2)
            && Emitted(st, r.st, a, a)
            && Fetch16(r.st.mem, st.control.where) == a
  {
    hide Fetch16, Store16, SameBut, AbortState, FindOpcode, Chain, KeywordOk, SameOn, Execute, Comma;
    var a, d, t := Here(st.mem), st.data.where, st.control.where;
    var s := KeywordToken(st, c, k, base, k.kbegin, OP_BEGIN);
    StoreFree(st.mem, s.mem, a, a, d, t, t, a);
    FetchStored(s.mem, t, a);
    FetchElsewhere(s.mem, t, a, LOC_HERE);
  }

  lemma AgainToken(st: State, c: Core, k: Keywords, base: int)
    requires Compiling(st, c, k, base) && !Empty(st.control) && Room(st, 4)
    ensures var r := CompileToken(st, Entry(k.kagain));
            var a, x := Here(st.mem), Fetch16(st.mem, st.control.where - 2);
            && r.Next? && r.st.control == st.control.(where := st.control.where - 2)
            && Emitted(st, r.st, a, a + 4)
            && CodeAt(r.st.mem, a, [c.jump, x])
  {
    hide Fetch16, Store16, SameBut, AbortState, FindOpcode, Chain, KeywordOk, SameOn, Execute, Comma;
    var a, d, t := Here(st.mem), st.data.where, st.control.where;
    var s := KeywordToken(st, c, k, base, k.kagain, OP_AGAIN);
    var m1 := s.mem;
    var x := Fetch16(st.mem, t - 2);
    FetchElsewhere(st.mem, d, k.kagain, t - 2);
    FetchElsewhere(m1, a, c.jump, t - 2);
    var m2 := Store16(m1, a, c.jump);
    var m3 := Store16(m2, a + 2, x);
    var m4 := Store16(m3, LOC_HERE, a + 4);
    assert Again(s) == Continue(st.(mem := m4, control := st.control.(where := t - 2)));
    assert SameBut(st.mem, m4, a, a + 4, d, t) by {
      StoreFree(st.mem, m1, a, a + 4, d, t, a, c.jump);
      StoreFree(st.mem, m2, a, a + 4, d, t, a + 2, x);
      StoreFree(st.mem, m3, a, a + 4, d, t, LOC_HERE, a + 4);
    }
    FetchStored(m1, a, c.jump);
    FetchElsewhere(m2, a + 2, x, a);
    FetchElsewhere(m3, LOC_HERE, a + 4, a);
    FetchStored(m2, a + 2, x);
    FetchElsewhere(m3, LOC_HERE, a + 4, a + 2);
    FetchStored(m3, LOC_HERE, a + 4);
  }

  lemma SameButTrans(m: Memory, n: Memory, o: Memory, a: int, b: int, c: int, data: int, low: int, high: int)
    requires SameBut(m, n, a, b, data, high) && SameBut(n, o, b, c, data, low)
    requires a <= b <= c
    ensures SameBut(m, o, a, c, data, if low < high then low else high)
  {
  }

  lemma Widen(m: Memory, n: Memory, a: int, b: int, data: int, control: int, a': int, b': int, control': int)
    requires SameBut(m, n, a, b, data, control) && a' <= a && b <= b' && control' <= control
    ensures SameBut(m, n, a', b', data, control')
  {
  }

  lemma CodeKept(m: Memory, n: Memory, a: int, b: int, data: int, control: int, x: nat, code: seq<nat>)
    requires SameBut(m, n, a, b, data, control) && CodeAt(m, x, code)
    requires SYSTEM_END <= x && x + 2 * |code| <= a && DATA_BOTTOM <= data && CONTROL_BOTTOM <= control
    ensures CodeAt(n, x, code)
  {
    assert SameOn(m, n, x, x + 2 * |code|);
    CodeFrame(m, n, x, code);
  }

  lemma StillCompiling(st: State, s: State, c: Core, k: Keywords, base: int, b: int)
    requires Compiling(st, c, k, base) && Emitted(st, s, Here(st.mem), b) && Here(st.mem) <= b
    ensures Compiling(s, c, k, base)
  {
    hide Fetch16, KeywordOk, SameOn, FindOpcode, Chain, SameBut, Dictionary;
    var a := Here(st.mem);
    Protected(st.mem, s.mem, a, b, st.data.where, st.control.where, base);
    DictionaryFrame(st.mem, s.mem, st.dictHead, c, k, base);
    FetchSame(st.mem, s.mem, LOC_STATE, base, LOC_STATE);
  }

  lemma OneToken(st: State, t: Token)
    requires StacksOk(st) && Fetch16(st.mem, LOC_STATE) == COMPILING && CompileToken(st, t).Next?
    ensures CompileTokens(st, [t]) == Next(CompileToken(st, t).st, CompileToken(st, t).st.ip)
  {
    hide CompileToken;
    var s := CompileToken(st, t).st;
    assert [t][1..] == [];
    assert CompileTokens(s, []) == Next(s, s.ip);
  }

  // The words of p are dictionary entries below the definition, or the
  // definition itself, and none of them is immediate.
  predicate WordsOk(m: Memory, p: Body, base: nat) {
    match p
    case Nothing => true
    case Plain(xt) => SYSTEM_END <= xt && xt + DE_SIZE_MIN <= base && !IsImmediate(m, xt)
    case Number(_) => true
    case Both(p, q) => WordsOk(m, p, base) && WordsOk(m, q, base)
    case IfThen(p) => WordsOk(m, p, base)
    case IfElse(p, q) => WordsOk(m, p, base) && WordsOk(m, q, base)
    case Loop(p) => WordsOk(m, p, base)
  }

  lemma {:induction false} WordsFrame(m: Memory, n: Memory, p: Body, base: nat)
    requires SameOn(m, n, SYSTEM_END, base) && base <= SPACE_TOP && WordsOk(m, p, base)
    ensures WordsOk(n, p, base)
    decreases p
  {
    match p
    case Nothing =>
    case Plain(xt) => assert m[xt + DE_FLAGS] == n[xt + DE_FLAGS];
    case Number(_) =>
    case Both(p, q) => WordsFrame(m, n, p, base); WordsFrame(m, n, q, base);
    case IfThen(p) => WordsFrame(m, n, p, base);
    case IfElse(p, q) => WordsFrame(m, n, p, base); WordsFrame(m, n, q, base);
    case Loop(p) => WordsFrame(m, n, p, base);
  }

  // The facts the induction needs of a body to be compiled at HERE.
  ghost predicate Fits(st: State, p: Body, base: nat) {
    && Here(st.mem) + Size(p) <= SPACE_TOP
    && st.control.where + 2 * Nesting(p) + 2 <= CONTROL_TOP
    && WordsOk(st.mem, p, base)
  }

  ghost predicate Correct(st: State, s: State, c: Core, k: Keywords, p: Body)
    requires StacksOk(st)
  {
    var a := Here(st.mem);
    && CompileTokens(st, Tokens(k, p)) == Next(s, s.ip)
    && s.control == st.control
    && Emitted(st, s, a, a + Size(p))
    && CodeAt(s.mem, a, Code(c, p, a))
  }

  lemma BothCase(st: State, s1: State, s2: State, c: Core, k: Keywords, p: Body, q: Body)
    requires StacksOk(st) && SYSTEM_END <= Here(st.mem) && Here(st.mem) + Size(p) + Size(q) <= SPACE_TOP
    requires Correct(st, s1, c, k, p) && Correct(s1, s2, c, k, q)
    ensures Correct(st, s2, c, k, Both(p, q))
  {
    hide Fetch16, SameBut, CompileTokens, CodeAt, Code, Size, Tokens;
    var a, b, z := Here(st.mem), Here(s1.mem), Here(s2.mem);
    BothShape(c, k, p, q, a);
    CompileAppend(st, Tokens(k, p), Tokens(k, q));
    SameButTrans(st.mem, s1.mem, s2.mem, a, b, z, st.data.where, st.control.where, st.control.where);
    CodeKept(s1.mem, s2.mem, b, z, st.data.where, st.control.where, a, Code(c, p, a));
    CodeSplit(s2.mem, a, Code(c, p, a), Code(c, q, b));
  }

  lemma FetchKept(m: Memory, n: Memory, a: int, b: int, data: int, control: int, x: cell)
    requires SameBut(m, n, a, b, data, control) && x < 0xFFFF
    requires Kept(x, a, b, data, control) && Kept(x + 1, a, b, data, control)
    ensures Fetch16(m, x) == Fetch16(n, x)
  {
  }

  lemma CodeStore(m: Memory, a: nat, code: seq<nat>, x: cell, v: cell)
    requires CodeAt(m, a, code) && x < 0xFFFF && (x + 2 <= a || a + 2 * |code| <= x)
    ensures CodeAt(Store16(m, x, v), a, code)
  {
    hide Store16;
    assert SameOn(m, Store16(m, x, v), a, a + 2 * |code|) by {
      StoreOutside(m, x, v, a, a + 2 * |code|);
    }
    CodeFrame(m, Store16(m, x, v), a, code);
  }

  lemma IfThenMemory(m: Memory, n: Memory, c: Core, code: seq<nat>, a: cell, b: cell, data: cell, v: cell)
    returns (o: Memory)
    requires SYSTEM_END <= a && b == a + 4 + 2 * |code| && b <= SPACE_TOP && DATA_BOTTOM <= data < DATA_TOP - 2
    requires Fetch16(m, a) == c.jumpIf
    requires CodeAt(m, a + 4, code)
    ensures o == Store16(Store16(m, data, v), a + 2, b)
    ensures CodeAt(o, a, [c.jumpIf, b] + code)
    ensures Fetch16(o, LOC_HERE) == Fetch16(m, LOC_HERE)
    ensures forall control :: SameBut(n, m, a, b, data, control) ==> SameBut(n, o, a, b, data, control)
  {
    hide Fetch16, Store16, SameBut;
    var m1 := Store16(m, data, v);
    o := Store16(m1, a + 2, b);
    CodeStore(m, a + 4, code, data, v);
    CodeStore(m1, a + 4, code, a + 2, b);
    FetchElsewhere(m, data, v, a);
    FetchElsewhere(m1, a + 2, b, a);
    FetchStored(m1, a + 2, b);
    FetchElsewhere(m, data, v, LOC_HERE);
    FetchElsewhere(m1, a + 2, b, LOC_HERE);
    CodeSplit(o, a, [c.jumpIf, b], code);
    forall control: int | SameBut(n, m, a, b, data, control)
      ensures SameBut(n, o, a, b, data, control)
    {
      StoreFree(n, m, a, b, data, control, data, v);
      StoreFree(n, m1, a, b, data, control, a + 2, b);
    }
  }

  lemma IfThenCase(st: State, s1: State, s2: State, c: Core, k: Keywords, base: int, p: Body) returns (s3: State)
    requires Compiling(st, c, k, base) && !Full(st.control)
    requires Here(st.mem) + 4 + Size(p) <= SPACE_TOP
    requires CompileToken(st, Entry(k.kif)).Next? && s1 == CompileToken(st, Entry(k.kif)).st
    requires Compiling(s1, c, k, base) && Correct(s1, s2, c, k, p) && Compiling(s2, c, k, base)
    ensures Correct(st, s3, c, k, IfThen(p))
  {
    hide Fetch16, Store16, SameBut, CompileTokens, CompileToken, CodeAt, Dictionary, Code, Size, Tokens;
    var a, b, d, t := Here(st.mem), Here(s2.mem), st.data.where, st.control.where;
    IfThenShape(c, k, p, a);
    IfToken(st, c, k, base);
    ThenToken(s2, c, k, base);
    s3 := CompileToken(s2, Entry(k.kthen)).st;
    OneToken(st, Entry(k.kif));
    CompileAppend(st, [Entry(k.kif)], Tokens(k, p));
    CompileAppend(st, [Entry(k.kif)] + Tokens(k, p), [Entry(k.kthen)]);
    OneToken(s2, Entry(k.kthen));
    FetchKept(s1.mem, s2.mem, a + 4, b, d, t + 2, t);
    FetchKept(s1.mem, s2.mem, a + 4, b, d, t + 2, a);
    SameButTrans(st.mem, s1.mem, s2.mem, a, a + 4, b, d, t + 2, t);
    var o := IfThenMemory(s2.mem, st.mem, c, Code(c, p, a + 4), a, b, d, k.kthen);
    assert s3.mem == o;
  }

  // ELSE at b closes the branch of the IF at a and opens its own.
  lemma ElseMemory(m: Memory, n: Memory, c: Core, code: seq<nat>, a: cell, b: cell, t: cell, data: cell, v: cell)
    returns (o: Memory)
    requires SYSTEM_END <= a && b == a + 4 + 2 * |code| && b + 4 <= SPACE_TOP && DATA_BOTTOM <= data < DATA_TOP - 2
    requires CONTROL_BOTTOM <= t < CONTROL_TOP - 2
    requires Fetch16(m, a) == c.jumpIf && CodeAt(m, a + 4, code)
    requires SameBut(n, m, a, b, data, t)
    ensures var laid := Store16(Store16(Store16(m, data, v), b, c.jump), a + 2, b + 4);
            o == Store16(Store16(laid, t, b + 2), LOC_HERE, b + 4)
    ensures CodeAt(o, a, [c.jumpIf, b + 4] + code) && Fetch16(o, b) == c.jump && Fetch16(o, t) == b + 2
    ensures Here(o) == b + 4 && SameBut(n, o, a, b + 4, data, t)
  {
    hide Fetch16, Store16, SameBut;
    var m1 := Store16(m, data, v);
    var m2 := Store16(m1, b, c.jump);
    var m3 := Store16(m2, a + 2, b + 4);
    var m4 := Store16(m3, t, b + 2);
    o := Store16(m4, LOC_HERE, b + 4);
    CodeStore(m, a + 4, code, data, v);
    CodeStore(m1, a + 4, code, b, c.jump);
    CodeStore(m2, a + 4, code, a + 2, b + 4);
    FetchElsewhere(m, data, v, a);
    FetchElsewhere(m1, b, c.jump, a);
    FetchElsewhere(m2, a + 2, b + 4, a);
    FetchStored(m2, a + 2, b + 4);
    CodeSplit(m3, a, [c.jumpIf, b + 4], code);
    CodeStore(m3, a, [c.jumpIf, b + 4] + code, t, b + 2);
    CodeStore(m4, a, [c.jumpIf, b + 4] + code, LOC_HERE, b + 4);
    FetchStored(m1, b, c.jump);
    FetchElsewhere(m2, a + 2, b + 4, b);
    FetchElsewhere(m3, t, b + 2, b);
    FetchElsewhere(m4, LOC_HERE, b + 4, b);
    FetchStored(m3, t, b + 2);
    FetchElsewhere(m4, LOC_HERE, b + 4, t);
    FetchStored(m4, LOC_HERE, b + 4);
    Widen(n, m, a, b, data, t, a, b + 4, t);
    StoreFree(n, m, a, b + 4, data, t, data, v);
    StoreFree(n, m1, a, b + 4, data, t, b, c.jump);
    StoreFree(n, m2, a, b + 4, data, t, a + 2, b + 4);
    StoreFree(n, m3, a, b + 4, data, t, t, b + 2);
    StoreFree(n, m4, a, b + 4, data, t, LOC_HERE, b + 4);
  }

  // THEN at z closes the branch of the ELSE at b.
  lemma ThenMemory(m: Memory, n: Memory, c: Core, before: seq<nat>, code: seq<nat>,
                   a: cell, b: cell, z: cell, t: cell, data: cell, v: cell)
    returns (o: Memory)
    requires SYSTEM_END <= a && b == a + 2 * |before| && z == b + 4 + 2 * |code| && z <= SPACE_TOP
    requires DATA_BOTTOM <= data < DATA_TOP - 2
    requires CodeAt(m, a, before) && Fetch16(m, b) == c.jump && CodeAt(m, b + 4, code)
    requires SameBut(n, m, a, z, data, t)
    ensures o == Store16(Store16(m, data, v), b + 2, z)
    ensures CodeAt(o, a, before + [c.jump, z] + code)
    ensures Here(o) == Here(m) && SameBut(n, o, a, z, data, t)
  {
    hide Fetch16, Store16, SameBut;
    var m1 := Store16(m, data, v);
    o := Store16(m1, b + 2, z);
    CodeStore(m, a, before, data, v);
    CodeStore(m1, a, before, b + 2, z);
    CodeStore(m, b + 4, code, data, v);
    CodeStore(m1, b + 4, code, b + 2, z);
    FetchElsewhere(m, data, v, b);
    FetchElsewhere(m1, b + 2, z, b);
    FetchStored(m1, b + 2, z);
    FetchElsewhere(m, data, v, LOC_HERE);
    FetchElsewhere(m1, b + 2, z, LOC_HERE);
    CodeSplit(o, a, before, [c.jump, z]);
    CodeSplit(o, a, before + [c.jump, z], code);
    StoreFree(n, m, a, z, data, t, data, v);
    StoreFree(n, m1, a, z, data, t, b + 2, z);
  }

  lemma IfElseCase(st: State, s1: State, s2: State, s3: State, s4: State, c: Core, k: Keywords, base: int, p: Body,
      q: Body)
    returns (s5: State)
    requires Compiling(st, c, k, base) && !Full(st.control)
    requires Here(st.mem) + 8 + Size(p) + Size(q) <= SPACE_TOP
    requires CompileToken(st, Entry(k.kif)).Next? && s1 == CompileToken(st, Entry(k.kif)).st
    requires Compiling(s1, c, k, base) && Correct(s1, s2, c, k, p) && Compiling(s2, c, k, base)
    requires CompileToken(s2, Entry(k.kelse)).Next? && s3 == CompileToken(s2, Entry(k.kelse)).st
    requires Compiling(s3, c, k, base) && Correct(s3, s4, c, k, q) && Compiling(s4, c, k, base)
    ensures Correct(st, s5, c, k, IfElse(p, q))
  {
    hide Fetch16, Store16, SameBut, CompileTokens, CompileToken, CodeAt, Dictionary, Code, Size, Tokens;
    var a, b, z, d, t := Here(st.mem), Here(s2.mem), Here(s4.mem), st.data.where, st.control.where;
    IfElseShape(c, k, p, q, a);
    IfToken(st, c, k, base);
    ElseToken(s2, c, k, base);
    ThenToken(s4, c, k, base);
    s5 := CompileToken(s4, Entry(k.kthen)).st;
    IfElseRun(st, s1, s2, s3, s4, s5, k, Tokens(k, p), Tokens(k, q));
    FetchKept(s1.mem, s2.mem, a + 4, b, d, t + 2, t);
    FetchKept(s1.mem, s2.mem, a + 4, b, d, t + 2, a);
    SameButTrans(st.mem, s1.mem, s2.mem, a, a + 4, b, d, t + 2, t);
    var o := ElseMemory(s2.mem, st.mem, c, Code(c, p, a + 4), a, b, t, d, k.kelse);
    assert s3.mem == o;
    var before := [c.jumpIf, b + 4] + Code(c, p, a + 4);
    CodeKept(s3.mem, s4.mem, b + 4, z, d, t + 2, a, before);
    FetchKept(s3.mem, s4.mem, b + 4, z, d, t + 2, b);
    FetchKept(s3.mem, s4.mem, b + 4, z, d, t + 2, t);
    SameButTrans(st.mem, s3.mem, s4.mem, a, b + 4, z, d, t + 2, t);
    var o' := ThenMemory(s4.mem, st.mem, c, before, Code(c, q, b + 4), a, b, z, t, d, k.kthen);
    assert s5.mem == o';
  }

  lemma IfElseRun(st: State, s1: State, s2: State, s3: State, s4: State, s5: State, k: Keywords, xs: seq<Token>,
      ys: seq<Token>)
    requires StacksOk(st) && StacksOk(s2) && StacksOk(s1) && StacksOk(s3) && StacksOk(s4)
    requires Fetch16(st.mem, LOC_STATE) == Fetch16(s2.mem, LOC_STATE) == Fetch16(s4.mem, LOC_STATE) == COMPILING
    requires CompileToken(st, Entry(k.kif)).Next? && s1 == CompileToken(st, Entry(k.kif)).st
    requires CompileTokens(s1, xs) == Next(s2, s2.ip)
    requires CompileToken(s2, Entry(k.kelse)).Next? && s3 == CompileToken(s2, Entry(k.kelse)).st
    requires CompileTokens(s3, ys) == Next(s4, s4.ip)
    requires CompileToken(s4, Entry(k.kthen)).Next? && s5 == CompileToken(s4, Entry(k.kthen)).st
    ensures CompileTokens(st, [Entry(k.kif)] + xs + [Entry(k.kelse)] + ys + [Entry(k.kthen)]) == Next(s5, s5.ip)
  {
    hide Fetch16, CompileTokens, CompileToken;
    OneToken(st, Entry(k.kif));
    CompileAppend(st, [Entry(k.kif)], xs);
    OneToken(s2, Entry(k.kelse));
    CompileAppend(st, [Entry(k.kif)] + xs, [Entry(k.kelse)]);
    CompileAppend(st, [Entry(k.kif)] + xs + [Entry(k.kelse)], ys);
    OneToken(s4, Entry(k.kthen));
    CompileAppend(st, [Entry(k.kif)] + xs + [Entry(k.kelse)] + ys, [Entry(k.kthen)]);
  }

  lemma LoopCase(st: State, s1: State, s2: State, c: Core, k: Keywords, base: int, p: Body) returns (s3: State)
    requires Compiling(st, c, k, base) && !Full(st.control)
    requires Here(st.mem) + Size(p) + 4 <= SPACE_TOP
    requires CompileToken(st, Entry(k.kbegin)).Next? && s1 == CompileToken(st, Entry(k.kbegin)).st
    requires Compiling(s1, c, k, base) && Correct(s1, s2, c, k, p) && Compiling(s2, c, k, base)
    ensures Correct(st, s3, c, k, Loop(p))
  {
    hide Fetch16, Store16, SameBut, CompileTokens, CompileToken, CodeAt, Dictionary, Code, Size, Tokens;
    var a, b, d, t := Here(st.mem), Here(s2.mem), st.data.where, st.control.where;
    LoopShape(c, k, p, a);
    BeginToken(st, c, k, base);
    AgainToken(s2, c, k, base);
    s3 := CompileToken(s2, Entry(k.kagain)).st;
    OneToken(st, Entry(k.kbegin));
    CompileAppend(st, [Entry(k.kbegin)], Tokens(k, p));
    CompileAppend(st, [Entry(k.kbegin)] + Tokens(k, p), [Entry(k.kagain)]);
    OneToken(s2, Entry(k.kagain));
    FetchKept(s1.mem, s2.mem, a, b, d, t + 2, t);
    SameButTrans(st.mem, s1.mem, s2.mem, a, a, b, d, t + 2, t);
    SameButTrans(st.mem, s2.mem, s3.mem, a, b, b + 4, d, t + 2, t);
    CodeKept(s2.mem, s3.mem, b, b + 4, d, t + 2, a, Code(c, p, a));
    CodeSplit(s3.mem, a, Code(c, p, a), [c.jump, a]);
  }

  lemma StillFits(st: State, s: State, c: Core, k: Keywords, base: int, b: int, p: Body)
    requires Compiling(st, c, k, base) && Emitted(st, s, Here(st.mem), b) && Here(st.mem) <= b
    requires WordsOk(st.mem, p, base)
    ensures Compiling(s, c, k, base) && WordsOk(s.mem, p, base)
  {
    hide Fetch16, SameOn, SameBut, Dictionary, WordsOk;
    StillCompiling(st, s, c, k, base, b);
    Protected(st.mem, s.mem, Here(st.mem), b, st.data.where, st.control.where, base);
    WordsFrame(st.mem, s.mem, p, base);
  }

  lemma {:induction false} NothingCase(st: State, c: Core, k: Keywords)
    requires StacksOk(st) && Here(st.mem) <= SPACE_TOP
    ensures Correct(st, st, c, k, Nothing)
  {
  }

  lemma {:induction false} LeafCase(st: State, s: State, c: Core, k: Keywords, p: Body, t: Token)
    requires StacksOk(st) && Fetch16(st.mem, LOC_STATE) == COMPILING
    requires p.Plain? || p.Number?
    requires t == if p.Plain? then Entry(p.xt) else Numeral(p.n)
    requires CompileToken(st, t).Next? && s == CompileToken(st, t).st && s.control == st.control
    requires Emitted(st, s, Here(st.mem), Here(st.mem) + Size(p))
    requires CodeAt(s.mem, Here(st.mem), if p.Plain? then [p.xt] else [c.push, p.n])
    ensures Correct(st, s, c, k, p)
  {
    hide CompileToken, CompileTokens, CodeAt, Fetch16, SameBut;
    OneToken(st, t);
  }

  lemma ElseState(st: State, s1: State, s2: State, c: Core, k: Keywords, base: int, p: Body, q: Body)
    returns (s3: State)
    requires Compiling(st, c, k, base) && !Full(st.control)
    requires Here(st.mem) + 8 + Size(p) + Size(q) <= SPACE_TOP
    requires CompileToken(st, Entry(k.kif)).Next? && s1 == CompileToken(st, Entry(k.kif)).st
    requires Compiling(s1, c, k, base) && Correct(s1, s2, c, k, p) && Compiling(s2, c, k, base)
    ensures CompileToken(s2, Entry(k.kelse)).Next? && s3 == CompileToken(s2, Entry(k.kelse)).st
    ensures Emitted(st, s3, Here(st.mem), Here(st.mem) + 8 + Size(p))
    ensures s3.control == st.control.(where := st.control.where + 2)
  {
    hide Fetch16, Store16, SameBut, CompileTokens, CompileToken, CodeAt, Dictionary, Code, Size, Tokens;
    var a, b, d, t := Here(st.mem), Here(s2.mem), st.data.where, st.control.where;
    IfToken(st, c, k, base);
    ElseToken(s2, c, k, base);
    s3 := CompileToken(s2, Entry(k.kelse)).st;
    FetchKept(s1.mem, s2.mem, a + 4, b, d, t + 2, t);
    FetchKept(s1.mem, s2.mem, a + 4, b, d, t + 2, a);
    SameButTrans(st.mem, s1.mem, s2.mem, a, a + 4, b, d, t + 2, t);
    var o := ElseMemory(s2.mem, st.mem, c, Code(c, p, a + 4), a, b, t, d, k.kelse);
    assert s3.mem == o;
  }

  // What the parts of a body that fits need.
  lemma {:induction false} PartsFit(st: State, p: Body, base: nat)
    requires Fits(st, p, base)
    ensures p.Plain? ==> !IsImmediate(st.mem, p.xt) && Size(p) == 2
    ensures p.Number? ==> Size(p) == 4
    ensures p.Both? ==>
      && Size(p) == Size(p.first) + Size(p.second)
      && Nesting(p.first) <= Nesting(p) && Nesting(p.second) <= Nesting(p)
      && WordsOk(st.mem, p.first, base) && WordsOk(st.mem, p.second, base)
    ensures p.IfThen? ==>
      && Size(p) == 4 + Size(p.yes) && Nesting(p) == 1 + Nesting(p.yes) && WordsOk(st.mem, p.yes, base)
    ensures p.IfElse? ==>
      && Size(p) == 8 + Size(p.yes) + Size(p.no)
      && Nesting(p.yes) + 1 <= Nesting(p) && Nesting(p.no) + 1 <= Nesting(p)
      && WordsOk(st.mem, p.yes, base) && WordsOk(st.mem, p.no, base)
    ensures p.Loop? ==>
      && Size(p) == Size(p.body) + 4 && Nesting(p) == 1 + Nesting(p.body) && WordsOk(st.mem, p.body, base)
  {
  }

  // Every well-nested body compiles, token by token, into its threaded code;
  // the control stack is back where it was and nothing else has moved.
  lemma {:induction false} CompileBody(st: State, c: Core, k: Keywords, base: int, p: Body) returns (s: State)
    requires Compiling(st, c, k, base) && Fits(st, p, base)
    ensures Correct(st, s, c, k, p) && Compiling(s, c, k, base)
    decreases p
  {
    hide Fetch16, SameBut, CompileTokens, CompileToken, CodeAt, Dictionary, Code, Tokens, SameOn;
    hide Size, Nesting, WordsOk;
    var a := Here(st.mem);
    PartsFit(st, p, base);
    match p {
    case Nothing =>
      s := st;
      NothingCase(st, c, k);
    case Plain(xt) =>
      WordToken(st, c, k, base, xt);
      s := CompileToken(st, Entry(xt)).st;
      LeafCase(st, s, c, k, p, Entry(xt));
    case Number(n) =>
      NumberToken(st, c, k, base, n);
      s := CompileToken(st, Numeral(n)).st;
      LeafCase(st, s, c, k, p, Numeral(n));
    case Both(p, q) =>
      var s1 := CompileBody(st, c, k, base, p);
      StillFits(st, s1, c, k, base, a + Size(p), q);
      s := CompileBody(s1, c, k, base, q);
      BothCase(st, s1, s, c, k, p, q);
    case IfThen(p) =>
      IfToken(st, c, k, base);
      var s1 := CompileToken(st, Entry(k.kif)).st;
      StillFits(st, s1, c, k, base, a + 4, p);
      var s2 := CompileBody(s1, c, k, base, p);
      s := IfThenCase(st, s1, s2, c, k, base, p);
    case IfElse(p, q) =>
      IfToken(st, c, k, base);
      var s1 := CompileToken(st, Entry(k.kif)).st;
      StillFits(st, s1, c, k, base, a + 4, p);
      StillFits(st, s1, c, k, base, a + 4, q);
      var s2 := CompileBody(s1, c, k, base, p);
      var s3 := ElseState(st, s1, s2, c, k, base, p, q);
      StillFits(st, s3, c, k, base, a + 8 + Size(p), q);
      var s4 := CompileBody(s3, c, k, base, q);
      s := IfElseCase(st, s1, s2, s3, s4, c, k, base, p, q);
    case Loop(p) =>
      BeginToken(st, c, k, base);
      var s1 := CompileToken(st, Entry(k.kbegin)).st;
      StillFits(st, s1, c, k, base, a, p);
      var s2 := CompileBody(s1, c, k, base, p);
      s := LoopCase(st, s1, s2, c, k, base, p);
    }
    StillCompiling(st, s, c, k, base, a + Size(p));
  }
}
