// The central theorem about running: threaded code, started anywhere in memory
// in any state, gets exactly where the structured meaning says.
module ForthMeaning {
  import opened Dataspace
  import opened ForthState
  import opened ForthWords
  import opened ForthSource
  import opened ForthSemantics
  import opened ForthRun

  // The code [a, b) is being run at return-stack level `level`, or something it
  // called is.
  ghost predicate Inside(s: State, level: int, a: int, b: int) {
    s.ret.where > level || (s.ret.where == level && a <= s.ip < b)
  }

  // The first n states of the run are inside.
  ghost predicate Stays(st: State, n: nat, level: int, a: int, b: int)
    requires StacksOk(st)
  {
    forall k: nat :: k < n ==> Run(st, k).Next? && Inside(Run(st, k).st, level, a, b)
  }

  // How n steps of the machine realise a result: inside [a, b) until then, the
  // run is in the very state of the result, stops as it says, or has gone on
  // for at least `fuel` steps.
  ghost predicate Realises(st: State, n: nat, r: Result, fuel: nat, a: int, b: int)
    requires StacksOk(st)
  {
    && Stays(st, n, st.ret.where, a, b)
    && match r
       case Stopped(why) => Run(st, n) == Stop(why)
       case OutOfFuel => n >= fuel && Run(st, n).Next? && Inside(Run(st, n).st, st.ret.where, a, b)
       case _ => Run(st, n) == Next(r.st, r.st.ip)
  }

  lemma StaysJoin(st: State, i: nat, j: nat, level: int, a: int, b: int)
    requires StacksOk(st) && Stays(st, i, level, a, b) && Run(st, i).Next?
    requires Stays(Run(st, i).st, j, level, a, b)
    ensures Stays(st, i + j, level, a, b)
  {
    hide Run, Inside;
    forall k: nat | k < i + j
      ensures Run(st, k).Next? && Inside(Run(st, k).st, level, a, b)
    {
      if k >= i {
        RunSplit(st, i, k - i);
        assert Run(Run(st, i).st, k - i).Next?;
      }
    }
  }

  lemma StaysOne(st: State, level: int, a: int, b: int)
    requires StacksOk(st) && Inside(st, level, a, b)
    ensures Stays(st, 1, level, a, b)
  {
    hide Step;
  }

  // The next step gives r.
  ghost predicate Steps(st: State, r: Result)
    requires StacksOk(st)
  {
    match Step(st)
    case Stop(why) => r == Stopped(why)
    case Next(s, _) => !r.Stopped? && !r.OutOfFuel? && r.st == s
  }

  lemma OneStep(st: State)
    requires StacksOk(st)
    ensures Run(st, 1) == match Step(st) case Stop(why) => Stop(why) case Next(s, _) => Next(s, s.ip)
  {
    hide Step;
    if Step(st).Next? {
      assert Run(Step(st).st, 0) == Next(Step(st).st, Step(st).st.ip);
    }
  }

  lemma StepRealised(st: State, r: Result, fuel: nat, a: int, b: int)
    requires StacksOk(st) && Steps(st, r) && a <= st.ip < b
    ensures Realises(st, 1, r, fuel, a, b)
  {
    hide Step, Run;
    StaysOne(st, st.ret.where, a, b);
    OneStep(st);
  }

  // One step, to the same level or deeper, and then a realised run.
  lemma AfterStep(st: State, s: State, n: nat, r: Result, fuel: nat, a: int, b: int, a': int, b': int)
    requires StacksOk(st) && Step(st) == Next(s, s.ip) && a <= st.ip < b
    requires Realises(s, n, r, fuel, a', b')
    requires st.ret.where < s.ret.where || (st.ret.where == s.ret.where && a <= a' && b' <= b)
    ensures Realises(st, n + 1, r, fuel + 1, a, b) && Realises(st, n + 1, r, fuel, a, b)
  {
    hide Step, Run;
    StaysOne(st, st.ret.where, a, b);
    OneStep(st);
    StaysJoin(st, 1, n, st.ret.where, a, b);
    RunSplit(st, 1, n);
  }

  // A realised run to t, and then one from t.
  lemma RealisesJoin(st: State, i: nat, t: State, j: nat, r: Result, fuel: nat, fuel': nat, a: int, b: int)
    requires StacksOk(st) && StacksOk(t) && Realises(st, i, Normal(t), fuel, a, b) && t.ret == st.ret
    requires Realises(t, j, r, fuel', a, b) && fuel' >= fuel
    ensures Realises(st, i + j, r, fuel, a, b)
  {
    hide Run, Inside;
    StaysJoin(st, i, j, st.ret.where, a, b);
    RunSplit(st, i, j);
  }

  lemma RealisesWiden(st: State, n: nat, r: Result, fuel: nat, a: int, b: int, a': int, b': int)
    requires StacksOk(st) && Realises(st, n, r, fuel, a, b) && a' <= a && b <= b'
    ensures Realises(st, n, r, fuel, a', b')
  {
    hide Run;
  }

  // The cell at ip names xt.
  predicate AtWord(st: State, xt: cell) {
    Fetch16(st.mem, st.ip) == xt
  }

  // Code below b names what it named in m.
  lemma StillNames(st: State, m: Memory, b: cell, xt: cell)
    requires Intact(m, b, st) && SYSTEM_END <= st.ip && st.ip + 2 <= b && Fetch16(m, st.ip) == xt
    ensures AtWord(st, xt)
  {
    hide Fetch16, SameOn;
    FetchSame(m, st.mem, SYSTEM_END, b, st.ip);
  }

  lemma NamedStep(st: State, xt: cell)
    requires Live(st) && AtWord(st, xt)
    ensures Step(st) == match Perform(st, xt) case Stop(why) => Stop(why) case Next(s, ip) => Next(s.(ip := ip), ip)
  {
    hide Fetch16, Perform;
  }

  // The step of a control-flow word of the vocabulary.
  lemma OpStep(st: State, m: Memory, b: cell, xt: cell, op: nat)
    requires Live(st) && Intact(m, b, st) && AtWord(st, xt) && HasOp(m, xt, op, b) && IsFlowOp(op)
    ensures Step(st)
            == match FlowWord(st, op, xt) case Stop(why) => Stop(why) case Next(s, ip) => Next(s.(ip := ip), ip)
  {
    hide Fetch16, SameOn, FlowWord, CodeField;
    NamedStep(st, xt);
    HeaderKept(m, st.mem, SYSTEM_END, b, xt);
  }

  // The code of a structure, taken apart.

  lemma {:induction false} BothCode(m: Memory, c: Core, p: Body, q: Body, a: nat)
    requires CodeAt(m, a, Code(c, Both(p, q), a))
    ensures Size(Both(p, q)) == Size(p) + Size(q)
    ensures CodeAt(m, a, Code(c, p, a)) && CodeAt(m, a + Size(p), Code(c, q, a + Size(p)))
  {
    hide CodeAt, Code, Size;
    BothShape(c, Keywords(0, 0, 0, 0, 0), p, q, a);
    CodeSplit(m, a, Code(c, p, a), Code(c, q, a + Size(p)));
  }

  lemma {:induction false} IfThenCode(m: Memory, c: Core, p: Body, a: nat)
    requires CodeAt(m, a, Code(c, IfThen(p), a))
    ensures Size(IfThen(p)) == 4 + Size(p) && a + 4 + Size(p) <= SPACE_TOP
    ensures Fetch16(m, a) == c.jumpIf && Fetch16(m, a + 2) == a + 4 + Size(p) && CodeAt(m, a + 4, Code(c, p, a + 4))
  {
    hide Fetch16, Code, Size;
    var t := [c.jumpIf, a + 4 + Size(p)];
    IfThenShape(c, Keywords(0, 0, 0, 0, 0), p, a);
    CodeSplit(m, a, t, Code(c, p, a + 4));
    assert t[0] == c.jumpIf && t[1] == a + 4 + Size(p);
  }

  lemma {:induction false} IfElseCode(m: Memory, c: Core, p: Body, q: Body, a: nat)
    requires CodeAt(m, a, Code(c, IfElse(p, q), a))
    ensures Size(IfElse(p, q)) == 8 + Size(p) + Size(q) && a + 8 + Size(p) + Size(q) <= SPACE_TOP
    ensures Fetch16(m, a) == c.jumpIf && Fetch16(m, a + 2) == a + 8 + Size(p) && CodeAt(m, a + 4, Code(c, p, a + 4))
    ensures var b := a + 4 + Size(p);
            && Fetch16(m, b) == c.jump && Fetch16(m, b + 2) == b + 4 + Size(q)
            && CodeAt(m, b + 4, Code(c, q, b + 4))
  {
    hide Fetch16, Code, Size;
    var b := a + 4 + Size(p);
    var t := [c.jumpIf, a + 8 + Size(p)];
    var u := [c.jump, a + 8 + Size(p) + Size(q)];
    IfElseShape(c, Keywords(0, 0, 0, 0, 0), p, q, a);
    CodeSplit(m, a, t + Code(c, p, a + 4) + u, Code(c, q, b + 4));
    CodeSplit(m, a, t + Code(c, p, a + 4), u);
    CodeSplit(m, a, t, Code(c, p, a + 4));
    assert t[0] == c.jumpIf && t[1] == a + 8 + Size(p);
    assert u[0] == c.jump && u[1] == b + 4 + Size(q);
  }

  lemma {:induction false} LoopCode(m: Memory, c: Core, p: Body, a: nat)
    requires CodeAt(m, a, Code(c, Loop(p), a))
    ensures Size(Loop(p)) == Size(p) + 4 && a + Size(p) + 4 <= SPACE_TOP
    ensures CodeAt(m, a, Code(c, p, a)) && Fetch16(m, a + Size(p)) == c.jump && Fetch16(m, a + Size(p) + 2) == a
  {
    hide Fetch16, Code, Size;
    var t := [c.jump, a];
    LoopShape(c, Keywords(0, 0, 0, 0, 0), p, a);
    CodeSplit(m, a, Code(c, p, a), t);
    assert t[0] == c.jump && t[1] == a;
  }

  lemma {:induction false} LeafCode(m: Memory, c: Core, p: Body, a: nat)
    requires (p.Plain? || p.Number?) && CodeAt(m, a, Code(c, p, a))
    ensures p.Plain? ==> Fetch16(m, a) == p.xt && Size(p) == 2 && a + 2 <= SPACE_TOP
    ensures p.Number? ==> Fetch16(m, a) == c.push && Fetch16(m, a + 2) == p.n && Size(p) == 4 && a + 4 <= SPACE_TOP
  {
    hide Fetch16;
    if p.Number? {
      assert [c.push, p.n][0] == c.push && [c.push, p.n][1] == p.n;
    } else {
      assert [p.xt][0] == p.xt;
    }
  }

  // The steps of literals and branches.

  lemma Operand(st: State, m: Memory, b: cell)
    requires Live(st) && Intact(m, b, st) && SYSTEM_END <= st.ip && st.ip + 4 <= b
    ensures Fetch16(st.mem, Wrap(st.ip + 2)) == Fetch16(m, st.ip + 2)
    ensures Wrap(st.ip + 2) == st.ip + 2 && Wrap(st.ip + 4) == st.ip + 4
  {
    hide Fetch16, SameOn;
    FetchSame(m, st.mem, SYSTEM_END, b, st.ip + 2);
  }

  lemma JumpStep(st: State, m: Memory, b: cell, c: Core)
    requires Live(st) && Intact(m, b, st) && SYSTEM_END <= st.ip && st.ip + 4 <= b
    requires Fetch16(m, st.ip) == c.jump && HasOp(m, c.jump, OP_JUMP, b)
    ensures Step(st) == Next(GoTo(st, Fetch16(m, st.ip + 2)), Fetch16(m, st.ip + 2))
  {
    hide Fetch16, SameOn, CodeField;
    StillNames(st, m, b, c.jump);
    OpStep(st, m, b, c.jump, OP_JUMP);
    Operand(st, m, b);
    WrapSum(Fetch16(m, st.ip + 2), 0, 0);
  }

  lemma JumpIfStep(st: State, m: Memory, b: cell, c: Core)
    requires Live(st) && Intact(m, b, st) && SYSTEM_END <= st.ip && st.ip + 4 <= b
    requires Fetch16(m, st.ip) == c.jumpIf && HasOp(m, c.jumpIf, OP_JUMP_IF, b)
    ensures Empty(st.data) ==> Steps(st, Recover(m, b, st))
    ensures !Empty(st.data) ==>
              var s := Tested(st, if TopData(st) == 0 then Fetch16(m, st.ip + 2) else st.ip + 4);
              Step(st) == Next(s, s.ip)
  {
    hide Fetch16, SameOn, CodeField, AbortState;
    StillNames(st, m, b, c.jumpIf);
    OpStep(st, m, b, c.jumpIf, OP_JUMP_IF);
    Operand(st, m, b);
    WrapSum(Fetch16(m, st.ip + 2), 0, 0);
  }

  lemma PushStep(st: State, m: Memory, b: cell, c: Core)
    requires Live(st) && Intact(m, b, st) && SYSTEM_END <= st.ip && st.ip + 4 <= b
    requires Fetch16(m, st.ip) == c.push && HasOp(m, c.push, OP_PUSH, b)
    ensures Full(st.data) ==> Steps(st, Recover(m, b, st))
    ensures !Full(st.data) ==> Steps(st, Normal(GoTo(PushData(st, Fetch16(m, st.ip + 2)), st.ip + 4)))
  {
    hide Fetch16, Store16, SameOn, CodeField, AbortState;
    StillNames(st, m, b, c.push);
    OpStep(st, m, b, c.push, OP_PUSH);
    Operand(st, m, b);
  }

  // Calls.

  // The EXIT at the end of a definition.
  lemma ReturnStep(st: State, m: Memory, b: cell, c: Core)
    requires Live(st) && Intact(m, b, st) && SYSTEM_END <= st.ip && st.ip + 2 <= b && !Empty(st.ret)
    requires Fetch16(m, st.ip) == c.exit && HasOp(m, c.exit, OP_EXIT, b)
    ensures Step(st) == Next(Return(st), Return(st).ip)
  {
    hide Fetch16, SameOn, CodeField;
    StillNames(st, m, b, c.exit);
    OpStep(st, m, b, c.exit, OP_EXIT);
  }

  // st1 is st, or st after EXECUTE took its operand; what the next step of st
  // does is what calling xt in st1 does.
  ghost predicate Calls(st: State, st1: State, xt: cell, op: nat)
    requires StacksOk(st) && StacksOk(st1)
  {
    && st1.ip == st.ip && st1.ret == st.ret && st1.recover == st.recover
    && var o := FlowWord(st1, op, xt);
       o.Next? && Step(st) == Next(o.st.(ip := o.ip), o.ip)
  }

  lemma NamedCalls(st: State, m: Memory, b: cell, xt: cell, op: nat)
    requires Live(st) && Intact(m, b, st) && AtWord(st, xt)
    requires HasOp(m, xt, op, b) && IsEntering(op)
    ensures Calls(st, st, xt, op)
  {
    hide Fetch16, Store16, SameOn, CodeField, AbortState, ParameterField, DoesCode;
    OpStep(st, m, b, xt, op);
  }

  lemma ExecuteCalls(st: State, m: Memory, b: cell, e: cell, xt: cell, op: nat)
    requires Live(st) && Intact(m, b, st) && AtWord(st, e)
    requires CodeField(st.mem, e) == OP_EXECUTE && !Empty(st.data) && TopData(st) == xt
    requires HasOp(m, xt, op, b) && IsEntering(op)
    ensures Calls(st, DropData(st), xt, op)
  {
    hide Fetch16, Store16, SameOn, CodeField, AbortState, ParameterField, DoesCode;
    NamedStep(st, e);
    HeaderKept(m, st.mem, SYSTEM_END, b, xt);
    var s := DropData(st);
    assert Perform(s, xt) == Simple(s, op, xt) == FlowWord(s, op, xt);
    assert Perform(st, e) == Execute(st);
  }

  // Running a called body: p at `code`, in s, the state after the call.
  lemma {:induction false} RunCall(st: State, st1: State, s: State, m: Memory, b: cell, w: Words, c: Core, p: Body,
      fuel: nat)
    returns (n: nat)
    requires Vocabulary(m, w, c, b) && Live(st) && Live(st1) && Live(s) && Intact(m, b, s)
    requires Step(st) == Next(s, s.ip) && st1.ip == st.ip && st1.ret == st.ret
    requires s.ret.where == st1.ret.where + 2 && s.recover == st1.recover && Callable(m, c, p, s.ip, b)
    ensures Realises(st, n, MeanCall(m, b, w, p, st1, s, fuel), fuel, st.ip, st.ip + 2)
    decreases fuel, 0
  {
    hide Fetch16, SameOn, CodeAt, Step, Code, Size, Below, HasOp, Realises, DropReturn, TopReturn, Intact, Mean;
    if fuel == 0 {
      n := 0;
      StartRealised(st, st.ip, st.ip + 2);
    } else {
      var z := s.ip + Size(p);
      CodeSplit(m, s.ip, Code(c, p, s.ip), [c.exit]);
      var r := Mean(m, b, w, p, s, fuel - 1);
      n := RunBody(s, m, b, w, c, p, s.ip, fuel - 1);
      if r.Normal? {
        assert Fetch16(m, z) == c.exit by { ExitHere(m, z, c.exit); }
        WrapSum(s.ip, 0, 0);
        ReturnStep(r.st, m, b, c);
        n := ReturnsAfter(s, n, r.st, fuel - 1, s.ip, z);
        z := z + 2;
        r := Normal(Return(r.st));
      }
      if r.Normal? || r.Left? {
        SameState(s, n, r, Back(st1, r.st), fuel - 1, s.ip, z);
        r := Back(st1, r.st);
      }
      AfterStep(st, s, n, r, fuel - 1, st.ip, st.ip + 2, s.ip, z);
      n := n + 1;
    }
  }

  // Which kind of state it is makes no difference to the run.
  lemma SameState(st: State, n: nat, r: Result, r': Result, fuel: nat, a: int, b: int)
    requires StacksOk(st) && Realises(st, n, r, fuel, a, b)
    requires (r.Normal? || r.Left?) && (r'.Normal? || r'.Astray?) && r'.st == r.st
    ensures Realises(st, n, r', fuel, a, b)
  {
    hide Run, Stays;
  }

  lemma ExitHere(m: Memory, a: nat, exit: nat)
    requires CodeAt(m, a, [exit])
    ensures Fetch16(m, a) == exit
  {
    assert [exit][0] == exit;
  }

  // The body came to its end in t, and the EXIT there is performed.
  lemma ReturnsAfter(s: State, n: nat, t: State, fuel: nat, a: int, z: int) returns (n': nat)
    requires StacksOk(s) && Realises(s, n, Normal(t), fuel, a, z) && Live(t) && t.ret == s.ret && t.ip == z && a <= z
    requires !Empty(t.ret) && Step(t) == Next(Return(t), Return(t).ip)
    ensures Realises(s, n', Normal(Return(t)), fuel, a, z + 2)
  {
    hide Run, Step;
    n' := n + 1;
    RealisesWiden(s, n, Normal(t), fuel, a, z, a, z + 2);
    StepRealised(t, Normal(Return(t)), fuel, a, z + 2);
    RealisesJoin(s, n, t, 1, Normal(Return(t)), fuel, fuel, a, z + 2);
  }

  lemma StartRealised(st: State, a: int, b: int)
    requires StacksOk(st) && a <= st.ip < b
    ensures Realises(st, 0, OutOfFuel, 0, a, b)
  {
    hide Step;
  }

  // Calling a word of the vocabulary, named in the code or taken from the stack.
  lemma {:induction false} RunEnter(st: State, st1: State, m: Memory, b: cell, w: Words, c: Core, xt: cell, fuel: nat)
    returns (n: nat)
    requires Vocabulary(m, w, c, b) && Live(st) && Live(st1) && Intact(m, b, st1)
    requires xt in w && Calls(st, st1, xt, CodeField(m, xt))
    ensures Realises(st, n, MeanEnter(m, b, w, xt, st1, fuel), fuel, st.ip, st.ip + 2)
    decreases fuel, 1
  {
    hide Fetch16, Store16, SameOn, Step, CodeField, ParameterField, DoesCode, AbortState, Realises, Callable, HasOp;
    assert Placed(m, w, c, xt, b);
    var z := st.ip + 2;
    n := 1;
    match w[xt]
    case Threaded(p) =>
      if Full(st1.ret) {
        StepRealised(st, Recover(m, b, st1), fuel, st.ip, z);
      } else {
        PushIntact(m, b, st1, Wrap(st.ip + 2));
        var s := PushReturn(st1, Wrap(st.ip + 2));
        HeaderKept(m, s.mem, SYSTEM_END, b, xt);
        n := RunCall(st, st1, s.(ip := ParameterField(m, xt)), m, b, w, c, p, fuel);
      }
    case Defined(field, code, p) =>
      HeaderKept(m, st1.mem, SYSTEM_END, b, xt);
      if Full(st1.data) {
        StepRealised(st, Recover(m, b, st1), fuel, st.ip, z);
      } else {
        PushIntact(m, b, st1, field);
        var s1 := PushData(st1, field);
        if Full(s1.ret) {
          StepRealised(st, Recover(m, b, s1), fuel, st.ip, z);
        } else {
          PushIntact(m, b, s1, Wrap(st.ip + 2));
          var s := PushReturn(s1, Wrap(st.ip + 2));
          HeaderKept(m, s.mem, SYSTEM_END, b, xt);
          n := RunCall(st, st1, s.(ip := code), m, b, w, c, p, fuel);
        }
      }
  }

  // Performing any word a body names.
  lemma {:induction false} RunWord(st: State, m: Memory, b: cell, w: Words, c: Core, xt: cell, fuel: nat)
    returns (n: nat)
    requires Vocabulary(m, w, c, b) && Live(st) && Intact(m, b, st) && AtWord(st, xt)
    ensures Realises(st, n, MeanWord(m, b, w, xt, st, fuel), fuel, st.ip, st.ip + 2)
    decreases fuel, 2
  {
    hide Fetch16, SameOn, Step, CodeField, ParameterField, DoesCode, AbortState, Realises, Simple, Callable, HasOp;
    hide MeanEnter, Calls, AtWord;
    if xt in w {
      HasCall(m, w, c, xt, b);
      NamedCalls(st, m, b, xt, CodeField(m, xt));
      n := RunEnter(st, st, m, b, w, c, xt, fuel);
    } else if CodeField(st.mem, xt) == OP_EXECUTE && !Empty(st.data) && TopData(st) in w {
      HasCall(m, w, c, TopData(st), b);
      ExecuteCalls(st, m, b, xt, TopData(st), CodeField(m, TopData(st)));
      n := RunEnter(st, DropData(st), m, b, w, c, TopData(st), fuel);
    } else {
      n := 1;
      NamedStep(st, xt);
      if CodeField(st.mem, xt) == OP_EXIT && !Empty(st.ret) {
        assert Perform(st, xt) == Exit(st) by { ExitPerforms(st, xt); }
      }
      StepRealised(st, MeanWord(m, b, w, xt, st, fuel), fuel, st.ip, st.ip + 2);
    }
  }

  lemma ExitPerforms(st: State, xt: cell)
    requires StacksOk(st) && CodeField(st.mem, xt) == OP_EXIT
    ensures Perform(st, xt) == Exit(st)
  {
    hide Fetch16, CodeField, Exit;
  }

  lemma HasCall(m: Memory, w: Words, c: Core, xt: cell, b: int)
    requires Vocabulary(m, w, c, b) && xt in w
    ensures HasOp(m, xt, CodeField(m, xt), b) && IsEntering(CodeField(m, xt))
  {
    hide CodeField, ParameterField, DoesCode, Callable;
    assert Placed(m, w, c, xt, b);
  }

  // The theorem: code compiled from p, run, realises the meaning of p.
  lemma {:induction false} RunBody(st: State, m: Memory, b: cell, w: Words, c: Core, p: Body, a: cell, fuel: nat)
    returns (n: nat)
    requires Vocabulary(m, w, c, b) && Live(st) && Intact(m, b, st)
    requires st.ip == a && SYSTEM_END <= a && a + Size(p) <= b && CodeAt(m, a, Code(c, p, a))
    ensures Realises(st, n, Mean(m, b, w, p, st, fuel), fuel, a, a + Size(p))
    decreases fuel, 3, p
  {
    hide Fetch16, SameOn, CodeAt, Step, Code, CodeField, MeanWord, MeanFork, MeanLoop, AbortState, Realises, Run, HasOp;
    hide Below;
    match p
    case Nothing =>
      n := 0;
      NothingRealised(st, a, fuel);
    case Plain(xt) =>
      LeafCode(m, c, p, a);
      StillNames(st, m, b, xt);
      n := RunWord(st, m, b, w, c, xt, fuel);
    case Number(v) =>
      LeafCode(m, c, p, a);
      PushStep(st, m, b, c);
      StepRealised(st, Mean(m, b, w, p, st, fuel), fuel, a, a + 4);
      n := 1;
    case Both(p1, p2) => n := RunBoth(st, m, b, w, c, p1, p2, a, fuel);
    case IfThen(p1) => n := RunIfThen(st, m, b, w, c, p1, a, fuel);
    case IfElse(p1, p2) => n := RunIfElse(st, m, b, w, c, p1, p2, a, fuel);
    case Loop(p1) => n := RunLoop(st, m, b, w, c, p1, a, fuel);
  }

  lemma NothingRealised(st: State, a: cell, fuel: nat)
    requires StacksOk(st) && st.ip == a
    ensures Realises(st, 0, Normal(st), fuel, a, a)
  {
    hide Step;
  }

  lemma {:induction false} RunBoth(st: State, m: Memory, b: cell, w: Words, c: Core, p1: Body, p2: Body, a: cell,
      fuel: nat)
    returns (n: nat)
    requires Vocabulary(m, w, c, b) && Live(st) && Intact(m, b, st)
    requires st.ip == a && SYSTEM_END <= a && a + Size(Both(p1, p2)) <= b && CodeAt(m, a, Code(c, Both(p1, p2), a))
    ensures Realises(st, n, Mean(m, b, w, Both(p1, p2), st, fuel), fuel, a, a + Size(Both(p1, p2)))
    decreases fuel, 3, Both(p1, p2), 0
  {
    hide Fetch16, SameOn, CodeAt, Code, Vocabulary, Realises, Intact, MeanWord, MeanFork, MeanLoop;
    var z := a + Size(Both(p1, p2));
    BothCode(m, c, p1, p2, a);
    var r1 := Mean(m, b, w, p1, st, fuel);
    n := RunBody(st, m, b, w, c, p1, a, fuel);
    RealisesWiden(st, n, r1, fuel, a, a + Size(p1), a, z);
    if r1.Normal? {
      var t := r1.st;
      var r := Mean(m, b, w, p2, t, fuel);
      var n2 := RunBody(t, m, b, w, c, p2, a + Size(p1), fuel);
      RealisesWiden(t, n2, r, fuel, a + Size(p1), z, a, z);
      RealisesJoin(st, n, t, n2, r, fuel, fuel, a, z);
      n := n + n2;
    }
  }

  lemma {:induction false} RunIfThen(st: State, m: Memory, b: cell, w: Words, c: Core, p1: Body, a: cell, fuel: nat)
    returns (n: nat)
    requires Vocabulary(m, w, c, b) && Live(st) && Intact(m, b, st)
    requires st.ip == a && SYSTEM_END <= a && a + Size(IfThen(p1)) <= b && CodeAt(m, a, Code(c, IfThen(p1), a))
    ensures Realises(st, n, Mean(m, b, w, IfThen(p1), st, fuel), fuel, a, a + Size(IfThen(p1)))
    decreases fuel, 3, IfThen(p1), 0
  {
    hide Fetch16, SameOn, CodeAt, Code, Below, HasOp, Realises, Intact, MeanWord, MeanFork, MeanLoop, Step;
    var z := a + Size(IfThen(p1));
    IfThenCode(m, c, p1, a);
    JumpIfStep(st, m, b, c);
    if Empty(st.data) || TopData(st) == 0 {
      StepRealised(st, Mean(m, b, w, IfThen(p1), st, fuel), fuel, a, z);
      n := 1;
    } else {
      var s := Tested(st, a + 4);
      n := RunBody(s, m, b, w, c, p1, a + 4, fuel);
      AfterStep(st, s, n, Mean(m, b, w, p1, s, fuel), fuel, a, z, a + 4, z);
      n := n + 1;
    }
  }

  lemma {:induction false} RunIfElse(st: State, m: Memory, b: cell, w: Words, c: Core, p1: Body, p2: Body, a: cell,
      fuel: nat)
    returns (n: nat)
    requires Vocabulary(m, w, c, b) && Live(st) && Intact(m, b, st)
    requires st.ip == a && SYSTEM_END <= a && a + Size(IfElse(p1, p2)) <= b && CodeAt(m, a, Code(c, IfElse(p1, p2), a))
    ensures Realises(st, n, MeanFork(m, b, w, p1, p2, st, fuel), fuel, a, a + Size(IfElse(p1, p2)))
    decreases fuel, 3, IfElse(p1, p2), 1
  {
    hide Fetch16, SameOn, CodeAt, Code, Below, HasOp, Realises, Intact, Mean, Step, GoTo, Tested, StacksOk, TopData;
    var z, y := a + Size(IfElse(p1, p2)), a + 4 + Size(p1);
    IfElseCode(m, c, p1, p2, a);
    JumpIfStep(st, m, b, c);
    n := 1;
    if Empty(st.data) {
      StepRealised(st, Recover(m, b, st), fuel, a, z);
    } else {
      var zero := TopData(st) == 0;
      var s := Tested(st, if zero then y + 4 else a + 4);
      if zero {
        n := RunBody(s, m, b, w, c, p2, y + 4, fuel);
        RealisesWiden(s, n, Mean(m, b, w, p2, s, fuel), fuel, y + 4, z, a, z);
      } else {
        n := RunFirst(s, m, b, w, c, p1, p2, a + 4, z, fuel);
        RealisesWiden(s, n, MeanFork(m, b, w, p1, p2, st, fuel), fuel, a + 4, z, a, z);
      }
      AfterStep(st, s, n, MeanFork(m, b, w, p1, p2, st, fuel), fuel, a, z, a, z);
      n := n + 1;
    }
  }

  // The first branch and the jump over the second.
  lemma {:induction false} RunFirst(s: State, m: Memory, b: cell, w: Words, c: Core, p: Body, q: Body, a: cell, z: cell,
      fuel: nat)
    returns (n: nat)
    requires Vocabulary(m, w, c, b) && Live(s) && Intact(m, b, s) && s.ip == a && SYSTEM_END <= a
    requires a + Size(p) + 4 <= z <= b && CodeAt(m, a, Code(c, p, a))
    requires Fetch16(m, a + Size(p)) == c.jump && Fetch16(m, a + Size(p) + 2) == z
    ensures Realises(s, n, match Mean(m, b, w, p, s, fuel) case Normal(t) => Normal(GoTo(t, z)) case r => r, fuel, a, z)
    decreases fuel, 3, IfElse(p, q), 0
  {
    hide Fetch16, SameOn, CodeAt, Code, Below, HasOp, Realises, Intact, Mean, Step, GoTo;
    var r := Mean(m, b, w, p, s, fuel);
    n := RunBody(s, m, b, w, c, p, a, fuel);
    RealisesWiden(s, n, r, fuel, a, a + Size(p), a, z);
    WrapSum(a + Size(p), 0, 0);
    if r.Normal? {
      JumpStep(r.st, m, b, c);
      n := OverElse(s, n, r.st, fuel, a, z);
    }
  }

  // The jump at the end of the first branch.
  lemma OverElse(s: State, n: nat, t: State, fuel: nat, a: int, z: cell) returns (n': nat)
    requires StacksOk(s) && Realises(s, n, Normal(t), fuel, a, z) && StacksOk(t) && t.ret == s.ret && a <= t.ip < z
    requires Step(t) == Next(GoTo(t, z), z)
    ensures Realises(s, n', Normal(GoTo(t, z)), fuel, a, z)
  {
    hide Step, Realises;
    StepRealised(t, Normal(GoTo(t, z)), fuel, a, z);
    RealisesJoin(s, n, t, 1, Normal(GoTo(t, z)), fuel, fuel, a, z);
    n' := n + 1;
  }

  lemma {:induction false} RunLoop(st: State, m: Memory, b: cell, w: Words, c: Core, p1: Body, a: cell, fuel: nat)
    returns (n: nat)
    requires Vocabulary(m, w, c, b) && Live(st) && Intact(m, b, st)
    requires st.ip == a && SYSTEM_END <= a && a + Size(Loop(p1)) <= b && CodeAt(m, a, Code(c, Loop(p1), a))
    ensures Realises(st, n, MeanLoop(m, b, w, p1, st, fuel), fuel, a, a + Size(Loop(p1)))
    decreases fuel, 3, Loop(p1), 0
  {
    hide Fetch16, SameOn, CodeAt, Code, Below, HasOp, Realises, Intact, Mean, Step;
    var z, y := a + Size(Loop(p1)), a + Size(p1);
    LoopCode(m, c, p1, a);
    n := 0;
    if fuel == 0 {
      StartRealised(st, a, z);
    } else {
      var r1 := Mean(m, b, w, p1, st, fuel);
      n := RunBody(st, m, b, w, c, p1, a, fuel);
      RealisesWiden(st, n, r1, fuel, a, y, a, z);
      if r1.Normal? {
        var t := r1.st;
        JumpStep(t, m, b, c);
        var s := GoTo(t, a);
        var r := MeanLoop(m, b, w, p1, s, fuel - 1);
        var n2 := RunLoop(s, m, b, w, c, p1, a, fuel - 1);
        AfterStep(t, s, n2, r, fuel - 1, a, z, a, z);
        RealisesJoin(st, n, t, n2 + 1, r, fuel, fuel, a, z);
        n := n + n2 + 1;
      }
    }
  }
}
