// Running compiled byte code, started anywhere in memory in any state, gets exactly
// where the structured meaning says.
module ByteRun {
  import opened Dataspace
  import opened ByteState
  import opened ByteWords
  import opened ByteSource
  import opened ByteMeaning

  lemma {:induction false} RunSplit(st: State, ans: Answers, i: nat, j: nat)
    requires StacksOk(st) && Run(st, ans, i).Next?
    ensures Run(st, ans, i + j) == Run(Run(st, ans, i).st, ans, j)
    decreases i
  {
    hide Step;
    if i != 0 {
      RunSplit(Step(st, ans).st, ans, i - 1, j);
    }
  }

  // The code [a, b) is being run at return-stack level `level`, or something it
  // called is.
  ghost predicate Inside(s: State, level: int, a: int, b: int) {
    s.ret > level || (s.ret == level && a <= s.ip < b)
  }

  // The first n states of the run are inside.
  ghost predicate Stays(st: State, ans: Answers, n: nat, level: int, a: int, b: int)
    requires StacksOk(st)
  {
    forall k: nat :: k < n ==> Run(st, ans, k).Next? && Inside(Run(st, ans, k).st, level, a, b)
  }

  // How n steps of the machine realise a result: inside [a, b) until then, the run
  // is in the very state of the result, stops as it says, or has gone on for at
  // least `fuel` steps.
  ghost predicate Realises(st: State, ans: Answers, n: nat, r: Result, fuel: nat, a: int, b: int)
    requires StacksOk(st)
  {
    && Stays(st, ans, n, st.ret, a, b)
    && match r
       case Stopped(why) => Run(st, ans, n) == Stop(why)
       case OutOfFuel => n >= fuel && Run(st, ans, n).Next? && Inside(Run(st, ans, n).st, st.ret, a, b)
       case _ => Run(st, ans, n) == Next(r.st)
  }

  lemma StaysJoin(st: State, ans: Answers, i: nat, j: nat, level: int, a: int, b: int)
    requires StacksOk(st) && Stays(st, ans, i, level, a, b) && Run(st, ans, i).Next?
    requires Stays(Run(st, ans, i).st, ans, j, level, a, b)
    ensures Stays(st, ans, i + j, level, a, b)
  {
    hide Run, Inside;
    forall k: nat | k < i + j
      ensures Run(st, ans, k).Next? && Inside(Run(st, ans, k).st, level, a, b)
    {
      if k >= i {
        RunSplit(st, ans, i, k - i);
        assert Run(Run(st, ans, i).st, ans, k - i).Next?;
      }
    }
  }

  lemma StaysOne(st: State, ans: Answers, level: int, a: int, b: int)
    requires StacksOk(st) && Inside(st, level, a, b)
    ensures Stays(st, ans, 1, level, a, b)
  {
    hide Step;
  }

  // The next step gives r.
  ghost predicate Steps(st: State, ans: Answers, r: Result)
    requires StacksOk(st)
  {
    match Step(st, ans)
    case Stop(why) => r == Stopped(why)
    case Next(s) => !r.Stopped? && !r.OutOfFuel? && r.st == s
  }

  lemma OneStep(st: State, ans: Answers)
    requires StacksOk(st)
    ensures Run(st, ans, 1) == Step(st, ans)
  {
    hide Step;
    if Step(st, ans).Next? {
      assert Run(Step(st, ans).st, ans, 0) == Next(Step(st, ans).st);
    }
  }

  lemma StepRealised(st: State, ans: Answers, r: Result, fuel: nat, a: int, b: int)
    requires StacksOk(st) && Steps(st, ans, r) && a <= st.ip < b
    ensures Realises(st, ans, 1, r, fuel, a, b)
  {
    hide Step, Run;
    StaysOne(st, ans, st.ret, a, b);
    OneStep(st, ans);
  }

  // One step, to the same level or deeper, and then a realised run.
  lemma AfterStep(st: State, ans: Answers, s: State, n: nat, r: Result, fuel: nat, a: int, b: int, a': int, b': int)
    requires StacksOk(st) && Step(st, ans) == Next(s) && a <= st.ip < b
    requires Realises(s, ans, n, r, fuel, a', b')
    requires st.ret < s.ret || (st.ret == s.ret && a <= a' && b' <= b)
    ensures Realises(st, ans, n + 1, r, fuel + 1, a, b) && Realises(st, ans, n + 1, r, fuel, a, b)
  {
    hide Step, Run;
    StaysOne(st, ans, st.ret, a, b);
    OneStep(st, ans);
    StaysJoin(st, ans, 1, n, st.ret, a, b);
    RunSplit(st, ans, 1, n);
  }

  // A realised run to t, and then one from t.
  lemma RealisesJoin(st: State, ans: Answers, i: nat, t: State, j: nat, r: Result, fuel: nat, fuel': nat, a: int,
      b: int)
    requires StacksOk(st) && StacksOk(t) && Realises(st, ans, i, Normal(t), fuel, a, b) && t.ret == st.ret
    requires Realises(t, ans, j, r, fuel', a, b) && fuel' >= fuel
    ensures Realises(st, ans, i + j, r, fuel, a, b)
  {
    hide Run, Inside;
    StaysJoin(st, ans, i, j, st.ret, a, b);
    RunSplit(st, ans, i, j);
  }

  lemma RealisesWiden(st: State, ans: Answers, n: nat, r: Result, fuel: nat, a: int, b: int, a': int, b': int)
    requires StacksOk(st) && Realises(st, ans, n, r, fuel, a, b) && a' <= a && b <= b'
    ensures Realises(st, ans, n, r, fuel, a', b')
  {
    hide Run;
  }

  // A body and one more step of its own level.
  lemma AndStep(st: State, ans: Answers, n: nat, t: State, r: Result, fuel: nat, a: int, y: int, z: int)
    requires StacksOk(st) && Realises(st, ans, n, Normal(t), fuel, a, y) && StacksOk(t) && t.ret == st.ret
    requires a <= t.ip < z && y <= z && Steps(t, ans, r)
    ensures Realises(st, ans, n + 1, r, fuel, a, z)
  {
    hide Run, Step, Realises;
    RealisesWiden(st, ans, n, Normal(t), fuel, a, y, a, z);
    StepRealised(t, ans, r, fuel, a, z);
    RealisesJoin(st, ans, n, t, 1, r, fuel, fuel, a, z);
  }

  // The instruction at ip is the one that stands there in m.

  lemma ByteThere(st: State, m: Memory, b: cell, op: byte)
    requires Intact(m, b, st) && DICTIONARY_START <= st.ip < b && CodeAt(m, st.ip, [op])
    ensures Fetch8(st.mem, st.ip) == op
  {
    hide SameOn;
    ByteSame(m, st.mem, DICTIONARY_START, b, st.ip);
    assert m[st.ip..st.ip + 1][0] == op;
  }

  lemma OperandThere(st: State, m: Memory, b: cell, op: byte, v: int)
    requires Intact(m, b, st) && DICTIONARY_START <= st.ip && st.ip + 3 <= b && CodeAt(m, st.ip, Operand(op, v))
    ensures Fetch8(st.mem, st.ip) == op && Fetch16(st.mem, Wrap(st.ip + 1)) == Wrap(v)
  {
    hide SameOn;
    var a := st.ip;
    ByteSame(m, st.mem, DICTIONARY_START, b, a);
    ByteSame(m, st.mem, DICTIONARY_START, b, a + 1);
    ByteSame(m, st.mem, DICTIONARY_START, b, a + 2);
    assert m[a..a + 3][0] == op && m[a..a + 3][1] == Low(v) && m[a..a + 3][2] == High(v);
  }

  lemma NopStep(st: State, m: Memory, b: cell, ans: Answers)
    requires StacksOk(st) && Intact(m, b, st) && DICTIONARY_START <= st.ip < b && CodeAt(m, st.ip, [NOP])
    ensures Step(st, ans) == Next(At(st, st.ip + 1))
  {
    hide Fetch16;
    ByteThere(st, m, b, NOP);
  }

  lemma JumpStep(st: State, m: Memory, b: cell, ans: Answers, v: int)
    requires StacksOk(st) && Intact(m, b, st) && DICTIONARY_START <= st.ip && st.ip + 3 <= b
    requires CodeAt(m, st.ip, Operand(JMP, v))
    ensures Step(st, ans) == Next(At(st, v))
  {
    hide Fetch16;
    OperandThere(st, m, b, JMP, v);
  }

  // A conditional jump: on 0 to v, on anything else to the next instruction.
  lemma TestStep(st: State, m: Memory, b: cell, ans: Answers, v: int)
    requires StacksOk(st) && Intact(m, b, st) && DICTIONARY_START <= st.ip && st.ip + 3 <= b
    requires CodeAt(m, st.ip, Operand(JMP_FALSE, v))
    ensures match PopData(st)
            case Empty => Step(st, ans) == Stop(StackAssertion)
            case Popped(s, x) => Step(st, ans) == Next(if x == 0 then At(s, v) else At(s, st.ip + 3))
  {
    hide Fetch16;
    OperandThere(st, m, b, JMP_FALSE, v);
  }

  lemma ValueStep(st: State, m: Memory, b: cell, ans: Answers, n: cell)
    requires StacksOk(st) && Intact(m, b, st) && DICTIONARY_START <= st.ip && st.ip + 3 <= b
    requires CodeAt(m, st.ip, Operand(LDN, n))
    ensures match PushData(st, n)
            case Stop(why) => Step(st, ans) == Stop(why)
            case Next(s) => Step(st, ans) == Next(At(s, st.ip + 3))
  {
    hide Fetch16, Store16;
    OperandThere(st, m, b, LDN, n);
  }

  lemma LeaveStep(st: State, m: Memory, b: cell, ans: Answers)
    requires StacksOk(st) && Intact(m, b, st) && DICTIONARY_START <= st.ip < b && CodeAt(m, st.ip, [LEAVE])
    requires st.ret != RETURN_BOTTOM
    ensures Step(st, ans) == Next(Return(st))
  {
    hide Fetch16;
    ByteThere(st, m, b, LEAVE);
  }

  // Which kind of state it is makes no difference to the run.
  lemma SameState(st: State, ans: Answers, n: nat, r: Result, r': Result, fuel: nat, a: int, b: int)
    requires StacksOk(st) && Realises(st, ans, n, r, fuel, a, b)
    requires (r.Normal? || r.Left?) && (r'.Normal? || r'.Astray?) && r'.st == r.st
    ensures Realises(st, ans, n, r', fuel, a, b)
  {
    hide Run, Stays;
  }

  lemma StartRealised(st: State, ans: Answers, a: int, b: int)
    requires StacksOk(st) && a <= st.ip < b
    ensures Realises(st, ans, 0, OutOfFuel, 0, a, b)
  {
    hide Step;
  }

  // A called body: p at s.ip, in s, the state after the call, which was to come
  // back to `back`.
  lemma {:induction false} RunCall(st: State, s: State, back: cell, m: Memory, b: cell, w: Words, ans: Answers, p: Body,
      z: int, fuel: nat)
    returns (n: nat)
    requires Vocabulary(m, w, b) && StacksOk(st) && StacksOk(s) && Intact(m, b, s) && st.ip < z
    requires Step(st, ans) == Next(s) && s.ret == st.ret + 2 && Callable(m, p, s.ip, b)
    ensures Realises(st, ans, n, MeanCall(m, b, w, ans, p, st, back, s, fuel), fuel, st.ip, z)
    decreases fuel, 0
  {
    hide Fetch16, SameOn, CodeAt, Step, Code, Size, Realises, Intact, Mean;
    if fuel == 0 {
      n := 0;
      StartRealised(st, ans, st.ip, z);
    } else {
      var y := s.ip + Size(m, p);
      CodeSplit(m, s.ip, Code(m, p, s.ip), [LEAVE]);
      var r := Mean(m, b, w, ans, p, s, fuel - 1);
      n := RunBody(s, m, b, w, ans, p, s.ip, fuel - 1);
      if r.Normal? {
        WrapSum(s.ip, 0, 0);
        LeaveStep(r.st, m, b, ans);
        AndStep(s, ans, n, r.st, Normal(Return(r.st)), fuel - 1, s.ip, y, y + 1);
        n := n + 1;
        y := y + 1;
        r := Normal(Return(r.st));
      }
      if r.Normal? || r.Left? {
        SameState(s, ans, n, r, Back(r.st, back), fuel - 1, s.ip, y);
        r := Back(r.st, back);
      }
      AfterStep(st, ans, s, n, r, fuel - 1, st.ip, z, s.ip, y);
      n := n + 1;
    }
  }

  // Any byte code a body names.
  lemma {:induction false} RunCode(st: State, m: Memory, b: cell, w: Words, ans: Answers, op: byte, width: nat,
      fuel: nat)
    returns (n: nat)
    requires Vocabulary(m, w, b) && StacksOk(st) && Intact(m, b, st) && Fetch8(st.mem, st.ip) == op && width > 0
    ensures Realises(st, ans, n, MeanCode(m, b, w, ans, op, width, st, fuel), fuel, st.ip, st.ip + width)
    decreases fuel, 1
  {
    hide Fetch16, SameOn, Perform, Realises, Callable, Intact;
    var r := MeanCode(m, b, w, ans, op, width, st, fuel);
    var o := Perform(st, op, ans);
    var back := Wrap(st.ip + width);
    n := 1;
    if o.Stop? || !Intact(m, b, o.st) || (o.st.ret == st.ret && o.st.ip == back)
       || (op == LEAVE && o.st.ret + 2 == st.ret) || !(o.st.ret == st.ret + 2 && o.st.ip in w)
    {
      StepRealised(st, ans, r, fuel, st.ip, st.ip + width);
    } else {
      n := RunCall(st, o.st, back, m, b, w, ans, w[o.st.ip], st.ip + width, fuel);
    }
  }

  // The theorem: code compiled from p, run, realises the meaning of p.
  lemma {:induction false} RunBody(st: State, m: Memory, b: cell, w: Words, ans: Answers, p: Body, a: cell, fuel: nat)
    returns (n: nat)
    requires Vocabulary(m, w, b) && StacksOk(st) && Intact(m, b, st)
    requires st.ip == a && DICTIONARY_START <= a && a + Size(m, p) <= b && CodeAt(m, a, Code(m, p, a))
    ensures Realises(st, ans, n, Mean(m, b, w, ans, p, st, fuel), fuel, a, a + Size(m, p))
    decreases fuel, 2, p
  {
    hide Fetch16, Store16, SameOn, CodeAt, Step, Code, MeanCode, MeanThen, MeanFork, MeanLoop, Realises, Run, Callable;
    hide Intact;
    match p
    case Nothing =>
      n := 0;
      NothingRealised(st, ans, a, fuel);
    case Use(xt) =>
      UseThere(st, m, b, xt);
      n := RunCode(st, m, b, w, ans, Named(m, xt), UseSize(m, xt), fuel);
    case Value(v) =>
      ValueThere(m, v, a);
      ValueStep(st, m, b, ans, v);
      StepRealised(st, ans, Mean(m, b, w, ans, p, st, fuel), fuel, a, a + 3);
      n := 1;
    case Both(p1, p2) => n := RunBoth(st, m, b, w, ans, p1, p2, a, fuel);
    case IfThen(p1) => n := RunThen(st, m, b, w, ans, p1, a, fuel);
    case IfElse(p1, p2) => n := RunFork(st, m, b, w, ans, p1, p2, a, fuel);
    case Loop(p1) => n := RunLoop(st, m, b, w, ans, p1, a, fuel);
  }

  lemma NothingRealised(st: State, ans: Answers, a: cell, fuel: nat)
    requires StacksOk(st) && st.ip == a
    ensures Realises(st, ans, 0, Normal(st), fuel, a, a)
  {
    hide Step;
  }

  lemma UseThere(st: State, m: Memory, b: cell, xt: cell)
    requires Intact(m, b, st) && DICTIONARY_START <= st.ip && st.ip + Size(m, Use(xt)) <= b
    requires CodeAt(m, st.ip, Code(m, Use(xt), st.ip))
    ensures Fetch8(st.mem, st.ip) == Named(m, xt) && Size(m, Use(xt)) == UseSize(m, xt) > 0
  {
    hide SameOn, CodeStart, IsInstruction, Intact, CodeAt;
    if IsInstruction(m, xt) {
      ByteThere(st, m, b, Named(m, xt));
    } else {
      OperandThere(st, m, b, ENTER, Called(m, xt));
    }
  }

  lemma ValueThere(m: Memory, v: cell, a: nat)
    requires CodeAt(m, a, Code(m, Value(v), a))
    ensures CodeAt(m, a, Operand(LDN, v)) && Size(m, Value(v)) == 3
  {
  }

  lemma {:induction false} RunBoth(st: State, m: Memory, b: cell, w: Words, ans: Answers, p1: Body, p2: Body, a: cell,
      fuel: nat)
    returns (n: nat)
    requires Vocabulary(m, w, b) && StacksOk(st) && Intact(m, b, st)
    requires st.ip == a && DICTIONARY_START <= a && a + Size(m, Both(p1, p2)) <= b
    requires CodeAt(m, a, Code(m, Both(p1, p2), a))
    ensures Realises(st, ans, n, Mean(m, b, w, ans, Both(p1, p2), st, fuel), fuel, a, a + Size(m, Both(p1, p2)))
    decreases fuel, 2, Both(p1, p2), 0
  {
    hide Fetch16, SameOn, CodeAt, Code, Vocabulary, Realises, Intact, MeanCode, MeanThen, MeanFork, MeanLoop, Size;
    var z := a + Size(m, Both(p1, p2));
    BothShape(m, p1, p2, a);
    CodeSplit(m, a, Code(m, p1, a), Code(m, p2, a + Size(m, p1)));
    WrapSum(a, 0, 0);
    var r1 := Mean(m, b, w, ans, p1, st, fuel);
    n := RunBody(st, m, b, w, ans, p1, a, fuel);
    RealisesWiden(st, ans, n, r1, fuel, a, a + Size(m, p1), a, z);
    if r1.Normal? {
      var t := r1.st;
      var r := Mean(m, b, w, ans, p2, t, fuel);
      var n2 := RunBody(t, m, b, w, ans, p2, a + Size(m, p1), fuel);
      RealisesWiden(t, ans, n2, r, fuel, a + Size(m, p1), z, a, z);
      RealisesJoin(st, ans, n, t, n2, r, fuel, fuel, a, z);
      n := n + n2;
    }
  }

  // A body in a branch, followed by a jump or a NOP that goes on at z.
  lemma {:induction false} RunBranch(s: State, m: Memory, b: cell, w: Words, ans: Answers, whole: Body, p: Body,
      x: cell,
      a: int, end: int, z: cell, fuel: nat)
    returns (n: nat)
    requires Vocabulary(m, w, b) && StacksOk(s) && Intact(m, b, s) && p < whole
    requires s.ip == x && DICTIONARY_START <= x && a <= x && CodeAt(m, x, Code(m, p, x))
    requires var y := x + Size(m, p);
             && y < end && ((CodeAt(m, y, [NOP]) && y < b && z == y + 1)
                || (CodeAt(m, y, Operand(JMP, z)) && y + 3 <= b))
    ensures Realises(s, ans, n,
                     match Mean(m, b, w, ans, p, s, fuel) case Normal(t) => Normal(At(t, z)) case r => r, fuel, a, end)
    decreases fuel, 2, whole, 0, 0
  {
    hide Fetch16, SameOn, CodeAt, Code, Vocabulary, Realises, Intact, Mean, Step;
    var y := x + Size(m, p);
    WrapSum(y, 0, 0);
    WrapSum(z, 0, 0);
    var r := Mean(m, b, w, ans, p, s, fuel);
    n := RunBody(s, m, b, w, ans, p, x, fuel);
    RealisesWiden(s, ans, n, r, fuel, x, y, a, end);
    if r.Normal? {
      if CodeAt(m, y, [NOP]) && z == y + 1 { NopStep(r.st, m, b, ans); } else { JumpStep(r.st, m, b, ans, z); }
      AndStep(s, ans, n, r.st, Normal(At(r.st, z)), fuel, a, end, end);
      n := n + 1;
    }
  }

  lemma {:induction false} RunThen(st: State, m: Memory, b: cell, w: Words, ans: Answers, p1: Body, a: cell, fuel: nat)
    returns (n: nat)
    requires Vocabulary(m, w, b) && StacksOk(st) && Intact(m, b, st)
    requires st.ip == a && DICTIONARY_START <= a && a + Size(m, IfThen(p1)) <= b
    requires CodeAt(m, a, Code(m, IfThen(p1), a))
    ensures Realises(st, ans, n, MeanThen(m, b, w, ans, p1, st, fuel), fuel, a, a + Size(m, IfThen(p1)))
    decreases fuel, 2, IfThen(p1), 1
  {
    hide Fetch16, SameOn, CodeAt, Code, Vocabulary, Realises, Mean, Step, Size;
    IfThenShape(m, p1, a);
    var y := a + 3 + Size(m, p1);
    var z := y + 1;
    CodeSplit(m, a, Operand(JMP_FALSE, y), Code(m, p1, a + 3));
    CodeSplit(m, a, Operand(JMP_FALSE, y) + Code(m, p1, a + 3), [NOP]);
    TestStep(st, m, b, ans, y);
    var r := MeanThen(m, b, w, ans, p1, st, fuel);
    WrapSum(y, 0, 0);
    WrapSum(z, 0, 0);
    n := 1;
    match PopData(st)
    case Empty => StepRealised(st, ans, r, fuel, a, z);
    case Popped(s0, v) =>
      var s := if v == 0 then At(s0, y) else At(s0, a + 3);
      if v == 0 {
        NopStep(s, m, b, ans);
        StepRealised(s, ans, r, fuel, a, z);
      } else {
        WrapSum(a + 3, 0, 0);
        n := RunBranch(s, m, b, w, ans, IfThen(p1), p1, a + 3, a, z, z, fuel);
      }
      AfterStep(st, ans, s, n, r, fuel, a, z, a, z);
      n := n + 1;
  }

  lemma {:induction false} RunFork(st: State, m: Memory, b: cell, w: Words, ans: Answers, p1: Body, p2: Body, a: cell,
      fuel: nat)
    returns (n: nat)
    requires Vocabulary(m, w, b) && StacksOk(st) && Intact(m, b, st)
    requires st.ip == a && DICTIONARY_START <= a && a + Size(m, IfElse(p1, p2)) <= b
    requires CodeAt(m, a, Code(m, IfElse(p1, p2), a))
    ensures Realises(st, ans, n, MeanFork(m, b, w, ans, p1, p2, st, fuel), fuel, a, a + Size(m, IfElse(p1, p2)))
    decreases fuel, 2, IfElse(p1, p2), 1
  {
    hide Fetch16, SameOn, CodeAt, Code, Vocabulary, Realises, Mean, Step, Size;
    IfElseShape(m, p1, p2, a);
    var x := a + 6 + Size(m, p1);
    var y := x + Size(m, p2);
    var z := y + 1;
    ForkParts(m, a, Code(m, p1, a + 3), Code(m, p2, x));
    TestStep(st, m, b, ans, x);
    var r := MeanFork(m, b, w, ans, p1, p2, st, fuel);
    WrapSum(x, 0, 0);
    WrapSum(a + 3, 0, 0);
    n := 1;
    match PopData(st)
    case Empty => StepRealised(st, ans, r, fuel, a, z);
    case Popped(s0, v) =>
      var s := if v == 0 then At(s0, x) else At(s0, a + 3);
      if v == 0 {
        n := RunBranch(s, m, b, w, ans, IfElse(p1, p2), p2, x, a, z, z, fuel);
      } else {
        n := RunFirst(s, m, b, w, ans, p1, p2, a + 3, a, z, fuel);
      }
      AfterStep(st, ans, s, n, r, fuel, a, z, a, z);
      n := n + 1;
  }

  // The first branch, the jump over the second, and the NOP it goes to.
  lemma {:induction false} RunFirst(s: State, m: Memory, b: cell, w: Words, ans: Answers, p1: Body, p2: Body, x: cell,
      a: int, z: cell, fuel: nat)
    returns (n: nat)
    requires Vocabulary(m, w, b) && StacksOk(s) && Intact(m, b, s) && s.ip == x && DICTIONARY_START <= x && a <= x
    requires CodeAt(m, x, Code(m, p1, x)) && x + Size(m, p1) + 3 < z <= b
    requires CodeAt(m, x + Size(m, p1), Operand(JMP, z - 1)) && CodeAt(m, z - 1, [NOP])
    ensures Realises(s, ans, n,
                     match Mean(m, b, w, ans, p1, s, fuel) case Normal(t) => Normal(At(t, z)) case r => r, fuel, a, z)
    decreases fuel, 2, IfElse(p1, p2), 0, 1
  {
    hide Fetch16, SameOn, CodeAt, Code, Vocabulary, Realises, Mean, Step, Size, Intact;
    WrapSum(z, 0, 0);
    WrapSum(z - 1, 0, 0);
    n := RunBranch(s, m, b, w, ans, IfElse(p1, p2), p1, x, a, z, z - 1, fuel);
    var r := Mean(m, b, w, ans, p1, s, fuel);
    if r.Normal? {
      var t := At(r.st, z - 1);
      NopStep(t, m, b, ans);
      AndStep(s, ans, n, t, Normal(At(r.st, z)), fuel, a, z, z);
      n := n + 1;
    }
  }

  lemma ForkParts(m: Memory, a: nat, x: seq<byte>, y: seq<byte>)
    requires var no := a + 6 + |x|;
             CodeAt(m, a, Operand(JMP_FALSE, no) + x + Operand(JMP, no + |y|) + y + [NOP])
    ensures var no := a + 6 + |x|;
            && CodeAt(m, a, Operand(JMP_FALSE, no)) && CodeAt(m, a + 3, x) && CodeAt(m, no - 3, Operand(JMP, no + |y|))
            && CodeAt(m, no, y) && CodeAt(m, no + |y|, [NOP])
  {
    hide CodeAt;
    var no := a + 6 + |x|;
    var t, u := Operand(JMP_FALSE, no), Operand(JMP, no + |y|);
    CodeSplit(m, a, t + x + u + y, [NOP]);
    CodeSplit(m, a, t + x + u, y);
    CodeSplit(m, a, t + x, u);
    CodeSplit(m, a, t, x);
  }

  lemma {:induction false} RunLoop(st: State, m: Memory, b: cell, w: Words, ans: Answers, p1: Body, a: cell, fuel: nat)
    returns (n: nat)
    requires Vocabulary(m, w, b) && StacksOk(st) && Intact(m, b, st)
    requires st.ip == a && DICTIONARY_START <= a && a + Size(m, Loop(p1)) <= b
    requires CodeAt(m, a, Code(m, Loop(p1), a))
    ensures Realises(st, ans, n, MeanLoop(m, b, w, ans, p1, st, fuel), fuel, a, a + Size(m, Loop(p1)))
    decreases fuel, 2, Loop(p1), 1
  {
    hide Fetch16, SameOn, CodeAt, Code, Vocabulary, Realises, Mean, Step, Intact, Size;
    LoopShape(m, p1, a);
    var y := a + 1 + Size(m, p1);
    var z := y + 3;
    CodeSplit(m, a, [NOP], Code(m, p1, a + 1));
    CodeSplit(m, a, [NOP] + Code(m, p1, a + 1), Operand(JMP, a));
    n := 0;
    if fuel == 0 {
      StartRealised(st, ans, a, z);
    } else {
      WrapSum(a, 0, 0);
      WrapSum(a + 1, 0, 0);
      NopStep(st, m, b, ans);
      var s := At(st, a + 1);
      var r1 := Mean(m, b, w, ans, p1, s, fuel);
      var r := MeanLoop(m, b, w, ans, p1, st, fuel);
      n := RunBranch(s, m, b, w, ans, Loop(p1), p1, a + 1, a, z, a, fuel);
      if r1.Normal? {
        var t := At(r1.st, a);
        var n2 := RunLoop(t, m, b, w, ans, p1, a, fuel - 1);
        LoopJoin(s, ans, n, t, n2, r, fuel, a, z);
        n := n + n2;
      }
      AfterStep(st, ans, s, n, r, if r1.Normal? then fuel - 1 else fuel, a, z, a, z);
      n := n + 1;
    }
  }

  // A turn of a loop, at least one step long, and the rest of it.
  lemma LoopJoin(s: State, ans: Answers, n: nat, t: State, n2: nat, r: Result, fuel: nat, a: int, z: int)
    requires StacksOk(s) && StacksOk(t) && fuel > 0 && Realises(s, ans, n, Normal(t), fuel, a, z) && t.ret == s.ret
    requires Realises(t, ans, n2, r, fuel - 1, a, z)
    ensures Realises(s, ans, n + n2, r, fuel - 1, a, z)
  {
    hide Run, Inside;
    StaysJoin(s, ans, n, n2, s.ret, a, z);
    RunSplit(s, ans, n, n2);
  }
}
