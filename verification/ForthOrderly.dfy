// When structure accounts for everything: a body none of whose words, as they are
// reached, writes over the vocabulary or the return stack never goes astray, and
// gives the return stack back as it was.
module ForthOrderly {
  import opened Dataspace
  import opened ForthState
  import opened ForthWords
  import opened ForthFrame
  import opened ForthSource
  import opened ForthSemantics
  import opened ForthRun
  import opened ForthCalls
  import opened ForthMeaning
  import opened ForthTheorem

  function CodeBelow(b: cell): Region
    requires b <= SPACE_TOP
  {
    Area(SYSTEM_END, b)
  }

  // A word that is not called, and neither jumps nor returns nor writes over the
  // vocabulary below b or the return stack; EXECUTE of one, too.
  predicate Ordinary(b: cell, st: State, xt: cell)
    requires StacksOk(st) && b <= SPACE_TOP
    decreases st.data.where
  {
    var op := CodeField(st.mem, xt);
    if op == OP_EXECUTE then Empty(st.data) || Ordinary(b, DropData(st), TopData(st))
    else if IsFlowOp(op) then op == OP_CREATE_ENTER || op == OP_ABORT
    else Spares(CodeBelow(b), st, op) && Spares(RETURNS, st, op)
  }

  lemma FlowKeeps(g: Region, st: State, op: nat, xt: cell)
    requires StacksOk(st) && (op == OP_CREATE_ENTER || op == OP_ABORT)
    ensures KeepsRegion(g, st, Simple(st, op, xt))
  {
    hide KeepsRegion, Abort, ParameterField, PushData;
    Itself(g, st);
    GivesUp(g, st, st);
    PushKeeps(g, st, ParameterField(st.mem, xt));
    assert Simple(st, op, xt) == FlowWord(st, op, xt) by { FlowIs(st, op, xt); }
    if op == OP_CREATE_ENTER { CreateIs(st, xt); }
  }

  lemma FlowIs(st: State, op: nat, xt: cell)
    requires StacksOk(st) && IsFlowOp(op)
    ensures Simple(st, op, xt) == FlowWord(st, op, xt)
  {
    hide FlowWord;
  }

  lemma CreateIs(st: State, xt: cell)
    requires StacksOk(st)
    ensures CreateEnter(st, xt) == PushVariable(st, ParameterField(st.mem, xt))
  {
  }

  // Through any number of EXECUTEs.
  lemma {:induction false} OrdinaryKeeps(b: cell, st: State, xt: cell)
    requires StacksOk(st) && b <= SPACE_TOP && Ordinary(b, st, xt)
    ensures KeepsRegion(CodeBelow(b), st, Perform(st, xt)) && KeepsRegion(RETURNS, st, Perform(st, xt))
    decreases st.data.where
  {
    hide Fetch16, CodeField, Simple, AbortState, RegionSame, Spares;
    var op := CodeField(st.mem, xt);
    if op == OP_EXECUTE {
      assert Perform(st, xt) == Execute(st);
      if Empty(st.data) {
        Itself(CodeBelow(b), st);
        Itself(RETURNS, st);
        GivesUp(CodeBelow(b), st, st);
        GivesUp(RETURNS, st, st);
      } else {
        OrdinaryKeeps(b, DropData(st), TopData(st));
      }
    } else if IsFlowOp(op) {
      FlowKeeps(CodeBelow(b), st, op, xt);
      FlowKeeps(RETURNS, st, op, xt);
    } else {
      WordSpares(CodeBelow(b), st, op, xt);
      WordSpares(RETURNS, st, op, xt);
    }
  }

  // Every word the meaning of p reaches is called, returns, or is ordinary.

  ghost predicate OrderlyCall(m: Memory, b: cell, w: Words, p: Body, s: State, fuel: nat)
    requires Live(s) && Intact(m, b, s)
    decreases fuel, 0
  {
    fuel == 0 || Orderly(m, b, w, p, s, fuel - 1)
  }

  ghost predicate OrderlyEnter(m: Memory, b: cell, w: Words, xt: cell, st: State, fuel: nat)
    requires Live(st) && Intact(m, b, st) && xt in w
    decreases fuel, 1
  {
    match w[xt]
    case Threaded(p) =>
      PushIntact(m, b, st, Wrap(st.ip + 2));
      Full(st.ret) || OrderlyCall(m, b, w, p, PushReturn(st, Wrap(st.ip + 2)).(ip := ParameterField(m, xt)), fuel)
    case Defined(field, code, p) =>
      if Full(st.data) || Full(st.ret) then true
      else
        PushIntact(m, b, st, field);
        var s := PushData(st, field);
        PushIntact(m, b, s, Wrap(st.ip + 2));
        OrderlyCall(m, b, w, p, PushReturn(s, Wrap(st.ip + 2)).(ip := code), fuel)
  }

  ghost predicate OrderlyWord(m: Memory, b: cell, w: Words, xt: cell, st: State, fuel: nat)
    requires Live(st) && Intact(m, b, st)
    decreases fuel, 2
  {
    var op := CodeField(st.mem, xt);
    if xt in w then OrderlyEnter(m, b, w, xt, st, fuel)
    else if op == OP_EXECUTE && !Empty(st.data) && TopData(st) in w then
      OrderlyEnter(m, b, w, TopData(st), DropData(st), fuel)
    else op == OP_EXIT || Ordinary(b, st, xt)
  }

  ghost predicate Orderly(m: Memory, b: cell, w: Words, p: Body, st: State, fuel: nat)
    requires Live(st) && Intact(m, b, st)
    decreases fuel, 3, p
  {
    hide SameOn, AbortState, Wrap, GoTo, Tested, MeanWord, MeanFork, MeanLoop;
    match p
    case Nothing => true
    case Plain(xt) => OrderlyWord(m, b, w, xt, st, fuel)
    case Number(_) => true
    case Both(p, q) =>
      && Orderly(m, b, w, p, st, fuel)
      && var r := Mean(m, b, w, p, st, fuel);
         r.Normal? ==> Orderly(m, b, w, q, r.st, fuel)
    case IfThen(p) => Empty(st.data) || TopData(st) == 0 || Orderly(m, b, w, p, Tested(st, st.ip + 4), fuel)
    case IfElse(p, q) =>
      || Empty(st.data)
      || (if TopData(st) == 0 then Orderly(m, b, w, q, Tested(st, st.ip + 8 + Size(p)), fuel)
          else Orderly(m, b, w, p, Tested(st, st.ip + 4), fuel))
    case Loop(p) =>
      fuel == 0 ||
      ( && Orderly(m, b, w, p, st, fuel)
        && var r := Mean(m, b, w, p, st, fuel);
           r.Normal? ==> Orderly(m, b, w, Loop(p), GoTo(r.st, st.ip), fuel - 1))
  }

  // The result accounts for everything, and the return stack is as it should be.
  ghost predicate OnCourse(st: State, r: Result)
    requires StacksOk(st)
  {
    && !r.Astray?
    && (r.Normal? ==> StacksOk(r.st) && ReturnOf(r.st) == ReturnOf(st))
    && (r.Left? ==> StacksOk(r.st) && ReturnOf(st) != [] && r.st.ip == Last(ReturnOf(st)))
    && (r.Left? ==> ReturnOf(r.st) == Front(ReturnOf(st)))
  }

  lemma OrdinaryOnCourse(m: Memory, b: cell, st: State, xt: cell)
    requires Live(st) && Intact(m, b, st) && Ordinary(b, st, xt)
    ensures OnCourse(st, MeanStep(m, b, st, Perform(st, xt)))
  {
    hide Fetch16, Perform, Cells, Ordinary, SameOn;
    OrdinaryKeeps(b, st, xt);
    var o := Perform(st, xt);
    if o.Next? {
      SameBoth(m, st.mem, o.st.mem, SYSTEM_END, b);
      if o.st.ret == st.ret { ReturnKept(st, o.st); }
    }
  }

  lemma SameReturns(st: State, s: State)
    requires StacksOk(st) && StacksOk(s) && s.ret == st.ret && s.mem == st.mem
    ensures ReturnOf(s) == ReturnOf(st)
  {
  }

  lemma {:induction false} CallOnCourse(m: Memory, b: cell, w: Words, p: Body, st: State, s: State, fuel: nat)
    requires Live(st) && Live(s) && Intact(m, b, s) && s.ret.where == st.ret.where + 2 && s.recover == st.recover
    requires ReturnOf(s) == ReturnOf(st) + [Wrap(st.ip + 2)] && OrderlyCall(m, b, w, p, s, fuel)
    ensures OnCourse(st, MeanCall(m, b, w, p, st, s, fuel))
    decreases fuel, 0
  {
    hide Fetch16, Cells, SameOn, Mean, Orderly, Wrap;
    if fuel > 0 {
      BodyOnCourse(m, b, w, p, s, fuel - 1);
      var r := Mean(m, b, w, p, s, fuel - 1);
      if r.Normal? {
        SelfRunning(r.st);
        PopReturnEffect(r.st, r.st.mem);
      }
    }
  }

  lemma {:induction false} EnterOnCourse(m: Memory, b: cell, w: Words, xt: cell, st: State, fuel: nat)
    requires Live(st) && Intact(m, b, st) && xt in w && OrderlyEnter(m, b, w, xt, st, fuel)
    ensures OnCourse(st, MeanEnter(m, b, w, xt, st, fuel))
    decreases fuel, 1
  {
    hide Fetch16, Cells, SameOn, MeanCall, OrderlyCall, Wrap, Store16, ParameterField, AbortState;
    var back := Wrap(st.ip + 2);
    SelfRunning(st);
    match w[xt]
    case Threaded(p) =>
      if !Full(st.ret) {
        PushIntact(m, b, st, back);
        PushReturnEffect(st, st.mem, back);
        CallOnCourse(m, b, w, p, st, PushReturn(st, back).(ip := ParameterField(m, xt)), fuel);
      }
    case Defined(field, code, p) =>
      if !Full(st.data) && !Full(st.ret) {
        PushIntact(m, b, st, field);
        PushEffect(st, st.mem, field);
        var s := PushData(st, field);
        PushIntact(m, b, s, back);
        PushReturnEffect(s, st.mem, back);
        CallOnCourse(m, b, w, p, st, PushReturn(s, back).(ip := code), fuel);
      }
  }

  lemma {:induction false} WordOnCourse(m: Memory, b: cell, w: Words, xt: cell, st: State, fuel: nat)
    requires Live(st) && Intact(m, b, st) && OrderlyWord(m, b, w, xt, st, fuel)
    ensures OnCourse(st, MeanWord(m, b, w, xt, st, fuel))
    decreases fuel, 2
  {
    hide Fetch16, Cells, SameOn, MeanEnter, OrderlyEnter, Ordinary, Wrap, CodeField, Simple, MeanStep, AbortState;
    var op := CodeField(st.mem, xt);
    if xt in w {
      EnterOnCourse(m, b, w, xt, st, fuel);
    } else if op == OP_EXECUTE && !Empty(st.data) && TopData(st) in w {
      EnterOnCourse(m, b, w, TopData(st), DropData(st), fuel);
      SameReturns(st, DropData(st));
    } else if op == OP_EXIT {
      SelfRunning(st);
      StackDepth(st);
      if !Empty(st.ret) { PopReturnEffect(st, st.mem); } else { ExitAborts(m, b, st, xt); }
    } else {
      OrdinaryOnCourse(m, b, st, xt);
    }
  }

  lemma ExitAborts(m: Memory, b: cell, st: State, xt: cell)
    requires Live(st) && Intact(m, b, st) && CodeField(st.mem, xt) == OP_EXIT && Empty(st.ret)
    ensures OnCourse(st, MeanStep(m, b, st, Perform(st, xt)))
  {
    hide Fetch16, Cells, SameOn, CodeField, AbortState;
    assert Perform(st, xt) == Abort(st) by { ExitPerforms(st, xt); }
    AbortIntact(m, b, st);
    AbortWrites(RETURNS, st);
    StackDepth(st);
    StackDepth(AbortState(st).(ip := st.recover));
  }

  // The theorem.
  lemma {:induction false} BodyOnCourse(m: Memory, b: cell, w: Words, p: Body, st: State, fuel: nat)
    requires Live(st) && Intact(m, b, st) && Orderly(m, b, w, p, st, fuel)
    ensures OnCourse(st, Mean(m, b, w, p, st, fuel))
    decreases fuel, 3, p
  {
    hide Fetch16, Cells, SameOn, MeanWord, OrderlyWord, Wrap, AbortState;
    match p
    case Nothing =>
    case Plain(xt) => WordOnCourse(m, b, w, xt, st, fuel);
    case Number(n) =>
      if !Full(st.data) {
        PushReturns(st, n);
        SameReturns(PushData(st, n), GoTo(PushData(st, n), st.ip + 4));
      }
    case Both(p1, p2) =>
      BodyOnCourse(m, b, w, p1, st, fuel);
      var r := Mean(m, b, w, p1, st, fuel);
      if r.Normal? { BodyOnCourse(m, b, w, p2, r.st, fuel); }
    case IfThen(p1) =>
      if !Empty(st.data) {
        SameReturns(st, Tested(st, st.ip + 4));
        SameReturns(st, Tested(st, st.ip + 4 + Size(p1)));
        if TopData(st) != 0 { BodyOnCourse(m, b, w, p1, Tested(st, st.ip + 4), fuel); }
      }
    case IfElse(p1, p2) => ForkOnCourse(m, b, w, p1, p2, st, fuel);
    case Loop(p1) =>
      if fuel > 0 {
        BodyOnCourse(m, b, w, p1, st, fuel);
        var r := Mean(m, b, w, p1, st, fuel);
        if r.Normal? {
          SameReturns(r.st, GoTo(r.st, st.ip));
          BodyOnCourse(m, b, w, Loop(p1), GoTo(r.st, st.ip), fuel - 1);
        }
      }
  }

  lemma {:induction false} ForkOnCourse(m: Memory, b: cell, w: Words, p1: Body, p2: Body, st: State, fuel: nat)
    requires Live(st) && Intact(m, b, st) && Orderly(m, b, w, IfElse(p1, p2), st, fuel)
    ensures OnCourse(st, MeanFork(m, b, w, p1, p2, st, fuel))
    decreases fuel, 3, IfElse(p1, p2), 0
  {
    hide Fetch16, Cells, SameOn, Mean, OrderlyWord, Wrap, AbortState;
    if !Empty(st.data) {
      var s := Tested(st, if TopData(st) == 0 then st.ip + 8 + Size(p1) else st.ip + 4);
      SameReturns(st, s);
      BodyOnCourse(m, b, w, if TopData(st) == 0 then p2 else p1, s, fuel);
      var r := Mean(m, b, w, p1, s, fuel);
      if TopData(st) != 0 && r.Normal? {
        SameReturns(r.st, GoTo(r.st, st.ip + 8 + Size(p1) + Size(p2)));
      }
    }
  }

  // Words that never write over anything, whatever the state: all but the compiling
  // words, `:`, CREATE, `!` and EXECUTE.
  predicate Calm(op: nat) {
    && op != OP_EXECUTE
    && (IsFlowOp(op) ==> op in {OP_CREATE_ENTER, OP_ABORT, OP_EXIT})
    && !LaysCode(op) && !WritesHeader(op) && op !in {OP_THEN, OP_ELSE, OP_STORE}
  }

  // Such words, and calls, are all p names.
  ghost predicate CalmBody(m: Memory, b: cell, w: Words, p: Body) {
    match p
    case Plain(xt) => xt in w || (SYSTEM_END <= xt && xt + DE_SIZE_MIN <= b && Calm(CodeField(m, xt)))
    case Both(p, q) => CalmBody(m, b, w, p) && CalmBody(m, b, w, q)
    case IfThen(p) => CalmBody(m, b, w, p)
    case IfElse(p, q) => CalmBody(m, b, w, p) && CalmBody(m, b, w, q)
    case Loop(p) => CalmBody(m, b, w, p)
    case _ => true
  }

  ghost predicate CalmWords(m: Memory, b: cell, w: Words) {
    forall xt :: xt in w ==> CalmBody(m, b, w, if w[xt].Threaded? then w[xt].body else w[xt].does)
  }

  lemma {:induction false} CalmEnter(m: Memory, b: cell, w: Words, xt: cell, st: State, fuel: nat)
    requires Live(st) && Intact(m, b, st) && CalmWords(m, b, w) && xt in w
    ensures OrderlyEnter(m, b, w, xt, st, fuel)
    decreases fuel, 1
  {
    hide SameOn, Orderly, CalmBody, Wrap, Store16, ParameterField;
    assert CalmBody(m, b, w, if w[xt].Threaded? then w[xt].body else w[xt].does);
    var back := Wrap(st.ip + 2);
    match w[xt]
    case Threaded(p) =>
      if !Full(st.ret) && fuel > 0 {
        PushIntact(m, b, st, back);
        CalmOrderly(m, b, w, p, PushReturn(st, back).(ip := ParameterField(m, xt)), fuel - 1);
      }
    case Defined(field, code, p) =>
      if !Full(st.data) && !Full(st.ret) && fuel > 0 {
        PushIntact(m, b, st, field);
        var s := PushData(st, field);
        PushIntact(m, b, s, back);
        CalmOrderly(m, b, w, p, PushReturn(s, back).(ip := code), fuel - 1);
      }
  }

  // Calm bodies are orderly in every state.
  lemma {:induction false} CalmOrderly(m: Memory, b: cell, w: Words, p: Body, st: State, fuel: nat)
    requires Live(st) && Intact(m, b, st) && CalmWords(m, b, w) && CalmBody(m, b, w, p)
    ensures Orderly(m, b, w, p, st, fuel)
    decreases fuel, 3, p
  {
    hide SameOn, OrderlyEnter, MeanWord, MeanFork, MeanLoop, Wrap, AbortState, CodeField, CalmWords, Fetch16;
    match p
    case Nothing =>
    case Plain(xt) =>
      if xt in w { CalmEnter(m, b, w, xt, st, fuel); } else { HeaderKept(m, st.mem, SYSTEM_END, b, xt); }
    case Number(_) =>
    case Both(p1, p2) =>
      CalmOrderly(m, b, w, p1, st, fuel);
      var r := Mean(m, b, w, p1, st, fuel);
      if r.Normal? { CalmOrderly(m, b, w, p2, r.st, fuel); }
    case IfThen(p1) =>
      if !Empty(st.data) { CalmOrderly(m, b, w, p1, Tested(st, st.ip + 4), fuel); }
    case IfElse(p1, p2) =>
      if !Empty(st.data) {
        CalmOrderly(m, b, w, p1, Tested(st, st.ip + 4), fuel);
        CalmOrderly(m, b, w, p2, Tested(st, st.ip + 8 + Size(p1)), fuel);
      }
    case Loop(p1) =>
      if fuel > 0 {
        CalmOrderly(m, b, w, p1, st, fuel);
        var r := Mean(m, b, w, p1, st, fuel);
        if r.Normal? { CalmOrderly(m, b, w, p, GoTo(r.st, st.ip), fuel - 1); }
      }
  }

  // So of a calm body the machine gets to the end of the code in the state t
  // exactly when its source means t.
  lemma CalmAdequacy(st: State, m: Memory, b: cell, w: Words, c: Core, p: Body, a: cell, z: nat, t: State)
    requires Vocabulary(m, w, c, b) && Live(st) && Intact(m, b, st) && CalmWords(m, b, w) && CalmBody(m, b, w, p)
    requires st.ip == a && SYSTEM_END <= a && z == a + Size(p) <= b && CodeAt(m, a, Code(c, p, a))
             && AbortLeaves(st, a, z)
    ensures (exists fuel: nat :: Mean(m, b, w, p, st, fuel) == Normal(t))
            <==> (exists n: nat :: Arrived(st, n, t, a, z))
  {
    hide Fetch16, SameOn, CodeAt, Code, Mean, Vocabulary, CalmWords, CalmBody, Orderly, Arrived, Size, AbortLeaves;
    forall fuel: nat ensures !Mean(m, b, w, p, st, fuel).Astray? {
      CalmOrderly(m, b, w, p, st, fuel);
      BodyOnCourse(m, b, w, p, st, fuel);
    }
    Adequacy(st, m, b, w, c, p, a, z, t);
  }
}
