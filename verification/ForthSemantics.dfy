// What structured FORTH means: a body maps a state to a result.  A loop means
// its body again, a branch one of its parts, a word called by name its own body;
// any other word means what performing it does.  There is no search for where
// code goes on: that is what running it has to get right.  Fuel bounds the depth
// of the definition; running out of it says nothing about the program.
module ForthSemantics {
  import opened Dataspace
  import opened ForthState
  import opened ForthWords
  import opened ForthSource

  // A colon word, or a word made by a defining word.
  datatype Meaning = Threaded(body: Body) | Defined(field: cell, code: cell, does: Body)

  type Words = map<cell, Meaning>

  // Normal is the end of the body, Left an EXIT that has returned to the caller,
  // Recovered the state ABORT leaves, Ended the state BYE leaves.  Astray is the
  // first state that structure does not account for: the words below b were
  // written over, a return address was, or a word jumped.
  datatype Result =
    | Normal(st: State)
    | Left(st: State)
    | Recovered(st: State)
    | Ended(st: State)
    | Astray(st: State)
    | Stopped(why: Reason)
    | OutOfFuel

  predicate Live(st: State) {
    StacksOk(st) && st.run
  }

  // Headers and code below b are those of m.
  ghost predicate Intact(m: Memory, b: cell, st: State) {
    b <= SPACE_TOP && SameOn(m, st.mem, SYSTEM_END, b)
  }

  // What every result of a body started in st says; `end` is where its code ends.
  ghost predicate Proper(m: Memory, b: cell, st: State, r: Result, end: cell) {
    match r
    case Normal(t) => Live(t) && Intact(m, b, t) && t.ret == st.ret && t.recover == st.recover && t.ip == end
    case Left(t) => Live(t) && Intact(m, b, t) && t.ret.where + 2 == st.ret.where && t.recover == st.recover
    case Recovered(t) =>
      Live(t) && Intact(m, b, t) && Empty(t.ret) && t.recover == st.recover && t.ip == st.recover
    case Ended(t) => StacksOk(t) && !t.run
    case Astray(t) => StacksOk(t)
    case _ => true
  }

  function GoTo(st: State, a: int): (r: State)
    ensures forall m, b :: Intact(m, b, st) ==> Intact(m, b, r)
    ensures (Live(st) ==> Live(r)) && r.ret == st.ret && r.recover == st.recover && r.ip == Wrap(a)
  {
    st.(ip := Wrap(a))
  }

  // A conditional jump that has taken its flag, at a.
  function Tested(st: State, a: int): (r: State)
    requires Live(st) && !Empty(st.data)
    ensures forall m, b :: Intact(m, b, st) ==> Intact(m, b, r)
    ensures Live(r) && r.ret == st.ret && r.recover == st.recover && r.ip == Wrap(a)
  {
    GoTo(DropData(st), a)
  }

  lemma AbortIntact(m: Memory, b: cell, st: State)
    requires Intact(m, b, st)
    ensures Intact(m, b, AbortState(st)) && AbortState(st).run == st.run
  {
  }

  lemma PushIntact(m: Memory, b: cell, st: State, v: cell)
    requires Intact(m, b, st) && StacksOk(st)
    ensures !Full(st.data) ==> var s := PushData(st, v);
              Intact(m, b, s) && (Live(st) ==> Live(s)) && s.ret == st.ret && s.recover == st.recover && s.ip == st.ip
    ensures !Full(st.ret) ==> Intact(m, b, PushReturn(st, v))
  {
  }

  ghost function Recover(m: Memory, b: cell, st: State): (r: Result)
    requires Live(st) && Intact(m, b, st)
    ensures Proper(m, b, st, r, 0) && r.Recovered?
  {
    AbortIntact(m, b, st);
    Recovered(AbortState(st).(ip := st.recover))
  }

  // Where a word that is not called goes on.
  ghost function MeanStep(m: Memory, b: cell, st: State, o: Outcome): (r: Result)
    requires Live(st) && Intact(m, b, st) && (o.Next? ==> StacksOk(o.st) && o.st.recover == st.recover)
    ensures Proper(m, b, st, r, Wrap(st.ip + 2)) && !r.Left?
  {
    match o
    case Stop(why) => Stopped(why)
    case Next(s, ip) =>
      var t := s.(ip := ip);
      if !Intact(m, b, t) then Astray(t)
      else if !t.run then Ended(t)
      else if t.ret == st.ret && ip == Wrap(st.ip + 2) then Normal(t)
      else if Empty(t.ret) && ip == st.recover then Recovered(t)
      else Astray(t)
  }

  // The EXIT at the end of a definition, or one inside it.
  function Return(st: State): (r: State)
    requires Live(st) && !Empty(st.ret)
    ensures Live(r)
  {
    DropReturn(st).(ip := TopReturn(st))
  }

  // Back from a call that st made.
  function Back(st: State, t: State): Result {
    if t.ip == Wrap(st.ip + 2) then Normal(t) else Astray(t)
  }

  // The body p, called from st, starting in s.
  ghost function MeanCall(m: Memory, b: cell, w: Words, p: Body, st: State, s: State, fuel: nat): (r: Result)
    requires Live(st) && Live(s) && Intact(m, b, s)
    requires s.ret.where == st.ret.where + 2 && s.recover == st.recover
    ensures Proper(m, b, st, r, Wrap(st.ip + 2)) && !r.Left?
    decreases fuel, 0
  {
    if fuel == 0 then OutOfFuel
    else
      match Mean(m, b, w, p, s, fuel - 1)
      case Normal(t) => Back(st, Return(t))
      case Left(t) => Back(st, t)
      case r => r
  }

  ghost function MeanEnter(m: Memory, b: cell, w: Words, xt: cell, st: State, fuel: nat): (r: Result)
    requires Live(st) && Intact(m, b, st) && xt in w
    ensures Proper(m, b, st, r, Wrap(st.ip + 2)) && !r.Left?
    decreases fuel, 1
  {
    match w[xt]
    case Threaded(p) =>
      if Full(st.ret) then Recover(m, b, st)
      else
        PushIntact(m, b, st, Wrap(st.ip + 2));
        MeanCall(m, b, w, p, st, PushReturn(st, Wrap(st.ip + 2)).(ip := ParameterField(m, xt)), fuel)
    case Defined(field, code, p) =>
      if Full(st.data) then Recover(m, b, st)
      else
        PushIntact(m, b, st, field);
        var s := PushData(st, field);
        if Full(s.ret) then Recover(m, b, s)
        else
          PushIntact(m, b, s, Wrap(st.ip + 2));
          MeanCall(m, b, w, p, st, PushReturn(s, Wrap(st.ip + 2)).(ip := code), fuel)
  }

  // A word named in a body.  EXECUTE calls a word as naming it does.
  ghost function MeanWord(m: Memory, b: cell, w: Words, xt: cell, st: State, fuel: nat): (r: Result)
    requires Live(st) && Intact(m, b, st)
    ensures Proper(m, b, st, r, Wrap(st.ip + 2))
    decreases fuel, 2
  {
    var op := CodeField(st.mem, xt);
    if xt in w then MeanEnter(m, b, w, xt, st, fuel)
    else if op == OP_EXECUTE && !Empty(st.data) && TopData(st) in w then
      MeanEnter(m, b, w, TopData(st), DropData(st), fuel)
    else if op == OP_EXIT && !Empty(st.ret) then Left(Return(st))
    else MeanStep(m, b, st, Perform(st, xt))
  }

  ghost function Mean(m: Memory, b: cell, w: Words, p: Body, st: State, fuel: nat): (r: Result)
    requires Live(st) && Intact(m, b, st)
    ensures Proper(m, b, st, r, Wrap(st.ip + Size(p)))
    decreases fuel, 3, p
  {
    hide AbortState, Wrap, Intact, GoTo, Tested, StacksOk, PushData, TopData;
    WrapSum(st.ip, 0, 0);
    match p
    case Nothing => Normal(st)
    case Plain(xt) => MeanWord(m, b, w, xt, st, fuel)
    case Number(n) =>
      if Full(st.data) then Recover(m, b, st)
      else
        PushIntact(m, b, st, n);
        Normal(GoTo(PushData(st, n), st.ip + 4))
    case Both(p, q) =>
      WrapSum(st.ip, Size(p), Size(q));
      (match Mean(m, b, w, p, st, fuel)
       case Normal(t) => Mean(m, b, w, q, t, fuel)
       case r => r)
    case IfThen(p) =>
      if Empty(st.data) then Recover(m, b, st)
      else
        if TopData(st) == 0 then Normal(Tested(st, st.ip + 4 + Size(p)))
        else
          WrapSum(st.ip, 4, Size(p));
          Mean(m, b, w, p, Tested(st, st.ip + 4), fuel)
    case IfElse(p, q) => MeanFork(m, b, w, p, q, st, fuel)
    case Loop(p) => MeanLoop(m, b, w, p, st, fuel)
  }

  ghost function MeanFork(m: Memory, b: cell, w: Words, p: Body, q: Body, st: State, fuel: nat): (r: Result)
    requires Live(st) && Intact(m, b, st)
    ensures Proper(m, b, st, r, Wrap(st.ip + Size(IfElse(p, q))))
    decreases fuel, 3, IfElse(p, q), 0
  {
    hide AbortState, Wrap, Intact, GoTo, Tested, StacksOk, TopData;
    WrapSum(st.ip, 8 + Size(p), Size(q));
    if Empty(st.data) then Recover(m, b, st)
    else if TopData(st) == 0 then Mean(m, b, w, q, Tested(st, st.ip + 8 + Size(p)), fuel)
    else
      match Mean(m, b, w, p, Tested(st, st.ip + 4), fuel)
      case Normal(t) => Normal(GoTo(t, st.ip + 8 + Size(p) + Size(q)))
      case r => r
  }

  ghost function MeanLoop(m: Memory, b: cell, w: Words, p: Body, st: State, fuel: nat): (r: Result)
    requires Live(st) && Intact(m, b, st)
    ensures Proper(m, b, st, r, Wrap(st.ip + Size(Loop(p)))) && !r.Normal?
    decreases fuel, 3, Loop(p), 0
  {
    hide AbortState, Wrap, Intact, GoTo, StacksOk;
    WrapSum(st.ip, 0, 0);
    if fuel == 0 then OutOfFuel
    else
      match Mean(m, b, w, p, st, fuel)
      case Normal(t) => MeanLoop(m, b, w, p, GoTo(t, st.ip), fuel - 1)
      case r => r
  }

  // The code of p and an EXIT lie at a, below bound.
  ghost predicate Callable(m: Memory, c: Core, p: Body, a: cell, bound: int) {
    SYSTEM_END <= a && a + Size(p) + 2 <= bound && CodeAt(m, a, Code(c, p, a) + [c.exit])
  }

  // The words of w, headers and code, lie between the system variables and
  // bound, and mean there what w says.
  ghost predicate Placed(m: Memory, w: Words, c: Core, xt: cell, bound: int)
    requires xt in w
  {
    && SYSTEM_END <= xt && xt + DE_SIZE_MIN <= bound <= SPACE_TOP
    && match w[xt]
       case Threaded(p) => CodeField(m, xt) == OP_ENTER && Callable(m, c, p, ParameterField(m, xt), bound)
       case Defined(field, code, p) =>
         && CodeField(m, xt) == OP_DOES_ENTER && ParameterField(m, xt) == field && DoesCode(m, xt) == code
         && Callable(m, c, p, code, bound)
  }

  ghost predicate Below(m: Memory, w: Words, c: Core, bound: int) {
    forall xt :: xt in w ==> Placed(m, w, c, xt, bound)
  }

  lemma CallableFrame(m: Memory, n: Memory, c: Core, p: Body, a: cell, bound: int, bound': int)
    requires Callable(m, c, p, a, bound) && SameOn(m, n, SYSTEM_END, bound) && bound <= bound' <= SPACE_TOP
    ensures Callable(n, c, p, a, bound')
  {
    hide SameOn, CodeAt, Code, Size;
    SamePart(m, n, SYSTEM_END, bound, a, a + Size(p) + 2);
    CodeFrame(m, n, a, Code(c, p, a) + [c.exit]);
  }

  lemma PlacedFrame(m: Memory, n: Memory, w: Words, w': Words, c: Core, xt: cell, bound: int, bound': int)
    requires xt in w && xt in w' && w[xt] == w'[xt] && Placed(m, w, c, xt, bound)
    requires SameOn(m, n, SYSTEM_END, bound) && bound <= bound' <= SPACE_TOP
    ensures Placed(n, w', c, xt, bound')
  {
    hide SameOn, CodeField, DoesCode, ParameterField, Callable;
    HeaderKept(m, n, SYSTEM_END, bound, xt);
    match w[xt]
    case Threaded(p) => CallableFrame(m, n, c, p, ParameterField(m, xt), bound, bound');
    case Defined(_, code, p) => CallableFrame(m, n, c, p, code, bound, bound');
  }

  lemma BelowFrame(m: Memory, n: Memory, w: Words, c: Core, bound: int)
    requires Below(m, w, c, bound) && SameOn(m, n, SYSTEM_END, bound) && bound <= SPACE_TOP
    ensures Below(n, w, c, bound)
  {
    hide SameOn, Placed;
    forall xt | xt in w ensures Placed(n, w, c, xt, bound) {
      PlacedFrame(m, n, w, w, c, xt, bound, bound);
    }
  }

  // A header with this opcode.
  ghost predicate HasOp(m: Memory, xt: cell, op: nat, bound: int) {
    SYSTEM_END <= xt && xt + DE_SIZE_MIN <= bound && CodeField(m, xt) == op
  }

  // The words of w and those compiled code is made of.
  ghost predicate Vocabulary(m: Memory, w: Words, c: Core, b: int) {
    && Below(m, w, c, b) && b <= SPACE_TOP
    && HasOp(m, c.push, OP_PUSH, b) && HasOp(m, c.jump, OP_JUMP, b)
    && HasOp(m, c.jumpIf, OP_JUMP_IF, b) && HasOp(m, c.exit, OP_EXIT, b)
  }
}
