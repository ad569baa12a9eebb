// What structured source of the first system means: a body maps a state to a
// state.  A loop means its body again, a branch one of its parts, a word whose code
// is known its own body; any other byte code means what its routine does.  Where
// code goes on is not in it.  Fuel bounds the depth of the definition; running out
// of it says nothing about the program.
module ByteMeaning {
  import opened Dataspace
  import opened ByteState
  import opened ByteWords
  import opened ByteSource

  // The bodies of words by where their code starts.
  type Words = map<cell, Body>

  // Normal is the end of the body, Left a LEAVE that has returned to the caller.
  // Astray is the first state that structure does not account for: code below b was
  // written over, a return address was, or a byte code went elsewhere.
  datatype Result = Normal(st: State) | Left(st: State) | Astray(st: State) | Stopped(why: Reason) | OutOfFuel

  // Headers and code below b are those of m.
  ghost predicate Intact(m: Memory, b: cell, st: State) {
    b <= SPACE_TOP && SameOn(m, st.mem, DICTIONARY_START, b)
  }

  // What every result of a body started in st says; `end` is where its code ends.
  ghost predicate Proper(m: Memory, b: cell, st: State, r: Result, end: cell) {
    match r
    case Normal(t) => StacksOk(t) && Intact(m, b, t) && t.ret == st.ret && t.ip == end
    case Left(t) => StacksOk(t) && Intact(m, b, t) && t.ret + 2 == st.ret
    case Astray(t) => StacksOk(t)
    case _ => true
  }

  function At(st: State, a: int): (r: State)
    ensures forall m, b :: Intact(m, b, st) ==> Intact(m, b, r)
    ensures (StacksOk(st) ==> StacksOk(r)) && r.ret == st.ret && r.ip == Wrap(a)
  {
    st.(ip := Wrap(a))
  }

  lemma PushIntact(m: Memory, b: cell, st: State, v: cell)
    requires StacksOk(st) && Intact(m, b, st) && PushData(st, v).Next?
    ensures Intact(m, b, PushData(st, v).st)
  {
  }

  // The LEAVE at the end of a definition.
  function Return(st: State): (r: State)
    requires StacksOk(st) && st.ret != RETURN_BOTTOM
    ensures StacksOk(r) && r == st.(ret := st.ret - 2, ip := r.ip)
  {
    st.(ret := st.ret - 2, ip := Fetch16(st.mem, st.ret - 2))
  }

  // Back from a call that was to go on at `back`.
  function Back(t: State, back: cell): Result {
    if t.ip == back then Normal(t) else Astray(t)
  }

  // The body p, called, starting in s.
  ghost function MeanCall(m: Memory, b: cell, w: Words, ans: Answers, p: Body, st: State, back: cell, s: State,
      fuel: nat): (r: Result)
    requires StacksOk(st) && StacksOk(s) && Intact(m, b, s) && s.ret == st.ret + 2
    ensures Proper(m, b, st, r, back) && !r.Left?
    decreases fuel, 0
  {
    if fuel == 0 then OutOfFuel
    else
      match Mean(m, b, w, ans, p, s, fuel - 1)
      case Normal(t) => Back(Return(t), back)
      case Left(t) => Back(t, back)
      case r => r
  }

  // A byte code met in code, of an instruction of that width.
  ghost function MeanCode(m: Memory, b: cell, w: Words, ans: Answers, op: byte, width: nat, st: State, fuel: nat)
    : (r: Result)
    requires StacksOk(st) && Intact(m, b, st)
    ensures Proper(m, b, st, r, Wrap(st.ip + width))
    decreases fuel, 1
  {
    var back := Wrap(st.ip + width);
    match Perform(st, op, ans)
    case Stop(why) => Stopped(why)
    case Next(s) =>
      if !Intact(m, b, s) then Astray(s)
      else if s.ret == st.ret && s.ip == back then Normal(s)
      else if op == LEAVE && s.ret + 2 == st.ret then Left(s)
      else if s.ret == st.ret + 2 && s.ip in w then MeanCall(m, b, w, ans, w[s.ip], st, back, s, fuel)
      else Astray(s)
  }

  ghost function Mean(m: Memory, b: cell, w: Words, ans: Answers, p: Body, st: State, fuel: nat): (r: Result)
    requires StacksOk(st) && Intact(m, b, st)
    ensures Proper(m, b, st, r, Wrap(st.ip + Size(m, p)))
    decreases fuel, 2, p
  {
    hide Wrap, Intact, StacksOk, Fetch16, Store16, Perform;
    WrapSum(st.ip, 0, 0);
    match p
    case Nothing => Normal(st)
    case Use(xt) => MeanCode(m, b, w, ans, Named(m, xt), UseSize(m, xt), st, fuel)
    case Value(n) =>
      (match PushData(st, n)
       case Stop(why) => Stopped(why)
       case Next(s) =>
         PushIntact(m, b, st, n);
         Normal(At(s, st.ip + 3)))
    case Both(p, q) =>
      WrapSum(st.ip, Size(m, p), Size(m, q));
      (match Mean(m, b, w, ans, p, st, fuel)
       case Normal(t) => Mean(m, b, w, ans, q, t, fuel)
       case r => r)
    case IfThen(p) => MeanThen(m, b, w, ans, p, st, fuel)
    case IfElse(p, q) => MeanFork(m, b, w, ans, p, q, st, fuel)
    case Loop(p) => MeanLoop(m, b, w, ans, p, st, fuel)
  }

  ghost function MeanThen(m: Memory, b: cell, w: Words, ans: Answers, p: Body, st: State, fuel: nat): (r: Result)
    requires StacksOk(st) && Intact(m, b, st)
    ensures Proper(m, b, st, r, Wrap(st.ip + 4 + Size(m, p)))
    decreases fuel, 2, IfThen(p), 0
  {
    hide Wrap, Fetch16;
    match PopData(st)
    case Empty => Stopped(StackAssertion)
    case Popped(s, v) =>
      if v == 0 then Normal(At(s, st.ip + 4 + Size(m, p)))
      else
        match Mean(m, b, w, ans, p, At(s, st.ip + 3), fuel)
        case Normal(t) => Normal(At(t, st.ip + 4 + Size(m, p)))
        case r => r
  }

  ghost function MeanFork(m: Memory, b: cell, w: Words, ans: Answers, p: Body, q: Body, st: State, fuel: nat)
    : (r: Result)
    requires StacksOk(st) && Intact(m, b, st)
    ensures Proper(m, b, st, r, Wrap(st.ip + 7 + Size(m, p) + Size(m, q)))
    decreases fuel, 2, IfElse(p, q), 0
  {
    hide Wrap, Fetch16;
    match PopData(st)
    case Empty => Stopped(StackAssertion)
    case Popped(s, v) =>
      var z := st.ip + 7 + Size(m, p) + Size(m, q);
      match if v != 0 then Mean(m, b, w, ans, p, At(s, st.ip + 3), fuel)
            else Mean(m, b, w, ans, q, At(s, st.ip + 6 + Size(m, p)), fuel)
      case Normal(t) => Normal(At(t, z))
      case r => r
  }

  ghost function MeanLoop(m: Memory, b: cell, w: Words, ans: Answers, p: Body, st: State, fuel: nat): (r: Result)
    requires StacksOk(st) && Intact(m, b, st)
    ensures Proper(m, b, st, r, Wrap(st.ip + 4 + Size(m, p))) && !r.Normal?
    decreases fuel, 2, Loop(p), 0
  {
    hide Wrap;
    if fuel == 0 then OutOfFuel
    else
      match Mean(m, b, w, ans, p, At(st, st.ip + 1), fuel)
      case Normal(t) => MeanLoop(m, b, w, ans, p, At(t, st.ip), fuel - 1)
      case r => r
  }

  // The code of p and a LEAVE stand at a, below bound, and so do the headers of the
  // words p names.
  ghost predicate Callable(m: Memory, p: Body, a: cell, bound: int) {
    && DICTIONARY_START <= a && a + Size(m, p) + 1 <= bound && CodeAt(m, a, Code(m, p, a) + [LEAVE])
    && Known(m, bound, p)
  }

  // The code of the words of w stands where w says, below b.
  ghost predicate Vocabulary(m: Memory, w: Words, b: cell) {
    b <= SPACE_TOP && forall a :: a in w ==> Callable(m, w[a], a, b)
  }

  lemma CallableFrame(m: Memory, n: Memory, p: Body, a: cell, bound: int, bound': int)
    requires Callable(m, p, a, bound) && SameOn(m, n, DICTIONARY_START, bound) && bound <= bound' <= SPACE_TOP
    ensures Callable(n, p, a, bound')
  {
    hide SameOn, CodeAt, Code, Size, Known;
    SameCode(m, n, bound, p, a);
    KnownMore(n, bound, bound', p);
    SamePart(m, n, DICTIONARY_START, bound, a, a + Size(m, p) + 1);
    CodeFrame(m, n, a, Code(m, p, a) + [LEAVE]);
  }

  lemma VocabularyFrame(m: Memory, n: Memory, w: Words, b: cell, b': cell)
    requires Vocabulary(m, w, b) && SameOn(m, n, DICTIONARY_START, b) && b <= b' <= SPACE_TOP
    ensures Vocabulary(n, w, b')
  {
    hide Callable, SameOn;
    forall a | a in w ensures Callable(n, w[a], a, b') {
      CallableFrame(m, n, w[a], a, b, b');
    }
  }
}
