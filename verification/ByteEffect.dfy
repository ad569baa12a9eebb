// What structured source of the first system does to the data stack alone.  A body
// maps a list of values to a list of values; the meaning on states agrees with it
// for the words that only use the data stack, and so does the run of the code.
module ByteEffect {
  import opened Dataspace
  import opened ByteState
  import opened ByteWords
  import opened ByteSource
  import opened ByteMeaning
  import opened ByteRun

  const DATA_DEPTH := 19
  const RETURN_DEPTH := 19

  // The values a body gives, or a LEAVE in it returns with; Fails is the assertion
  // of a stack that is empty or full.
  datatype Effect =
    | Gives(stack: seq<cell>)
    | Returns(stack: seq<cell>)
    | Fails
    | Halts
    | Exhausts
    | Unknown

  function Last(s: seq<cell>): cell
    requires s != []
  {
    s[|s| - 1]
  }

  function Front(s: seq<cell>): seq<cell>
    requires s != []
  {
    s[..|s| - 1]
  }

  function Pushed(s: seq<cell>, v: cell): Effect {
    if |s| >= DATA_DEPTH then Fails else Gives(s + [v])
  }

  // The words that look at memory see the part below the stacks.
  function OneEffect(m: Memory, op: byte, s: seq<cell>): Effect
    requires |s| > 0
  {
    if op == DROP || op == DOT || op == EMIT then Gives(Front(s))
    else if op == DUP then Pushed(s, Last(s))
    else if op == FETCH then
      if Last(s) + 2 > SPACE_TOP then Unknown else Gives(Front(s) + [Fetch16(m, Last(s))])
    else Unknown
  }

  // x is below y on the stack.
  function TwoEffect(op: byte, s: seq<cell>, x: cell, y: cell): Effect {
    if op == ADD then Gives(s + [(x + y) % 0x1_0000])
    else if op == EQUAL then Gives(s + [if x == y then 0xFFFF else 0])
    else if op == OVER then Pushed(s + [x, y], x)
    else if op == SWAP then Gives(s + [y, x])
    else Unknown
  }

  predicate TakesOne(op: byte) {
    op in {DROP, DOT, EMIT, DUP, FETCH}
  }

  predicate TakesTwo(op: byte) {
    op in {ADD, EQUAL, OVER, SWAP}
  }

  predicate Simple(op: byte) {
    OnDataOnly(op) || op == HALT
  }

  function CodeEffect(m: Memory, op: byte, s: seq<cell>, depth: nat): Effect {
    if op == NOP || op == CR || op == DECOMPILE then Gives(s)
    else if op == BL then Pushed(s, 32)
    else if op == HERE then Pushed(s, m[LOC_WHERE])
    else if op == PREMAIN then Pushed(s, Remaining(m))
    else if op == HALT then Halts
    else if op == LEAVE then if depth == 0 then Fails else Returns(s)
    else if TakesOne(op) then if |s| < 1 then Fails else OneEffect(m, op, s)
    else if TakesTwo(op) then if |s| < 2 then Fails else TwoEffect(op, s[..|s| - 2], s[|s| - 2], s[|s| - 1])
    else Unknown
  }

  function CallEffect(code: Memory, m: Memory, w: Words, p: Body, s: seq<cell>, depth: nat, fuel: nat): Effect
    decreases fuel, 0
  {
    if depth >= RETURN_DEPTH then Fails
    else if fuel == 0 then Exhausts
    else
      match BodyEffect(code, m, w, p, s, depth + 1, fuel - 1)
      case Returns(t) => Gives(t)
      case e => e
  }

  // EXECUTE: the word on the stack, of a byte code that only uses the data stack, or
  // called.
  function AppliedEffect(code: Memory, m: Memory, w: Words, s: seq<cell>, depth: nat, fuel: nat): Effect
    decreases fuel, 1, 0
  {
    if s == [] then Fails
    else if Last(s) + H_SIZE > SPACE_TOP then Unknown
    else if IsInstruction(m, Last(s)) then
      if Simple(Named(m, Last(s))) then CodeEffect(m, Named(m, Last(s)), Front(s), depth) else Unknown
    else if Called(m, Last(s)) in w then CallEffect(code, m, w, w[Called(m, Last(s))], Front(s), depth, fuel)
    else Unknown
  }

  function UseEffect(code: Memory, m: Memory, w: Words, xt: cell, s: seq<cell>, depth: nat, fuel: nat): Effect
    decreases fuel, 1
  {
    if IsInstruction(code, xt) && Named(code, xt) == EXECUTE then AppliedEffect(code, m, w, s, depth, fuel)
    else if IsInstruction(code, xt) then CodeEffect(m, Named(code, xt), s, depth)
    else if Called(code, xt) in w then CallEffect(code, m, w, w[Called(code, xt)], s, depth, fuel)
    else Unknown
  }

  function BodyEffect(code: Memory, m: Memory, w: Words, p: Body, s: seq<cell>, depth: nat, fuel: nat): Effect
    decreases fuel, 2, p
  {
    match p
    case Nothing => Gives(s)
    case Use(xt) => UseEffect(code, m, w, xt, s, depth, fuel)
    case Value(n) => Pushed(s, n)
    case Both(p, q) =>
      (match BodyEffect(code, m, w, p, s, depth, fuel)
       case Gives(t) => BodyEffect(code, m, w, q, t, depth, fuel)
       case e => e)
    case IfThen(p) =>
      if s == [] then Fails
      else if Last(s) == 0 then Gives(Front(s))
      else BodyEffect(code, m, w, p, Front(s), depth, fuel)
    case IfElse(p, q) =>
      if s == [] then Fails
      else if Last(s) == 0 then BodyEffect(code, m, w, q, Front(s), depth, fuel)
      else BodyEffect(code, m, w, p, Front(s), depth, fuel)
    case Loop(p) => LoopEffect(code, m, w, p, s, depth, fuel)
  }

  function LoopEffect(code: Memory, m: Memory, w: Words, p: Body, s: seq<cell>, depth: nat, fuel: nat): Effect
    decreases fuel, 2, Loop(p), 0
  {
    if fuel == 0 then Exhausts
    else
      match BodyEffect(code, m, w, p, s, depth, fuel)
      case Gives(t) => LoopEffect(code, m, w, p, t, depth, fuel - 1)
      case e => e
  }

  ghost function DataOf(st: State): seq<cell>
    requires StacksOk(st)
  {
    Cells(st.mem, DATA_BOTTOM, st.data)
  }

  // Memory below the stacks is m.
  ghost predicate Running(st: State, m: Memory) {
    StacksOk(st) && SameOn(m, st.mem, 0, SPACE_TOP)
  }

  // The control stack, the dictionary and the input are those of st.
  ghost predicate SameRest(st: State, s: State)
    requires StacksOk(st) && StacksOk(s)
  {
    && s.control == st.control && ControlOf(s) == ControlOf(st)
    && s.dictHead == st.dictHead && s.dictNew == st.dictNew && s.input == st.input
  }

  // s differs from st only in its data stack, stack space and instruction pointer.
  ghost predicate SameFrame(st: State, s: State)
    requires StacksOk(st)
  {
    StacksOk(s) && s.ret == st.ret && ReturnOf(s) == ReturnOf(st) && SameRest(st, s)
  }

  lemma Depths(st: State)
    requires StacksOk(st)
    ensures |DataOf(st)| <= DATA_DEPTH && (st.data + 2 == DATA_TOP <==> |DataOf(st)| == DATA_DEPTH)
    ensures st.data == DATA_BOTTOM <==> DataOf(st) == []
    ensures |ReturnOf(st)| <= RETURN_DEPTH && (st.ret + 2 == RETURN_TOP <==> |ReturnOf(st)| == RETURN_DEPTH)
    ensures st.ret == RETURN_BOTTOM <==> ReturnOf(st) == []
  {
  }

  lemma Pushes1(st: State, m: Memory, v: cell)
    requires Running(st, m)
    ensures PushData(st, v).Next? <==> |DataOf(st)| < DATA_DEPTH
    ensures match PushData(st, v)
            case Stop(why) => why == StackAssertion
            case Next(s) => Running(s, m) && SameFrame(st, s) && DataOf(s) == DataOf(st) + [v] && s.ip == st.ip
  {
    hide Fetch16, Store16, SameOn, Cells;
    Depths(st);
    if PushData(st, v).Next? {
      var d, n := st.data, Store16(st.mem, st.data, v);
      CellsPush(st.mem, DATA_BOTTOM, d, v);
      StoreOutside(st.mem, d, v, 0, SPACE_TOP);
      SameBoth(m, st.mem, n, 0, SPACE_TOP);
      StoreOutside(st.mem, d, v, CONTROL_BOTTOM, st.control);
      StoreOutside(st.mem, d, v, RETURN_BOTTOM, st.ret);
      CellsFrame(st.mem, n, CONTROL_BOTTOM, st.control);
      CellsFrame(st.mem, n, RETURN_BOTTOM, st.ret);
    }
  }

  lemma Pops1(st: State, m: Memory)
    requires Running(st, m)
    ensures match PopData(st)
            case Empty => DataOf(st) == []
            case Popped(s, v) =>
              && Running(s, m) && SameFrame(st, s) && DataOf(st) != [] && DataOf(s) == Front(DataOf(st))
              && v == Last(DataOf(st)) && s == st.(data := s.data)
  {
    hide Fetch16, SameOn;
    Depths(st);
    if st.data != DATA_BOTTOM {
      CellsPop(st.mem, DATA_BOTTOM, st.data);
    }
  }

  lemma {:induction false} PopsMany(st: State, m: Memory, n: nat)
    requires Running(st, m)
    ensures var (o, xs) := PopMany(st, n);
            var s := DataOf(st);
            if |s| < n then o == Stop(StackAssertion)
            else
              && o.Next? && Running(o.st, m) && SameFrame(st, o.st) && DataOf(o.st) == s[..|s| - n] && |xs| == n
              && o.st.ip == st.ip && forall i :: 0 <= i < n ==> xs[i] == s[|s| - 1 - i]
    decreases n
  {
    hide Fetch16, SameOn, Cells;
    Pops1(st, m);
    if n > 0 && PopData(st).Popped? {
      PopsMany(PopData(st).st, m, n - 1);
    }
  }

  lemma {:induction false} PushesMany(st: State, m: Memory, vs: seq<cell>)
    requires Running(st, m)
    ensures var o := PushMany(st, vs);
            if |DataOf(st)| + |vs| > DATA_DEPTH then o == Stop(StackAssertion)
            else
              && o.Next? && Running(o.st, m) && SameFrame(st, o.st) && DataOf(o.st) == DataOf(st) + vs
              && o.st.ip == st.ip
    decreases |vs|
  {
    hide Fetch16, Store16, SameOn, Cells;
    Depths(st);
    if vs != [] {
      Pushes1(st, m, vs[0]);
      if PushData(st, vs[0]).Next? {
        PushesMany(PushData(st, vs[0]).st, m, vs[1..]);
        assert vs == [vs[0]] + vs[1..];
      }
    }
  }

  // What a byte code does, as an effect.
  ghost predicate CodeEnds(st: State, m: Memory, o: Outcome, e: Effect)
    requires StacksOk(st)
  {
    match e
    case Gives(s) => o.Next? && Running(o.st, m) && SameFrame(st, o.st) && DataOf(o.st) == s
      && o.st.ip == Wrap(st.ip + 1)
    case Returns(s) =>
      && o.Next? && Running(o.st, m) && DataOf(o.st) == s && ReturnOf(st) != [] && o.st.ret + 2 == st.ret
      && ReturnOf(o.st) == Front(ReturnOf(st)) && o.st.ip == Last(ReturnOf(st)) && SameRest(st, o.st)
    case Fails => o == Stop(StackAssertion)
    case Halts => o == Stop(Halted)
    case _ => true
  }

  lemma DataEnds(st: State, m: Memory, op: byte, ans: Answers)
    requires Running(st, m) && OnDataOnly(op)
    ensures CodeEnds(st, m, Perform(st, op, ans), CodeEffect(m, op, DataOf(st), |ReturnOf(st)|))
  {
    hide Fetch16, SameOn, Cells, PopMany, PushMany, Pushes, CodeEffect, CodeEnds, Perform, Running;
    RunningOk(st, m);
    PerformsData(st, op, ans);
    var s := DataOf(st);
    PopsMany(st, m, Pops(op));
    var (o, xs) := PopMany(st, Pops(op));
    if |s| < Pops(op) {
      TooFew(st, m, op);
    } else {
      var vs := Pushes(op, st, xs, ans);
      PushesMany(o.st, m, vs);
      PushesThese(st, m, op, xs, ans);
      ListEffect(m, op, s, |ReturnOf(st)|, xs, vs);
      Onwards(st, m, op, ans, s[..|s| - Pops(op)] + vs);
    }
  }

  lemma TooFew(st: State, m: Memory, op: byte)
    requires Running(st, m) && OnDataOnly(op) && |DataOf(st)| < Pops(op)
    ensures CodeEnds(st, m, Stop(StackAssertion), CodeEffect(m, op, DataOf(st), |ReturnOf(st)|))
  {
    hide Cells, SameOn;
  }

  // The effect is the list that is left and what is pushed on it, as long as that
  // fits.
  lemma ListEffect(m: Memory, op: byte, s: seq<cell>, depth: nat, xs: seq<cell>, vs: seq<cell>)
    requires OnDataOnly(op) && |s| >= Pops(op) == |xs| && |s| <= DATA_DEPTH
    requires forall i :: 0 <= i < |xs| ==> xs[i] == s[|s| - 1 - i]
    requires Leftover(m, op, xs, vs)
    ensures Lists(CodeEffect(m, op, s, depth), s[..|s| - |xs|] + vs)
  {
    hide Fetch16, Remaining, OneEffect, TwoEffect, Leftover;
    if TakesTwo(op) {
      TwoList(m, op, s, xs, vs);
    } else if TakesOne(op) {
      OneList(m, op, s, xs, vs);
    } else if op != FIND2 && op != PNUM {
      assert s[..|s|] == s;
      NoneList(m, op, s, depth, xs, vs);
    }
  }

  ghost predicate Lists(e: Effect, t: seq<cell>) {
    e.Unknown? || (if |t| > DATA_DEPTH then e == Fails else e == Gives(t))
  }

  lemma TwoList(m: Memory, op: byte, s: seq<cell>, xs: seq<cell>, vs: seq<cell>)
    requires TakesTwo(op) && Pops(op) == |xs| == 2 <= |s| <= DATA_DEPTH
    requires xs[0] == s[|s| - 1] && xs[1] == s[|s| - 2] && Leftover(m, op, xs, vs)
    ensures Lists(TwoEffect(op, s[..|s| - 2], s[|s| - 2], s[|s| - 1]), s[..|s| - 2] + vs)
  {
    var r := s[..|s| - 2];
    assert r + [xs[1], xs[0]] + [xs[1]] == r + [xs[1], xs[0], xs[1]];
  }

  lemma OneList(m: Memory, op: byte, s: seq<cell>, xs: seq<cell>, vs: seq<cell>)
    requires TakesOne(op) && Pops(op) == |xs| == 1 <= |s| <= DATA_DEPTH && xs[0] == s[|s| - 1]
    requires Leftover(m, op, xs, vs)
    ensures Lists(OneEffect(m, op, s), s[..|s| - 1] + vs)
  {
    hide Fetch16, Remaining;
    assert s == Front(s) + [xs[0]];
    assert Front(s) + [xs[0], xs[0]] == s + [xs[0]];
    assert Front(s) + [] == Front(s);
  }

  lemma NoneList(m: Memory, op: byte, s: seq<cell>, depth: nat, xs: seq<cell>, vs: seq<cell>)
    requires OnDataOnly(op) && !TakesTwo(op) && !TakesOne(op) && Pops(op) == |xs| && |s| <= DATA_DEPTH
    requires Leftover(m, op, xs, vs)
    ensures Lists(CodeEffect(m, op, s, depth), s + vs)
  {
    hide Fetch16, Remaining, OneEffect, TwoEffect;
    assert s + [] == s;
  }

  lemma Onwards(st: State, m: Memory, op: byte, ans: Answers, t: seq<cell>)
    requires Running(st, m) && OnDataOnly(op) && Perform(st, op, ans) == Onward(st, op, ans)
    requires var o := DataStep(st, op, ans);
             if |t| > DATA_DEPTH then o == Stop(StackAssertion)
             else o.Next? && Running(o.st, m) && SameFrame(st, o.st) && DataOf(o.st) == t
    ensures CodeEnds(st, m, Perform(st, op, ans), if |t| > DATA_DEPTH then Fails else Gives(t))
    ensures CodeEnds(st, m, Perform(st, op, ans), Unknown)
  {
    hide Cells, SameOn, DataStep, Perform;
  }

  lemma PerformsData(st: State, op: byte, ans: Answers)
    requires StacksOk(st) && OnDataOnly(op)
    ensures Perform(st, op, ans) == Onward(st, op, ans)
  {
    hide Fetch16, DataStep;
  }

  // The values each byte code leaves, from those it took, the top one first.
  ghost predicate Leftover(m: Memory, op: byte, xs: seq<cell>, vs: seq<cell>)
    requires |xs| == Pops(op)
  {
    && (op == ADD ==> vs == [(xs[1] as int + xs[0] as int) % 0x1_0000])
    && (op == EQUAL ==> vs == [if xs[1] == xs[0] then 0xFFFF else 0])
    && (op == OVER ==> vs == [xs[1], xs[0], xs[1]]) && (op == SWAP ==> vs == [xs[0], xs[1]])
    && (op == DUP ==> vs == [xs[0], xs[0]]) && (op in {DROP, DOT, EMIT, NOP, CR, DECOMPILE} ==> vs == [])
    && (op == FETCH && xs[0] + 2 <= SPACE_TOP ==> vs == [Fetch16(m, xs[0])])
    && (op == BL ==> vs == [32]) && (op == HERE ==> vs == [m[LOC_WHERE]]) && (op == PREMAIN ==> vs == [Remaining(m)])
  }

  lemma PushesThese(st: State, m: Memory, op: byte, xs: seq<cell>, ans: Answers)
    requires Running(st, m) && OnDataOnly(op) && |xs| == Pops(op)
    ensures Leftover(m, op, xs, Pushes(op, st, xs, ans))
  {
    hide SameOn;
    ByteSame(m, st.mem, 0, SPACE_TOP, LOC_WHERE);
    FetchSame(m, st.mem, 0, SPACE_TOP, LOC_INPUT_BUFFER_INDEX);
    FetchSame(m, st.mem, 0, SPACE_TOP, LOC_INPUT_BUFFER_COUNT);
    if op == FETCH && xs[0] + 2 <= SPACE_TOP { FetchSame(m, st.mem, 0, SPACE_TOP, xs[0]); }
    hide Fetch16;
  }

  lemma LeaveEnds(st: State, m: Memory, ans: Answers)
    requires Running(st, m)
    ensures CodeEnds(st, m, Perform(st, LEAVE, ans), CodeEffect(m, LEAVE, DataOf(st), |ReturnOf(st)|))
  {
    hide Fetch16, SameOn;
    Depths(st);
    if st.ret != RETURN_BOTTOM { CellsPop(st.mem, RETURN_BOTTOM, st.ret); }
  }

  lemma CodeHas(st: State, m: Memory, op: byte, ans: Answers)
    requires Running(st, m)
    ensures CodeEnds(st, m, Perform(st, op, ans), CodeEffect(m, op, DataOf(st), |ReturnOf(st)|))
  {
    hide Fetch16, SameOn, Cells, DataStep;
    if OnDataOnly(op) { DataEnds(st, m, op, ans); }
    else if op == LEAVE { LeaveEnds(st, m, ans); }
  }

  // The result of a body has the effect.
  ghost predicate Agrees(st: State, m: Memory, r: Result, e: Effect)
    requires StacksOk(st)
  {
    match e
    case Gives(s) => r.Normal? && Running(r.st, m) && SameFrame(st, r.st) && DataOf(r.st) == s
    case Returns(s) =>
      && r.Left? && Running(r.st, m) && DataOf(r.st) == s && ReturnOf(st) != []
      && ReturnOf(r.st) == Front(ReturnOf(st)) && r.st.ip == Last(ReturnOf(st)) && SameRest(st, r.st)
    case Fails => r == Stopped(StackAssertion)
    case Halts => r == Stopped(Halted)
    case Exhausts => r == OutOfFuel
    case Unknown => true
  }

  // The code is that of `code` below b, whatever else memory holds.
  ghost predicate Over(code: Memory, m: Memory, b: cell) {
    b <= SPACE_TOP && SameOn(code, m, DICTIONARY_START, b)
  }

  lemma RunningIntact(st: State, code: Memory, m: Memory, b: cell)
    requires Running(st, m) && Over(code, m, b)
    ensures Intact(code, b, st)
  {
  }

  lemma Moved(st: State, m: Memory, a: int)
    requires Running(st, m)
    ensures Running(At(st, a), m) && SameFrame(st, At(st, a)) && DataOf(At(st, a)) == DataOf(st)
    ensures ReturnOf(At(st, a)) == ReturnOf(st)
  {
  }

  // The agreement: what a body means, where its code stands, shows on the data stack
  // as its effect.
  lemma {:induction false} BodyAgrees(st: State, code: Memory, m: Memory, b: cell, w: Words, ans: Answers, p: Body,
      a: cell, fuel: nat)
    requires Vocabulary(code, w, b) && Running(st, m) && Over(code, m, b) && st.ip == a
    requires DICTIONARY_START <= a && a + Size(code, p) <= b && CodeAt(code, a, Code(code, p, a))
    ensures Intact(code, b, st)
    ensures Agrees(st, m, Mean(code, b, w, ans, p, st, fuel),
            BodyEffect(code, m, w, p, DataOf(st), |ReturnOf(st)|, fuel))
    decreases fuel, 2, p
  {
    hide Fetch16, Store16, SameOn, Cells, CodeAt, Code, Vocabulary, MeanCode, UseEffect, Perform, Intact, SameFrame;
    hide Size;
    RunningIntact(st, code, m, b);
    var s := DataOf(st);
    match p
    case Nothing => SameSelf(st, m);
    case Use(xt) => UseAgrees(st, code, m, b, w, ans, xt, fuel);
    case Value(n) =>
      Pushes1(st, m, n);
      Depths(st);
      if PushData(st, n).Next? { ThenMoved(st, PushData(st, n).st, m, a + 3); }
    case Both(p1, p2) => BothAgrees(st, code, m, b, w, ans, p1, p2, a, fuel);
    case IfThen(p1) => ThenAgrees(st, code, m, b, w, ans, p1, a, fuel);
    case IfElse(p1, p2) => ForkAgrees(st, code, m, b, w, ans, p1, p2, a, fuel);
    case Loop(p1) => LoopAgrees(st, code, m, b, w, ans, p1, a, fuel);
  }

  lemma SameSelf(st: State, m: Memory)
    requires Running(st, m)
    ensures SameFrame(st, st)
  {
  }

  lemma ThenMoved(st: State, s: State, m: Memory, a: int)
    requires StacksOk(st) && Running(s, m) && SameFrame(st, s)
    ensures Running(At(s, a), m) && SameFrame(st, At(s, a)) && DataOf(At(s, a)) == DataOf(s)
    ensures ReturnOf(At(s, a)) == ReturnOf(st)
  {
  }

  lemma FrameTrans(st: State, s: State, t: State)
    requires StacksOk(st) && StacksOk(s) && SameFrame(st, s) && SameFrame(s, t)
    ensures SameFrame(st, t)
  {
    hide Cells;
  }

  // A body, after the state that led to it.
  lemma AgreesAfter(st: State, s: State, m: Memory, r: Result, e: Effect)
    requires StacksOk(st) && StacksOk(s) && SameFrame(st, s) && Agrees(s, m, r, e)
    ensures Agrees(st, m, r, e)
  {
    hide Cells, SameOn;
    if e.Gives? { FrameTrans(st, s, r.st); }
  }

  // And before the state it leads to.
  lemma AgreesMoved(st: State, m: Memory, r: Result, e: Effect, z: int)
    requires StacksOk(st) && Agrees(st, m, r, e)
    ensures Agrees(st, m, match r case Normal(t) => Normal(At(t, z)) case r' => r', e)
  {
    hide Cells, SameOn, Running, SameFrame;
    if e.Gives? { ThenMoved(st, r.st, m, z); }
  }

  lemma {:induction false} BothAgrees(st: State, code: Memory, m: Memory, b: cell, w: Words, ans: Answers, p1: Body,
      p2: Body, a: cell, fuel: nat)
    requires Vocabulary(code, w, b) && Running(st, m) && Over(code, m, b) && st.ip == a && Intact(code, b, st)
    requires DICTIONARY_START <= a && a + Size(code, Both(p1, p2)) <= b
    requires CodeAt(code, a, Code(code, Both(p1, p2), a))
    ensures Agrees(st, m, Mean(code, b, w, ans, Both(p1, p2), st, fuel),
                   BodyEffect(code, m, w, Both(p1, p2), DataOf(st), |ReturnOf(st)|, fuel))
    decreases fuel, 2, Both(p1, p2), 0
  {
    hide Fetch16, SameOn, Cells, CodeAt, Code, Vocabulary, MeanCode, UseEffect, Intact, Size, Agrees, Over;
    BothShape(code, p1, p2, a);
    CodeSplit(code, a, Code(code, p1, a), Code(code, p2, a + Size(code, p1)));
    WrapSum(a + Size(code, p1), 0, 0);
    BodyAgrees(st, code, m, b, w, ans, p1, a, fuel);
    var r := Mean(code, b, w, ans, p1, st, fuel);
    var e := BodyEffect(code, m, w, p1, DataOf(st), |ReturnOf(st)|, fuel);
    AgreesKind(st, m, r, e);
    if e.Gives? {
      BodyAgrees(r.st, code, m, b, w, ans, p2, a + Size(code, p1), fuel);
      AgreesAfter(st, r.st, m, Mean(code, b, w, ans, p2, r.st, fuel),
                  BodyEffect(code, m, w, p2, e.stack, |ReturnOf(st)|, fuel));
    }
  }

  lemma AgreesKind(st: State, m: Memory, r: Result, e: Effect)
    requires StacksOk(st) && Agrees(st, m, r, e)
    ensures e.Gives? ==> && r.Normal? && Running(r.st, m) && SameFrame(st, r.st) && DataOf(r.st) == e.stack
                         && StacksOk(r.st) && ReturnOf(r.st) == ReturnOf(st)
    ensures !e.Gives? && !e.Unknown? ==> !r.Normal?
    ensures e.Unknown? ==> forall r' :: Agrees(st, m, r', e)
  {
  }

  lemma {:induction false} ThenAgrees(st: State, code: Memory, m: Memory, b: cell, w: Words, ans: Answers, p1: Body,
      a: cell, fuel: nat)
    requires Vocabulary(code, w, b) && Running(st, m) && Over(code, m, b) && st.ip == a && Intact(code, b, st)
    requires DICTIONARY_START <= a && a + Size(code, IfThen(p1)) <= b
    requires CodeAt(code, a, Code(code, IfThen(p1), a))
    ensures Agrees(st, m, MeanThen(code, b, w, ans, p1, st, fuel),
                   BodyEffect(code, m, w, IfThen(p1), DataOf(st), |ReturnOf(st)|, fuel))
    decreases fuel, 2, IfThen(p1), 0
  {
    hide Fetch16, SameOn, Cells, CodeAt, Code, Vocabulary, Mean, UseEffect, Size, Over, Agrees, Running, SameFrame;
    IfThenShape(code, p1, a);
    var y := a + 3 + Size(code, p1);
    CodeSplit(code, a, Operand(JMP_FALSE, y), Code(code, p1, a + 3));
    CodeSplit(code, a, Operand(JMP_FALSE, y) + Code(code, p1, a + 3), [NOP]);
    RunningOk(st, m);
    Pops1(st, m);
    WrapSum(a + 3, 0, 0);
    match PopData(st)
    case Empty => FailsHere(st, m);
    case Popped(s, v) =>
      if v == 0 {
        ThenMoved(st, s, m, y + 1);
        GivesHere(st, m, At(s, y + 1));
      } else {
        var t := At(s, a + 3);
        ThenMoved(st, s, m, a + 3);
        BodyAgrees(t, code, m, b, w, ans, p1, a + 3, fuel);
        var r := Mean(code, b, w, ans, p1, t, fuel);
        var e := BodyEffect(code, m, w, p1, DataOf(t), |ReturnOf(st)|, fuel);
        AgreesAfter(st, t, m, r, e);
        AgreesMoved(st, m, r, e, y + 1);
      }
  }

  lemma RunningOk(st: State, m: Memory)
    requires Running(st, m)
    ensures StacksOk(st)
  {
  }

  lemma FailsHere(st: State, m: Memory)
    requires StacksOk(st)
    ensures Agrees(st, m, Stopped(StackAssertion), Fails)
  {
  }

  lemma GivesHere(st: State, m: Memory, t: State)
    requires StacksOk(st) && Running(t, m) && SameFrame(st, t)
    ensures StacksOk(t) && Agrees(st, m, Normal(t), Gives(DataOf(t)))
  {
  }

  lemma {:induction false} ForkAgrees(st: State, code: Memory, m: Memory, b: cell, w: Words, ans: Answers, p1: Body,
      p2: Body, a: cell, fuel: nat)
    requires Vocabulary(code, w, b) && Running(st, m) && Over(code, m, b) && st.ip == a && Intact(code, b, st)
    requires DICTIONARY_START <= a && a + Size(code, IfElse(p1, p2)) <= b
    requires CodeAt(code, a, Code(code, IfElse(p1, p2), a))
    ensures Agrees(st, m, MeanFork(code, b, w, ans, p1, p2, st, fuel),
                   BodyEffect(code, m, w, IfElse(p1, p2), DataOf(st), |ReturnOf(st)|, fuel))
    decreases fuel, 2, IfElse(p1, p2), 0
  {
    hide Fetch16, SameOn, Cells, CodeAt, Code, Vocabulary, Mean, UseEffect, Size, Over, Agrees, Running, SameFrame;
    IfElseShape(code, p1, p2, a);
    var x := a + 6 + Size(code, p1);
    ForkParts(code, a, Code(code, p1, a + 3), Code(code, p2, x));
    RunningOk(st, m);
    Pops1(st, m);
    WrapSum(a + 3, 0, 0);
    WrapSum(x, 0, 0);
    match PopData(st)
    case Empty => FailsHere(st, m);
    case Popped(s, v) =>
      var q := if v != 0 then p1 else p2;
      var t := At(s, if v != 0 then a + 3 else x);
      ThenMoved(st, s, m, if v != 0 then a + 3 else x);
      BodyAgrees(t, code, m, b, w, ans, q, t.ip, fuel);
      var r := Mean(code, b, w, ans, q, t, fuel);
      var e := BodyEffect(code, m, w, q, DataOf(t), |ReturnOf(st)|, fuel);
      AgreesAfter(st, t, m, r, e);
      AgreesMoved(st, m, r, e, x + Size(code, p2) + 1);
  }

  lemma {:induction false} LoopAgrees(st: State, code: Memory, m: Memory, b: cell, w: Words, ans: Answers, p1: Body,
      a: cell, fuel: nat)
    requires Vocabulary(code, w, b) && Running(st, m) && Over(code, m, b) && st.ip == a && Intact(code, b, st)
    requires DICTIONARY_START <= a && a + Size(code, Loop(p1)) <= b
    requires CodeAt(code, a, Code(code, Loop(p1), a))
    ensures Agrees(st, m, MeanLoop(code, b, w, ans, p1, st, fuel),
                   LoopEffect(code, m, w, p1, DataOf(st), |ReturnOf(st)|, fuel))
    decreases fuel, 2, Loop(p1), 1
  {
    hide Fetch16, SameOn, Cells, CodeAt, Code, Vocabulary, Mean, UseEffect, BodyEffect, Size, Over, Running, SameFrame;
    LoopShape(code, p1, a);
    CodeSplit(code, a, [NOP], Code(code, p1, a + 1));
    CodeSplit(code, a, [NOP] + Code(code, p1, a + 1), Operand(JMP, a));
    WrapSum(a + 1, 0, 0);
    WrapSum(a, 0, 0);
    if fuel > 0 {
      hide Agrees;
      var t := At(st, a + 1);
      Moved(st, m, a + 1);
      BodyAgrees(t, code, m, b, w, ans, p1, a + 1, fuel);
      var r := Mean(code, b, w, ans, p1, t, fuel);
      var e := BodyEffect(code, m, w, p1, DataOf(st), |ReturnOf(st)|, fuel);
      AgreesKind(t, m, r, e);
      AgreesAfter(st, t, m, r, e);
      if e.Gives? {
        FrameTrans(st, t, r.st);
        ThenMoved(st, r.st, m, a);
        RunningIntact(At(r.st, a), code, m, b);
        LoopAgrees(At(r.st, a), code, m, b, w, ans, p1, a, fuel - 1);
        AgreesAfter(st, At(r.st, a), m, MeanLoop(code, b, w, ans, p1, At(r.st, a), fuel - 1),
                    LoopEffect(code, m, w, p1, e.stack, |ReturnOf(st)|, fuel - 1));
      }
    }
  }

  // A word, of a byte code or called.
  lemma {:induction false} UseAgrees(st: State, code: Memory, m: Memory, b: cell, w: Words, ans: Answers, xt: cell,
      fuel: nat)
    requires Vocabulary(code, w, b) && Running(st, m) && Over(code, m, b) && Intact(code, b, st)
    requires DICTIONARY_START <= st.ip && st.ip + Size(code, Use(xt)) <= b
    requires CodeAt(code, st.ip, Code(code, Use(xt), st.ip))
    ensures Agrees(st, m, MeanCode(code, b, w, ans, Named(code, xt), UseSize(code, xt), st, fuel),
                   UseEffect(code, m, w, xt, DataOf(st), |ReturnOf(st)|, fuel))
    decreases fuel, 1
  {
    hide Fetch16, Store16, SameOn, Cells, Code, Callable, CodeStart, IsInstruction, BodyEffect, MeanCall;
    if IsInstruction(code, xt) && Named(code, xt) == EXECUTE {
      AppliedAgrees(st, code, m, b, w, ans, fuel);
    } else if IsInstruction(code, xt) {
      CodeAgrees(st, code, m, b, w, ans, Named(code, xt), fuel);
    } else {
      CalledThere(code, xt, st.ip);
      OperandThere(st, code, b, ENTER, Called(code, xt));
      WrapSum(st.ip + 3, 0, 0);
      WrapSum(Called(code, xt), 0, 0);
      var start := Called(code, xt);
      if start in w {
        EnterEnds(st, m, start, ans);
        var o := Perform(st, ENTER, ans);
        Depths(st);
        if o.Next? {
          RunningIntact(o.st, code, m, b);
          CallAgrees(st, o.st, st.ip + 3, DataOf(st), code, m, b, w, ans, w[start], fuel);
        }
      }
    }
  }

  lemma CalledThere(code: Memory, xt: cell, a: nat)
    requires !IsInstruction(code, xt) && CodeAt(code, a, Code(code, Use(xt), a))
    ensures CodeAt(code, a, Operand(ENTER, Called(code, xt))) && Size(code, Use(xt)) == UseSize(code, xt) == 3
    ensures Named(code, xt) == ENTER
  {
  }

  lemma CodeAgrees(st: State, code: Memory, m: Memory, b: cell, w: Words, ans: Answers, op: byte, fuel: nat)
    requires Running(st, m) && Over(code, m, b) && Intact(code, b, st)
    ensures Agrees(st, m, MeanCode(code, b, w, ans, op, 1, st, fuel), CodeEffect(m, op, DataOf(st), |ReturnOf(st)|))
  {
    hide Fetch16, SameOn, Cells, Perform, MeanCall, OneEffect, TwoEffect;
    CodeHas(st, m, op, ans);
    OnlyLeave(m, op, DataOf(st), |ReturnOf(st)|);
    var o := Perform(st, op, ans);
    var e := CodeEffect(m, op, DataOf(st), |ReturnOf(st)|);
    if e.Gives? || e.Returns? {
      RunningIntact(o.st, code, m, b);
    }
  }

  lemma OnlyLeave(m: Memory, op: byte, s: seq<cell>, depth: nat)
    ensures CodeEffect(m, op, s, depth).Returns? ==> op == LEAVE
    ensures !CodeEffect(m, op, s, depth).Exhausts?
  {
  }

  // An address on the return stack.
  lemma ReturnPushed(st: State, m: Memory, v: cell)
    requires Running(st, m)
    ensures PushReturn(st, v) == Stop(StackAssertion) <==> |ReturnOf(st)| == RETURN_DEPTH
    ensures |ReturnOf(st)| < RETURN_DEPTH ==>
              && PushReturn(st, v).Next?
              && var s := PushReturn(st, v).st;
                 && Running(s, m) && s.ret == st.ret + 2 && ReturnOf(s) == ReturnOf(st) + [v]
                 && DataOf(s) == DataOf(st) && SameRest(st, s) && s.ip == st.ip && SameOn(st.mem, s.mem, 0, SPACE_TOP)
  {
    hide Fetch16, Store16, SameOn, Cells;
    Depths(st);
    if st.ret + 2 != RETURN_TOP {
      var n := Store16(st.mem, st.ret, v);
      CellsPush(st.mem, RETURN_BOTTOM, st.ret, v);
      StoreOutside(st.mem, st.ret, v, 0, SPACE_TOP);
      SameBoth(m, st.mem, n, 0, SPACE_TOP);
      StoreOutside(st.mem, st.ret, v, CONTROL_BOTTOM, st.control);
      StoreOutside(st.mem, st.ret, v, DATA_BOTTOM, st.data);
      CellsFrame(st.mem, n, CONTROL_BOTTOM, st.control);
      CellsFrame(st.mem, n, DATA_BOTTOM, st.data);
    }
  }

  // ENTER puts the address behind its operand there.
  lemma EnterEnds(st: State, m: Memory, start: cell, ans: Answers)
    requires Running(st, m) && st.ip + 3 <= SPACE_TOP && Fetch16(st.mem, st.ip + 1) == start
    ensures Perform(st, ENTER, ans) == Stop(StackAssertion) <==> |ReturnOf(st)| == RETURN_DEPTH
    ensures |ReturnOf(st)| < RETURN_DEPTH ==>
              && Perform(st, ENTER, ans).Next?
              && var s := Perform(st, ENTER, ans).st;
                 && Running(s, m) && s.ip == start && s.ret == st.ret + 2 && ReturnOf(s) == ReturnOf(st) + [st.ip + 3]
                 && DataOf(s) == DataOf(st) && SameRest(st, s)
  {
    hide Fetch16, Store16, SameOn, Cells, Perform, PushReturn, Running, DataOf, ReturnOf, ControlOf;
    RunningOk(st, m);
    PerformsEnter(st, ans);
    ReturnPushed(st, m, st.ip + 3);
    if |ReturnOf(st)| < RETURN_DEPTH {
      var s := PushReturn(st, st.ip + 3).st;
      FetchSame(st.mem, s.mem, 0, SPACE_TOP, st.ip + 1);
      Moved(s, m, start);
    }
  }

  // EXECUTE of a word of a byte code performs it.
  lemma ExecutePerforms(st: State, m: Memory, ans: Answers)
    requires Running(st, m) && DataOf(st) != [] && Last(DataOf(st)) + H_SIZE <= SPACE_TOP
    requires IsInstruction(m, Last(DataOf(st))) && Simple(Named(m, Last(DataOf(st))))
    ensures CodeEnds(st, m, Perform(st, EXECUTE, ans),
                     CodeEffect(m, Named(m, Last(DataOf(st))), Front(DataOf(st)), |ReturnOf(st)|))
  {
    hide Fetch16, SameOn, Cells, CodeEffect;
    var xt := Last(DataOf(st));
    Pops1(st, m);
    var u := PopData(st).st;
    HeaderThere(u, m, xt);
    CodeHas(u, m, Named(m, xt), ans);
    hide Perform;
    ExecutesCode(st, u, xt, ans);
    SimpleKind(m, Named(m, xt), DataOf(u), |ReturnOf(u)|);
  }

  lemma HeaderThere(u: State, m: Memory, xt: cell)
    requires Running(u, m) && xt + H_SIZE <= SPACE_TOP
    ensures IsInstruction(u.mem, xt) == IsInstruction(m, xt) && Called(u.mem, xt) == Called(m, xt)
    ensures Fetch8(u.mem, Wrap(xt + H_SEMANTICS)) == Fetch8(m, Wrap(xt + H_SEMANTICS))
  {
    hide Fetch16, SameOn;
    FetchSame(m, u.mem, 0, SPACE_TOP, xt + H_FLAGS);
    ByteSame(m, u.mem, 0, SPACE_TOP, xt + H_LENGTH);
    ByteSame(m, u.mem, 0, SPACE_TOP, xt + H_SEMANTICS);
  }

  lemma ExecutesCode(st: State, u: State, xt: cell, ans: Answers)
    requires StacksOk(st) && StacksOk(u) && PopData(st) == Popped(u, xt) && IsInstruction(u.mem, xt)
    ensures Perform(st, EXECUTE, ans) == After(Perform(u, Fetch8(u.mem, Wrap(xt + H_SEMANTICS)), ans), st.ip)
  {
    hide Perform, Execute, ExecuteWord, IsInstruction, Fetch8, PopData, After;
    PerformsExecute(st, ans);
    ExecutesPopped(st, u, xt, ans);
    PerformsWord(u, xt, st.ip, ans);
  }

  lemma ExecutesPopped(st: State, u: State, xt: cell, ans: Answers)
    requires StacksOk(st) && StacksOk(u) && PopData(st) == Popped(u, xt)
    ensures Execute(st, ans) == ExecuteWord(u, xt, st.ip, ans)
  {
    hide ExecuteWord, PopData, Fetch16;
  }

  lemma PerformsWord(u: State, xt: cell, ip: cell, ans: Answers)
    requires StacksOk(u) && IsInstruction(u.mem, xt)
    ensures ExecuteWord(u, xt, ip, ans) == After(Perform(u, Fetch8(u.mem, Wrap(xt + H_SEMANTICS)), ans), ip)
  {
    hide Perform, After, IsInstruction, Fetch8, PushReturn, CodeStart;
  }

  lemma SimpleKind(m: Memory, op: byte, s: seq<cell>, depth: nat)
    requires Simple(op)
    ensures !CodeEffect(m, op, s, depth).Returns? && !CodeEffect(m, op, s, depth).Exhausts?
  {
  }

  // EXECUTE of a colon word calls it, to come back at the next byte.
  lemma ExecuteEnters(st: State, m: Memory, ans: Answers)
    requires Running(st, m) && DataOf(st) != [] && Last(DataOf(st)) + H_SIZE <= SPACE_TOP && st.ip + 1 < SIZE
    requires !IsInstruction(m, Last(DataOf(st)))
    ensures Perform(st, EXECUTE, ans) == Stop(StackAssertion) <==> |ReturnOf(st)| == RETURN_DEPTH
    ensures |ReturnOf(st)| < RETURN_DEPTH ==>
              && Perform(st, EXECUTE, ans).Next?
              && var s := Perform(st, EXECUTE, ans).st;
                 && Running(s, m) && s.ip == Called(m, Last(DataOf(st))) && s.ret == st.ret + 2
                 && ReturnOf(s) == ReturnOf(st) + [st.ip + 1] && DataOf(s) == Front(DataOf(st)) && SameRest(st, s)
  {
    hide Fetch16, Store16, SameOn, Cells, IsInstruction, CodeStart;
    var xt := Last(DataOf(st));
    Pops1(st, m);
    var u := PopData(st).st;
    HeaderThere(u, m, xt);
    Depths(u);
    PerformsExecute(st, ans);
    hide Perform;
    ReturnPushed(u, m, st.ip + 1);
    if |ReturnOf(u)| < RETURN_DEPTH {
      HeaderThere(PushReturn(u, st.ip + 1).st, m, xt);
    }
  }

  lemma {:induction false} AppliedAgrees(st: State, code: Memory, m: Memory, b: cell, w: Words, ans: Answers, fuel: nat)
    requires Vocabulary(code, w, b) && Running(st, m) && Over(code, m, b) && Intact(code, b, st)
    requires DICTIONARY_START <= st.ip && st.ip + 1 <= b
    ensures Agrees(st, m, MeanCode(code, b, w, ans, EXECUTE, 1, st, fuel),
                   AppliedEffect(code, m, w, DataOf(st), |ReturnOf(st)|, fuel))
    decreases fuel, 1, 0
  {
    hide Fetch16, Store16, SameOn, Cells, Callable, CodeStart, IsInstruction, BodyEffect, MeanCall, CodeEffect, Simple;
    Depths(st);
    if DataOf(st) == [] {
      NothingToExecute(st, ans);
    } else if Last(DataOf(st)) + H_SIZE <= SPACE_TOP {
      var xt, o := Last(DataOf(st)), Perform(st, EXECUTE, ans);
      if IsInstruction(m, xt) {
        if Simple(Named(m, xt)) {
          ExecutePerforms(st, m, ans);
          SimpleKind(m, Named(m, xt), Front(DataOf(st)), |ReturnOf(st)|);
          if o.Next? && CodeEffect(m, Named(m, xt), Front(DataOf(st)), |ReturnOf(st)|).Gives? {
            RunningIntact(o.st, code, m, b);
          }
        }
      } else if Called(m, xt) in w {
        ExecuteEnters(st, m, ans);
        if o.Next? {
          RunningIntact(o.st, code, m, b);
          CallAgrees(st, o.st, st.ip + 1, Front(DataOf(st)), code, m, b, w, ans, w[Called(m, xt)], fuel);
        }
      }
    }
  }

  lemma NothingToExecute(st: State, ans: Answers)
    requires StacksOk(st) && st.data == DATA_BOTTOM
    ensures Perform(st, EXECUTE, ans) == Stop(StackAssertion)
  {
    PerformsExecute(st, ans);
    hide Perform;
  }

  // A call, once entered in s.
  lemma {:induction false} CallAgrees(st: State, s: State, back: cell, d: seq<cell>, code: Memory, m: Memory,
      b: cell, w: Words, ans: Answers, p: Body, fuel: nat)
    requires Vocabulary(code, w, b) && StacksOk(st) && Running(s, m) && Over(code, m, b) && Intact(code, b, s)
    requires s.ret == st.ret + 2 && ReturnOf(s) == ReturnOf(st) + [back]
    requires DataOf(s) == d && SameRest(st, s) && |ReturnOf(st)| < RETURN_DEPTH
    requires s.ip in w && p == w[s.ip]
    ensures Agrees(st, m, MeanCall(code, b, w, ans, p, st, back, s, fuel),
                   CallEffect(code, m, w, p, d, |ReturnOf(st)|, fuel))
    decreases fuel, 0
  {
    hide Fetch16, Store16, SameOn, Cells, CodeAt, Code, Size, Mean, BodyEffect, Over, Known;
    if fuel > 0 {
      assert Callable(code, p, s.ip, b);
      CodeSplit(code, s.ip, Code(code, p, s.ip), [LEAVE]);
      BodyAgrees(s, code, m, b, w, ans, p, s.ip, fuel - 1);
      var r := Mean(code, b, w, ans, p, s, fuel - 1);
      var e := BodyEffect(code, m, w, p, DataOf(s), |ReturnOf(s)|, fuel - 1);
      if e.Gives? {
        Returned(st, r.st, back, m);
      }
    }
  }

  lemma Returned(st: State, t: State, back: cell, m: Memory)
    requires StacksOk(st) && Running(t, m) && t.ret == st.ret + 2
    requires ReturnOf(t) == ReturnOf(st) + [back]
    ensures var u := Return(t);
            && Running(u, m) && u.ip == back && ReturnOf(u) == ReturnOf(st) && DataOf(u) == DataOf(t)
            && u.ret == st.ret && SameRest(t, u)
  {
    hide Fetch16, SameOn;
    CellsPop(t.mem, RETURN_BOTTOM, t.ret);
    var xs, v := Cells(t.mem, RETURN_BOTTOM, t.ret - 2), Fetch16(t.mem, t.ret - 2);
    assert xs + [v] == ReturnOf(st) + [back];
    assert v == (xs + [v])[|xs|] && xs == (xs + [v])[..|xs|];
    assert |xs| == |ReturnOf(st)|;
    assert Return(t).mem == t.mem && Return(t).data == t.data;
  }

  // So the run of the code of p ends with the stack p gives, or with one taken back to
  // the caller, and with the memory below the stacks as it was; or it fails as p does.
  lemma EffectRuns(st: State, code: Memory, m: Memory, b: cell, w: Words, ans: Answers, p: Body, a: cell, fuel: nat)
    returns (n: nat)
    requires Vocabulary(code, w, b) && Running(st, m) && Over(code, m, b) && st.ip == a
    requires DICTIONARY_START <= a && a + Size(code, p) <= b && CodeAt(code, a, Code(code, p, a))
    ensures var e := BodyEffect(code, m, w, p, DataOf(st), |ReturnOf(st)|, fuel);
            !e.Unknown? && !e.Exhausts? ==>
              && Stays(st, ans, n, st.ret, a, a + Size(code, p))
              && (e.Fails? ==> Run(st, ans, n) == Stop(StackAssertion))
              && (e.Halts? ==> Run(st, ans, n) == Stop(Halted))
              && (e.Gives? || e.Returns? ==>
                    && Run(st, ans, n).Next?
                    && var s := Run(st, ans, n).st;
                       && Running(s, m) && SameRest(st, s) && DataOf(s) == e.stack
                       && (e.Gives? ==> ReturnOf(s) == ReturnOf(st) && s.ip == a + Size(code, p))
                       && (e.Returns? ==> && ReturnOf(st) != [] && ReturnOf(s) == Front(ReturnOf(st))
                                          && s.ip == Last(ReturnOf(st))))
  {
    hide Fetch16, SameOn, CodeAt, Code, Mean, Vocabulary, Run, Stays, BodyEffect, Cells, Size, Over;
    BodyAgrees(st, code, m, b, w, ans, p, a, fuel);
    WrapSum(a + Size(code, p), 0, 0);
    n := RunBody(st, code, b, w, ans, p, a, fuel);
  }
}
