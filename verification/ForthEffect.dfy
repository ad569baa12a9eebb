// What structured FORTH does to its data stack alone.  A body maps a list of values
// to a list of values, without memory, addresses of code or a return stack; the
// meaning of ForthSemantics agrees with it wherever no word writes below the
// stacks.
module ForthEffect {
  import opened Dataspace
  import opened ForthState
  import opened ForthWords
  import opened ForthSource
  import opened ForthSemantics
  import opened ForthRun

  // The values a body gives, or an EXIT in it returns with.
  datatype Effect =
    | Gives(stack: seq<cell>)
    | Returns(stack: seq<cell>)
    | Aborts
    | Exhausts
    | Unknown

  function Pushed(s: seq<cell>, v: cell): Effect {
    if |s| >= DATA_DEPTH then Aborts else Gives(s + [v])
  }

  predicate IsPrimitive(op: nat) {
    op in {OP_DROP, OP_DUP, OP_EQUAL, OP_ADD, OP_STATE, OP_WORDBUFFER, OP_BASE, OP_EMIT, OP_AT, OP_C_AT,
           OP_QIMMEDIATE, OP_PASS, OP_CREATE_ENTER, OP_ABORT}
  }

  // The words that look at memory see the part below the stacks, which no
  // primitive changes; looking above it, or @ on an empty stack, is undefined.
  function PrimitiveEffect(m: Memory, op: nat, xt: cell, s: seq<cell>): Effect {
    if op == OP_PASS then Gives(s)
    else if op == OP_ABORT then Aborts
    else if op == OP_STATE then Pushed(s, LOC_STATE)
    else if op == OP_WORDBUFFER then Pushed(s, LOC_WORD_BUFFER)
    else if op == OP_BASE then Pushed(s, LOC_BASE)
    else if op == OP_CREATE_ENTER then Pushed(s, ParameterField(m, xt))
    else if op == OP_AT then
      if |s| >= DATA_DEPTH then Aborts
      else if |s| == 0 || Last(s) + 2 > SPACE_TOP then Unknown
      else Gives(Front(s) + [Fetch16(m, Last(s))])
    else if |s| == 0 then Aborts
    else if op == OP_DROP || op == OP_EMIT then Gives(Front(s))
    else if op == OP_DUP then Pushed(s, Last(s))
    else if op == OP_C_AT then
      if Last(s) >= SPACE_TOP then Unknown
      else Gives(Front(s) + [if Fetch8(m, Last(s)) < 0x80 then Fetch8(m, Last(s)) else Fetch8(m, Last(s)) + 0xFF00])
    else if op == OP_QIMMEDIATE then
      if Last(s) + DE_SIZE_MIN > SPACE_TOP then Unknown
      else Gives(Front(s) + [if IsImmediate(m, Last(s)) then 1 else 0])
    else if |s| == 1 then Aborts
    else if op == OP_ADD then Gives(Front(Front(s)) + [Wrap(Last(s) as int + Last(Front(s)) as int)])
    else if op == OP_EQUAL then Gives(Front(Front(s)) + [if Last(s) == Last(Front(s)) then 1 else 0])
    else Unknown
  }

  function CallEffect(m: Memory, w: Words, p: Body, s: seq<cell>, depth: nat, fuel: nat): Effect
    decreases fuel, 0
  {
    if depth >= RETURN_DEPTH then Aborts
    else if fuel == 0 then Exhausts
    else
      match BodyEffect(m, w, p, s, depth + 1, fuel - 1)
      case Returns(s') => Gives(s')
      case r => r
  }

  // A word of w, called.
  function EnterEffect(m: Memory, w: Words, xt: cell, s: seq<cell>, depth: nat, fuel: nat): Effect
    requires xt in w
    decreases fuel, 1
  {
    match w[xt]
    case Threaded(p) => CallEffect(m, w, p, s, depth, fuel)
    case Defined(field, _, p) =>
      if |s| >= DATA_DEPTH then Aborts else CallEffect(m, w, p, s + [field], depth, fuel)
  }

  function WordEffect(m: Memory, w: Words, xt: cell, s: seq<cell>, depth: nat, fuel: nat): Effect
    decreases fuel, 2
  {
    if xt in w then EnterEffect(m, w, xt, s, depth, fuel)
    else if xt + DE_SIZE_MIN > SPACE_TOP then Unknown
    else if CodeField(m, xt) == OP_EXIT then if depth == 0 then Aborts else Returns(s)
    else if CodeField(m, xt) == OP_EXECUTE then
      if |s| == 0 then Aborts else AppliedEffect(m, w, Last(s), Front(s), depth, fuel)
    else if IsPrimitive(CodeField(m, xt)) then PrimitiveEffect(m, CodeField(m, xt), xt, s)
    else Unknown
  }

  // A word taken from the stack by EXECUTE.
  function AppliedEffect(m: Memory, w: Words, xt: cell, s: seq<cell>, depth: nat, fuel: nat): Effect
    decreases fuel, 2, 0
  {
    if xt in w then EnterEffect(m, w, xt, s, depth, fuel)
    else if xt + DE_SIZE_MIN <= SPACE_TOP && IsPrimitive(CodeField(m, xt)) then
      PrimitiveEffect(m, CodeField(m, xt), xt, s)
    else Unknown
  }

  function BodyEffect(m: Memory, w: Words, p: Body, s: seq<cell>, depth: nat, fuel: nat): Effect
    decreases fuel, 3, p
  {
    match p
    case Nothing => Gives(s)
    case Plain(xt) => WordEffect(m, w, xt, s, depth, fuel)
    case Number(n) => Pushed(s, n)
    case Both(p, q) =>
      (match BodyEffect(m, w, p, s, depth, fuel)
       case Gives(s') => BodyEffect(m, w, q, s', depth, fuel)
       case r => r)
    case IfThen(p) =>
      if |s| == 0 then Aborts
      else if Last(s) == 0 then Gives(Front(s))
      else BodyEffect(m, w, p, Front(s), depth, fuel)
    case IfElse(p, q) =>
      if |s| == 0 then Aborts
      else BodyEffect(m, w, if Last(s) == 0 then q else p, Front(s), depth, fuel)
    case Loop(p) =>
      if fuel == 0 then Exhausts
      else
        match BodyEffect(m, w, p, s, depth, fuel)
        case Gives(s') => BodyEffect(m, w, Loop(p), s', depth, fuel - 1)
        case r => r
  }

  // How performing one word outside the control-flow group ends.
  ghost predicate Ends(st: State, o: Outcome, m: Memory, r: Effect)
    requires StacksOk(st)
  {
    match r
    case Gives(s) =>
      && o.Next? && StacksOk(o.st) && o.ip == Wrap(st.ip + 2) && o.st.ip == st.ip
      && Running(o.st, m) && SameFrame(st, o.st) && DataOf(o.st) == s
    case Aborts => o.Next? && o.ip == st.recover && Scrubbed(st.dictHead, st.recover, o.st, m)
    case _ => true
  }

  // The state ABORT leaves, whatever the stacks held: only while compiling does
  // it unlink the newest entry.
  ghost predicate Scrubbed(head: cell, recover: cell, s: State, m: Memory) {
    exists x: State :: Running(x, m) && x.run && x.dictHead == head && x.recover == recover
      && s == AbortState(x).(ip := s.ip)
  }

  lemma AbortEnds(st: State, x: State, m: Memory)
    requires StacksOk(st) && Running(x, m) && x.run && x.recover == st.recover && x.dictHead == st.dictHead
    ensures Ends(st, Abort(x), m, Aborts)
  {
    assert AbortState(x) == AbortState(x).(ip := AbortState(x).ip);
  }

  lemma PushEnds(st: State, m: Memory, v: cell)
    requires Running(st, m) && st.run
    ensures Ends(st, PushVariable(st, v), m, Pushed(DataOf(st), v))
  {
    hide Fetch16, Store16, SameOn, Cells, AbortState;
    StackDepth(st);
    if Full(st.data) {
      AbortEnds(st, st, m);
    } else {
      PushEffect(st, m, v);
    }
  }

  // Replace the top of the stack.
  lemma ReplaceEnds(st: State, m: Memory, v: cell)
    requires Running(st, m) && st.run && !Empty(st.data)
    ensures DataOf(st) != []
    ensures Ends(st, Continue(PushData(DropData(st), v)), m, Gives(Front(DataOf(st)) + [v]))
  {
    hide Fetch16, Store16, SameOn, Cells;
    PopEffect(st, m);
    PushEffect(DropData(st), m, v);
  }

  lemma DropEnds(st: State, m: Memory)
    requires Running(st, m) && st.run
    ensures Ends(st, Drop(st), m, if |DataOf(st)| == 0 then Aborts else Gives(Front(DataOf(st))))
  {
    hide Fetch16, Store16, SameOn, Cells, AbortState;
    StackDepth(st);
    if Empty(st.data) {
      AbortEnds(st, st, m);
    } else {
      PopEffect(st, m);
    }
  }

  lemma DupEnds(st: State, m: Memory)
    requires Running(st, m) && st.run
    ensures Ends(st, Dup(st), m, if |DataOf(st)| == 0 then Aborts else Pushed(DataOf(st), Last(DataOf(st))))
  {
    hide Fetch16, Store16, SameOn, Cells, AbortState;
    StackDepth(st);
    if Empty(st.data) || Full(st.data) {
      AbortEnds(st, st, m);
    } else {
      PopEffect(st, m);
      PushEffect(st, m, TopData(st));
    }
  }

  lemma BinaryEnds(st: State, m: Memory, f: (cell, cell) -> cell)
    requires Running(st, m) && st.run
    ensures
      Ends(st, Binary(st, f), m,
           if |DataOf(st)| < 2 then Aborts
           else Gives(Front(Front(DataOf(st))) + [f(Last(DataOf(st)), Last(Front(DataOf(st))))]))
  {
    hide Fetch16, Store16, SameOn, Cells, AbortState;
    StackDepth(st);
    if Empty(st.data) {
      AbortEnds(st, st, m);
    } else {
      PopEffect(st, m);
      var s := DropData(st);
      StackDepth(s);
      if Empty(s.data) {
        AbortEnds(st, s, m);
      } else {
        PopEffect(s, m);
        PushEffect(DropData(s), m, f(TopData(st), TopData(s)));
      }
    }
  }

  lemma LookEnds(st: State, m: Memory, op: nat, xt: cell)
    requires Running(st, m) && st.run && op in {OP_AT, OP_C_AT, OP_QIMMEDIATE}
    ensures Ends(st, StackWord(st, op), m, PrimitiveEffect(m, op, xt, DataOf(st)))
  {
    hide Fetch16, Store16, SameOn, Cells, AbortState, IsImmediate;
    StackDepth(st);
    if op == OP_AT && Full(st.data) {
      AbortEnds(st, st, m);
    } else if Empty(st.data) {
      AbortEnds(st, st, m);
    } else {
      PopEffect(st, m);
      var a := TopData(st);
      if op == OP_AT && a + 2 <= SPACE_TOP {
        FetchSame(m, st.mem, 0, SPACE_TOP, a);
        ReplaceEnds(st, m, Fetch16(m, a));
      } else if op == OP_C_AT && a < SPACE_TOP {
        ByteSame(m, st.mem, 0, SPACE_TOP, a);
        ReplaceEnds(st, m, if Fetch8(m, a) < 0x80 then Fetch8(m, a) else Fetch8(m, a) + 0xFF00);
      } else if op == OP_QIMMEDIATE && a + DE_SIZE_MIN <= SPACE_TOP {
        HeaderSame(m, st.mem, a);
        ReplaceEnds(st, m, if IsImmediate(m, a) then 1 else 0);
      }
    }
  }

  lemma StackWordEnds(st: State, m: Memory, op: nat, xt: cell)
    requires Running(st, m) && st.run && IsPrimitive(op) && op != OP_CREATE_ENTER && op != OP_ABORT
    ensures Ends(st, StackWord(st, op), m, PrimitiveEffect(m, op, xt, DataOf(st)))
  {
    hide Fetch16, Store16, SameOn, Cells, AbortState, IsImmediate, ParameterField;
    hide Drop, Dup, Binary, At, CAt, QImmediate, PushVariable;
    if op == OP_DROP || op == OP_EMIT {
      DropEnds(st, m);
    } else if op == OP_DUP {
      DupEnds(st, m);
    } else if op == OP_ADD {
      BinaryEnds(st, m, (a: cell, b: cell) => Wrap(a as int + b as int));
    } else if op == OP_EQUAL {
      BinaryEnds(st, m, (a: cell, b: cell) => if a == b then 1 else 0);
    } else if op == OP_STATE {
      PushEnds(st, m, LOC_STATE);
    } else if op == OP_WORDBUFFER {
      PushEnds(st, m, LOC_WORD_BUFFER);
    } else if op == OP_BASE {
      PushEnds(st, m, LOC_BASE);
    } else if op != OP_PASS {
      LookEnds(st, m, op, xt);
    }
  }

  lemma PrimitiveDispatch(st: State, op: nat, xt: cell)
    requires StacksOk(st) && IsPrimitive(op)
    ensures Simple(st, op, xt) ==
            if op == OP_CREATE_ENTER then CreateEnter(st, xt)
            else if op == OP_ABORT then Abort(st) else StackWord(st, op)
  {
    hide StackWord, InputWord, CompilerWord, CreateEnter, Abort, StacksOk;
  }

  lemma PrimitiveEnds(st: State, m: Memory, op: nat, xt: cell)
    requires Running(st, m) && st.run && IsPrimitive(op) && xt + DE_SIZE_MIN <= SPACE_TOP
    ensures Ends(st, Simple(st, op, xt), m, PrimitiveEffect(m, op, xt, DataOf(st)))
  {
    PrimitiveDispatch(st, op, xt);
    hide Fetch16, Store16, SameOn, Cells, AbortState, ParameterField, StackWord, Simple;
    if op == OP_CREATE_ENTER {
      HeaderSame(m, st.mem, xt);
      CreateEnds(st, m, xt);
    } else if op == OP_ABORT {
      AbortEnds(st, st, m);
    } else {
      StackWordEnds(st, m, op, xt);
    }
  }

  lemma CreateEnds(st: State, m: Memory, xt: cell)
    requires Running(st, m) && st.run && ParameterField(st.mem, xt) == ParameterField(m, xt)
    ensures Ends(st, CreateEnter(st, xt), m, Pushed(DataOf(st), ParameterField(m, xt)))
  {
    hide Fetch16, Store16, SameOn, Cells, AbortState, ParameterField;
    PushEnds(st, m, ParameterField(m, xt));
  }

  // The meaning of a body shows as its effect.
  ghost predicate Agrees(st: State, m: Memory, r: Result, e: Effect)
    requires StacksOk(st)
  {
    match e
    case Gives(s) => r.Normal? && Running(r.st, m) && SameFrame(st, r.st) && DataOf(r.st) == s
    case Returns(s) =>
      && r.Left? && Running(r.st, m) && DataOf(r.st) == s && ReturnOf(st) != []
      && ReturnOf(r.st) == Front(ReturnOf(st)) && r.st.ip == Last(ReturnOf(st))
      && ControlOf(r.st) == ControlOf(st) && r.st.control == st.control
      && r.st.dictHead == st.dictHead && r.st.recover == st.recover
    case Aborts => r.Recovered? && Scrubbed(st.dictHead, st.recover, r.st, m)
    case Exhausts => r.OutOfFuel?
    case Unknown => true
  }

  // In the code of a body of this size ABORT is told from going on: it empties a
  // return stack that is not empty, or leads to another place than the next
  // instruction of any word.
  ghost predicate Clear(st: State, size: nat) {
    !Empty(st.ret) || (size < 0x1_0000 && !(0 < Wrap(st.recover - st.ip) <= size))
  }

  // The memory the values are computed over holds the code.
  ghost predicate Over(code: Memory, m: Memory, b: cell) {
    b <= SPACE_TOP && SameOn(code, m, SYSTEM_END, b)
  }

  lemma RunningIntact(st: State, code: Memory, m: Memory, b: cell)
    requires Running(st, m) && Over(code, m, b)
    ensures Intact(code, b, st)
  {
  }

  lemma ClearNext(st: State, size: nat)
    requires Clear(st, size) && size >= 2 && Empty(st.ret)
    ensures st.recover != Wrap(st.ip + 2)
  {
  }

  lemma ScrubbedLive(head: cell, recover: cell, s: State, code: Memory, m: Memory, b: cell)
    requires Scrubbed(head, recover, s, m) && Over(code, m, b)
    ensures Empty(s.ret) && Live(s) && s.recover == recover && Intact(code, b, s)
    ensures forall ip: cell :: Scrubbed(head, recover, s.(ip := ip), m)
  {
    hide Fetch16, Store16, SameOn;
    var x: State :| Running(x, m) && x.run && x.dictHead == head && x.recover == recover
      && s == AbortState(x).(ip := s.ip);
    RunningIntact(x, code, m, b);
    AbortIntact(code, b, x);
    forall ip: cell ensures Scrubbed(head, recover, s.(ip := ip), m) {
      assert s.(ip := ip) == AbortState(x).(ip := ip);
    }
  }

  // A word that is not called.
  lemma StepAgrees(st: State, code: Memory, m: Memory, b: cell, o: Outcome, e: Effect)
    requires Live(st) && Running(st, m) && Over(code, m, b) && Intact(code, b, st) && Clear(st, 2)
    requires Ends(st, o, m, e) && (e.Gives? || e.Aborts? || e.Unknown?)
    requires o.Next? ==> StacksOk(o.st) && o.st.recover == st.recover
    ensures Agrees(st, m, MeanStep(code, b, st, o), e)
  {
    hide SameOn, AbortState, Cells, Fetch16;
    if e.Gives? {
      RunningIntact(o.st, code, m, b);
    } else if e.Aborts? {
      ScrubbedLive(st.dictHead, st.recover, o.st, code, m, b);
      if Empty(st.ret) { ClearNext(st, 2); }
    }
  }

  // ABORT in the structure itself.
  lemma RecoverAgrees(st: State, st1: State, code: Memory, m: Memory, b: cell)
    requires Live(st) && Live(st1) && Running(st1, m) && Intact(code, b, st1)
    requires st1.recover == st.recover && st1.dictHead == st.dictHead
    ensures Agrees(st, m, Recover(code, b, st1), Aborts)
  {
    hide SameOn, AbortState, Cells, Fetch16;
  }

  // Coming back from a call.
  lemma BackAgrees(st: State, s: State, t: State, m: Memory)
    requires Live(st) && Live(s) && Live(t) && Running(t, m)
    requires ReturnOf(s) == ReturnOf(st) + [Wrap(st.ip + 2)] && ReturnOf(t) == Front(ReturnOf(s))
             && t.ip == Last(ReturnOf(s))
    requires ControlOf(t) == ControlOf(st) && t.control == st.control && t.ret == st.ret
    requires t.dictHead == st.dictHead && t.recover == st.recover
    ensures Agrees(st, m, Back(st, t), Gives(DataOf(t)))
  {
    hide SameOn, Cells, Fetch16;
  }

  // s is st after it called code, with the values `stack`.
  ghost predicate Calling(st: State, s: State, m: Memory, stack: seq<cell>)
    requires StacksOk(st)
  {
    && Live(s) && Running(s, m) && DataOf(s) == stack && ReturnOf(s) == ReturnOf(st) + [Wrap(st.ip + 2)]
    && s.ret.where == st.ret.where + 2 && ControlOf(s) == ControlOf(st) && s.control == st.control
    && s.dictHead == st.dictHead && s.recover == st.recover
  }

  lemma {:induction false} CallAgrees(st: State, s: State, code: Memory, m: Memory, b: cell, w: Words, p: Body,
      stack: seq<cell>, fuel: nat)
    requires Live(st) && Calling(st, s, m, stack) && Over(code, m, b) && |ReturnOf(st)| < RETURN_DEPTH
    ensures Intact(code, b, s)
    ensures Agrees(st, m, MeanCall(code, b, w, p, st, s, fuel), CallEffect(m, w, p, stack, |ReturnOf(st)|, fuel))
    decreases fuel, 0
  {
    hide SameOn, Cells, Fetch16, Mean, BodyEffect, Scrubbed, Agrees, Calling, Back, Return;
    CallingState(st, s, m, stack);
    RunningIntact(s, code, m, b);
    if fuel == 0 {
      NoFuelAgrees(st, m);
    } else {
      BodyAgrees(s, code, m, b, w, p, fuel - 1);
      ReturnAgrees(st, s, code, m, b, stack, Mean(code, b, w, p, s, fuel - 1),
        BodyEffect(m, w, p, stack, |ReturnOf(s)|, fuel - 1), Wrap(s.ip + Size(p)));
    }
  }

  lemma NoFuelAgrees(st: State, m: Memory)
    requires StacksOk(st)
    ensures Agrees(st, m, OutOfFuel, Exhausts)
  {
  }

  lemma CallingState(st: State, s: State, m: Memory, stack: seq<cell>)
    requires StacksOk(st) && Calling(st, s, m, stack)
    ensures Live(s) && Running(s, m) && DataOf(s) == stack && |ReturnOf(s)| == |ReturnOf(st)| + 1
    ensures s.ret.where == st.ret.where + 2 && s.recover == st.recover && Clear(s, 0)
    ensures forall size: nat :: Clear(s, size)
  {
  }

  // The result of a called body, back in the caller.
  lemma ReturnAgrees(st: State, s: State, code: Memory, m: Memory, b: cell, stack: seq<cell>, r: Result, e: Effect,
      z: cell)
    requires Live(st) && Calling(st, s, m, stack) && Agrees(s, m, r, e) && Proper(code, b, s, r, z)
    ensures r.Normal? ==> Live(r.st) && !Empty(r.st.ret)
    ensures Agrees(st, m,
                   match r case Normal(t) => Back(st, Return(t)) case Left(t) => Back(st, t) case _ => r,
                   match e case Returns(s') => Gives(s') case _ => e)
  {
    hide SameOn, Cells, Fetch16, Scrubbed;
    if e.Gives? {
      PopReturnEffect(r.st, m);
      BackAgrees(st, s, Return(r.st), m);
    } else if e.Returns? {
      BackAgrees(st, s, r.st, m);
    }
  }

  lemma {:induction false} EnterAgrees(st: State, st1: State, code: Memory, m: Memory, b: cell, w: Words, xt: cell,
      fuel: nat)
    requires Live(st) && Live(st1) && Running(st1, m) && SameFrame(st, st1) && st1.ip == st.ip && Over(code, m, b)
             && xt in w
    ensures Intact(code, b, st1)
    ensures Agrees(st, m, MeanEnter(code, b, w, xt, st1, fuel),
            EnterEffect(m, w, xt, DataOf(st1), |ReturnOf(st)|, fuel))
    decreases fuel, 1
  {
    hide SameOn, Cells, Fetch16, Store16, Scrubbed, AbortState, ParameterField, MeanCall, CallEffect;
    RunningIntact(st1, code, m, b);
    StackDepth(st1);
    var back := Wrap(st.ip + 2);
    match w[xt]
    case Threaded(p) =>
      if Full(st1.ret) {
        RecoverAgrees(st, st1, code, m, b);
        assert CallEffect(m, w, p, DataOf(st1), |ReturnOf(st)|, fuel) == Aborts
          by { FullAborts(m, w, p, DataOf(st1), |ReturnOf(st)|, fuel); }
      } else {
        PushReturnEffect(st1, m, back);
        CallAgrees(st1, PushReturn(st1, back).(ip := ParameterField(code, xt)), code, m, b, w, p, DataOf(st1), fuel);
        AgreesFrom(st, st1, m, MeanEnter(code, b, w, xt, st1, fuel),
          CallEffect(m, w, p, DataOf(st1), |ReturnOf(st)|, fuel));
      }
    case Defined(field, start, p) =>
      if Full(st1.data) {
        RecoverAgrees(st, st1, code, m, b);
      } else {
        PushEffect(st1, m, field);
        var s := PushData(st1, field);
        RunningIntact(s, code, m, b);
        if Full(s.ret) {
          RecoverAgrees(st, s, code, m, b);
          assert CallEffect(m, w, p, DataOf(s), |ReturnOf(st)|, fuel) == Aborts
            by { FullAborts(m, w, p, DataOf(s), |ReturnOf(st)|, fuel); }
        } else {
          PushReturnEffect(s, m, back);
          CallAgrees(st1, PushReturn(s, back).(ip := start), code, m, b, w, p, DataOf(s), fuel);
          AgreesFrom(st, st1, m, MeanEnter(code, b, w, xt, st1, fuel),
            CallEffect(m, w, p, DataOf(s), |ReturnOf(st)|, fuel));
        }
      }
  }

  lemma FullAborts(m: Memory, w: Words, p: Body, s: seq<cell>, depth: nat, fuel: nat)
    requires depth >= RETURN_DEPTH
    ensures CallEffect(m, w, p, s, depth, fuel) == Aborts
  {
  }

  // Only the frame of the starting state matters.
  lemma AgreesFrom(st: State, st1: State, m: Memory, r: Result, e: Effect)
    requires StacksOk(st) && SameFrame(st, st1) && Agrees(st1, m, r, e)
    ensures Agrees(st, m, r, e)
  {
    hide SameOn, Cells, Fetch16, Scrubbed;
  }

  lemma PrimitiveKind(m: Memory, op: nat, xt: cell, s: seq<cell>)
    ensures var e := PrimitiveEffect(m, op, xt, s); e.Gives? || e.Aborts? || e.Unknown?
  {
  }

  // Any word: named, or taken from the stack by EXECUTE.
  lemma {:induction false} WordAgrees(st: State, code: Memory, m: Memory, b: cell, w: Words, xt: cell, fuel: nat)
    requires Live(st) && Running(st, m) && Over(code, m, b) && Clear(st, 2)
    ensures Intact(code, b, st)
    ensures Agrees(st, m, MeanWord(code, b, w, xt, st, fuel), WordEffect(m, w, xt, DataOf(st), |ReturnOf(st)|, fuel))
    decreases fuel, 2
  {
    hide SameOn, Cells, Fetch16, Store16, Scrubbed, AbortState, ParameterField, MeanEnter, EnterEffect, CodeField;
    hide Simple;
    hide PrimitiveEffect, Ends, MeanStep, Agrees;
    RunningIntact(st, code, m, b);
    StackDepth(st);
    var o := Perform(st, xt);
    if xt in w {
      SelfRunning(st);
      EnterAgrees(st, st, code, m, b, w, xt, fuel);
    } else if xt + DE_SIZE_MIN <= SPACE_TOP {
      HeaderSame(m, st.mem, xt);
      var op := CodeField(m, xt);
      if op == OP_EXIT {
        ExitAgrees(st, code, m, b, xt);
      } else if op == OP_EXECUTE {
        ApplyAgrees(st, code, m, b, w, xt, fuel);
      } else if IsPrimitive(op) {
        PrimitiveEnds(st, m, op, xt);
        PrimitiveKind(m, op, xt, DataOf(st));
        StepAgrees(st, code, m, b, o, PrimitiveEffect(m, op, xt, DataOf(st)));
      } else {
        UnknownAgrees(st, m, MeanWord(code, b, w, xt, st, fuel));
      }
    } else {
      UnknownAgrees(st, m, MeanWord(code, b, w, xt, st, fuel));
    }
  }

  lemma UnknownAgrees(st: State, m: Memory, r: Result)
    requires StacksOk(st)
    ensures Agrees(st, m, r, Unknown)
  {
  }

  lemma ExitAgrees(st: State, code: Memory, m: Memory, b: cell, xt: cell)
    requires Live(st) && Running(st, m) && Over(code, m, b) && Intact(code, b, st) && Clear(st, 2)
             && CodeField(st.mem, xt) == OP_EXIT
    ensures !Empty(st.ret) ==> Agrees(st, m, Left(Return(st)), Returns(DataOf(st)))
    ensures Empty(st.ret) ==> Agrees(st, m, MeanStep(code, b, st, Perform(st, xt)), Aborts)
  {
    hide SameOn, Cells, Fetch16, AbortState, CodeField, Scrubbed;
    if Empty(st.ret) {
      AbortEnds(st, st, m);
      assert Perform(st, xt) == Abort(st);
      StepAgrees(st, code, m, b, Abort(st), Aborts);
    } else {
      StackDepth(st);
      PopReturnEffect(st, m);
    }
  }

  lemma {:induction false} ApplyAgrees(st: State, code: Memory, m: Memory, b: cell, w: Words, e: cell, fuel: nat)
    requires Live(st) && Running(st, m) && Over(code, m, b) && Clear(st, 2) && Intact(code, b, st)
    requires e !in w && e + DE_SIZE_MIN <= SPACE_TOP && CodeField(m, e) == OP_EXECUTE
             && CodeField(st.mem, e) == OP_EXECUTE
    ensures Agrees(st, m, MeanWord(code, b, w, e, st, fuel), WordEffect(m, w, e, DataOf(st), |ReturnOf(st)|, fuel))
    decreases fuel, 2, 0
  {
    hide SameOn, Cells, Fetch16, Store16, Scrubbed, AbortState, ParameterField, MeanEnter, EnterEffect, CodeField;
    hide Simple;
    hide PrimitiveEffect, Ends, MeanStep, Agrees;
    StackDepth(st);
    if Empty(st.data) {
      AbortEnds(st, st, m);
      assert Perform(st, e) == Execute(st) == Abort(st);
      StepAgrees(st, code, m, b, Abort(st), Aborts);
    } else {
      PopEffect(st, m);
      var s, xt := DropData(st), TopData(st);
      if xt in w {
        EnterAgrees(st, s, code, m, b, w, xt, fuel);
      } else if xt + DE_SIZE_MIN <= SPACE_TOP && IsPrimitive(CodeField(m, xt)) {
        HeaderSame(m, st.mem, xt);
        var op := CodeField(m, xt);
        PrimitiveEnds(s, m, op, xt);
        PrimitiveKind(m, op, xt, DataOf(s));
        ExecutedEnds(st, m, op, e, xt);
        StepAgrees(st, code, m, b, Perform(st, e), PrimitiveEffect(m, op, xt, DataOf(s)));
      } else {
        UnknownAgrees(st, m, MeanWord(code, b, w, e, st, fuel));
      }
    }
  }

  // EXECUTE of a primitive ends as the primitive does.
  lemma ExecutedEnds(st: State, m: Memory, op: nat, e: cell, xt: cell)
    requires Live(st) && Running(st, m) && !Empty(st.data) && TopData(st) == xt
    requires CodeField(st.mem, e) == OP_EXECUTE && CodeField(st.mem, xt) == op && IsPrimitive(op)
    requires SameFrame(st, DropData(st))
    requires Ends(DropData(st), Simple(DropData(st), op, xt), m, PrimitiveEffect(m, op, xt, DataOf(DropData(st))))
    ensures Ends(st, Perform(st, e), m, PrimitiveEffect(m, op, xt, DataOf(DropData(st))))
  {
    hide SameOn, Cells, Fetch16, Store16, Scrubbed, AbortState, CodeField, Simple, PrimitiveEffect;
    var s := DropData(st);
    PrimitiveKind(m, op, xt, DataOf(s));
    assert Perform(s, xt) == Simple(s, op, xt);
    assert Perform(st, e) == Execute(st);
  }

  // The agreement: what a body means shows on the data stack as its effect.
  lemma {:induction false} BodyAgrees(st: State, code: Memory, m: Memory, b: cell, w: Words, p: Body, fuel: nat)
    requires Live(st) && Running(st, m) && Over(code, m, b) && Clear(st, Size(p))
    ensures Intact(code, b, st)
    ensures Agrees(st, m, Mean(code, b, w, p, st, fuel), BodyEffect(m, w, p, DataOf(st), |ReturnOf(st)|, fuel))
    decreases fuel, 3, p
  {
    hide SameOn, Cells, Fetch16, Store16, Scrubbed, AbortState, MeanWord, WordEffect, MeanFork, MeanLoop, Wrap, Agrees;
    RunningIntact(st, code, m, b);
    SelfRunning(st);
    StackDepth(st);
    match p
    case Nothing => NumberAgrees(st, code, m, b, 0);
    case Plain(xt) => WordAgrees(st, code, m, b, w, xt, fuel);
    case Number(n) => NumberAgrees(st, code, m, b, n);
    case Both(p1, p2) => BothAgrees(st, code, m, b, w, p1, p2, fuel);
    case IfThen(p1) => IfThenAgrees(st, code, m, b, w, p1, fuel);
    case IfElse(p1, p2) => IfElseAgrees(st, code, m, b, w, p1, p2, fuel);
    case Loop(p1) => LoopAgrees(st, code, m, b, w, p1, fuel);
  }

  lemma NumberAgrees(st: State, code: Memory, m: Memory, b: cell, n: cell)
    requires Live(st) && Running(st, m) && Intact(code, b, st)
    ensures Agrees(st, m, Normal(st), Gives(DataOf(st)))
    ensures Agrees(st, m, if Full(st.data) then Recover(code, b, st) else Normal(GoTo(PushData(st, n), st.ip + 4)),
            Pushed(DataOf(st), n))
  {
    hide SameOn, Cells, Fetch16, Store16, Scrubbed, AbortState;
    SelfRunning(st);
    StackDepth(st);
    if Full(st.data) { RecoverAgrees(st, st, code, m, b); } else { PushEffect(st, m, n); }
  }

  // Part of the code, from a later state of it.
  lemma ClearPart(st: State, size: nat, t: State, offset: nat, size': nat)
    requires Clear(st, size) && t.ret == st.ret && t.recover == st.recover && offset + size' <= size
    requires t.ip == Wrap(st.ip + offset)
    ensures Clear(t, size')
  {
    if Empty(st.ret) {
      FarFrom(st.recover, st.ip, t.ip, offset);
    }
  }

  lemma FarFrom(r: cell, a: cell, b: cell, offset: nat)
    requires b == Wrap(a + offset) && offset < 0x1_0000
    ensures Wrap(r - b) == if Wrap(r - a) >= offset then Wrap(r - a) - offset else Wrap(r - a) - offset + 0x1_0000
  {
  }

  lemma {:induction false} BothAgrees(st: State, code: Memory, m: Memory, b: cell, w: Words, p1: Body, p2: Body,
      fuel: nat)
    requires Live(st) && Running(st, m) && Over(code, m, b) && Clear(st, Size(Both(p1, p2))) && Intact(code, b, st)
    ensures var p := Both(p1, p2);
            Agrees(st, m, Mean(code, b, w, p, st, fuel), BodyEffect(m, w, p, DataOf(st), |ReturnOf(st)|, fuel))
    decreases fuel, 3, Both(p1, p2), 0
  {
    hide SameOn, Cells, Fetch16, Store16, Scrubbed, AbortState, MeanWord, WordEffect, MeanFork, MeanLoop, Wrap, Clear;
    WrapSum(st.ip, 0, 0);
    ClearPart(st, Size(Both(p1, p2)), st, 0, Size(p1));
    BodyAgrees(st, code, m, b, w, p1, fuel);
    var t := Mean(code, b, w, p1, st, fuel);
    if t.Normal? {
      ClearPart(st, Size(Both(p1, p2)), t.st, Size(p1), Size(p2));
      if BodyEffect(m, w, p1, DataOf(st), |ReturnOf(st)|, fuel).Gives? {
        BodyAgrees(t.st, code, m, b, w, p2, fuel);
        AgreesFrom(st, t.st, m, Mean(code, b, w, p2, t.st, fuel),
          BodyEffect(m, w, p2, DataOf(t.st), |ReturnOf(st)|, fuel));
      }
    }
  }

  lemma {:induction false} IfThenAgrees(st: State, code: Memory, m: Memory, b: cell, w: Words, p1: Body, fuel: nat)
    requires Live(st) && Running(st, m) && Over(code, m, b) && Clear(st, Size(IfThen(p1))) && Intact(code, b, st)
    ensures var p := IfThen(p1);
            Agrees(st, m, Mean(code, b, w, p, st, fuel), BodyEffect(m, w, p, DataOf(st), |ReturnOf(st)|, fuel))
    decreases fuel, 3, IfThen(p1), 0
  {
    hide SameOn, Cells, Fetch16, Store16, Scrubbed, AbortState, MeanWord, WordEffect, MeanFork, MeanLoop, Wrap, Clear;
    StackDepth(st);
    if Empty(st.data) {
      RecoverAgrees(st, st, code, m, b);
    } else {
      PopEffect(st, m);
      if TopData(st) != 0 {
        var s := Tested(st, st.ip + 4);
        ClearPart(st, Size(IfThen(p1)), s, 4, Size(p1));
        BodyAgrees(s, code, m, b, w, p1, fuel);
        AgreesFrom(st, s, m, Mean(code, b, w, p1, s, fuel), BodyEffect(m, w, p1, DataOf(s), |ReturnOf(st)|, fuel));
      }
    }
  }

  lemma {:induction false} IfElseAgrees(st: State, code: Memory, m: Memory, b: cell, w: Words, p1: Body, p2: Body,
      fuel: nat)
    requires Live(st) && Running(st, m) && Over(code, m, b) && Clear(st, Size(IfElse(p1, p2))) && Intact(code, b, st)
    ensures Agrees(st, m, MeanFork(code, b, w, p1, p2, st, fuel),
                   BodyEffect(m, w, IfElse(p1, p2), DataOf(st), |ReturnOf(st)|, fuel))
    decreases fuel, 3, IfElse(p1, p2), 0
  {
    hide SameOn, Cells, Fetch16, Store16, Scrubbed, AbortState, Mean, WordEffect, MeanLoop, Wrap, Clear;
    StackDepth(st);
    if Empty(st.data) {
      RecoverAgrees(st, st, code, m, b);
    } else {
      PopEffect(st, m);
      var zero := TopData(st) == 0;
      var p := if zero then p2 else p1;
      var s := Tested(st, if zero then st.ip + 8 + Size(p1) else st.ip + 4);
      ClearPart(st, Size(IfElse(p1, p2)), s, if zero then 8 + Size(p1) else 4, Size(p));
      BodyAgrees(s, code, m, b, w, p, fuel);
      AgreesFrom(st, s, m, Mean(code, b, w, p, s, fuel), BodyEffect(m, w, p, DataOf(s), |ReturnOf(st)|, fuel));
    }
  }

  lemma {:induction false} LoopAgrees(st: State, code: Memory, m: Memory, b: cell, w: Words, p1: Body, fuel: nat)
    requires Live(st) && Running(st, m) && Over(code, m, b) && Clear(st, Size(Loop(p1))) && Intact(code, b, st)
    ensures Agrees(st, m, MeanLoop(code, b, w, p1, st, fuel),
                   BodyEffect(m, w, Loop(p1), DataOf(st), |ReturnOf(st)|, fuel))
    decreases fuel, 3, Loop(p1), 0
  {
    hide SameOn, Cells, Fetch16, Store16, Scrubbed, AbortState, Mean, WordEffect, MeanFork, Wrap, Clear;
    if fuel > 0 {
      WrapSum(st.ip, 0, 0);
      ClearPart(st, Size(Loop(p1)), st, 0, Size(p1));
      BodyAgrees(st, code, m, b, w, p1, fuel);
      var t := Mean(code, b, w, p1, st, fuel);
      if t.Normal? && BodyEffect(m, w, p1, DataOf(st), |ReturnOf(st)|, fuel).Gives? {
        var s := GoTo(t.st, st.ip);
        ClearPart(st, Size(Loop(p1)), s, 0, Size(Loop(p1)));
        LoopAgrees(s, code, m, b, w, p1, fuel - 1);
        AgreesFrom(st, s, m, MeanLoop(code, b, w, p1, s, fuel - 1),
          BodyEffect(m, w, Loop(p1), DataOf(s), |ReturnOf(st)|, fuel - 1));
      }
    }
  }
}
