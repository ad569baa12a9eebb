// Guards and calls: the assertion of a stack routine can fire in @ and `.` only,
// and the return stack below a call is what it was when the call returns.
module ForthCalls {
  import opened Dataspace
  import opened ForthState
  import opened ForthWords
  import opened ForthFrame
  import opened ForthRun

  // Performing this word gets to @ or `.` with an empty data stack.
  predicate PopsNothing(st: State, word: cell)
    requires StacksOk(st)
    decreases st.data.where
  {
    var op := CodeField(st.mem, word);
    if op == OP_AT || op == OP_DOT then Empty(st.data)
    else op == OP_EXECUTE && !Empty(st.data) && PopsNothing(DropData(st), TopData(st))
  }

  // The guards suffice: whatever memory holds, performing any word of the table
  // trips the assertion in push or pop exactly when it reaches @ or `.` on an
  // empty stack.
  lemma {:induction false} GuardsSuffice(st: State, word: cell)
    requires StacksOk(st)
    ensures Perform(st, word) == Stop(StackAssertion) <==> PopsNothing(st, word)
    decreases st.data.where
  {
    hide Fetch16, CodeField, AbortState;
    var op := CodeField(st.mem, word);
    if op != OP_EXECUTE {
      SimpleGuards(st, op, word);
    } else if !Empty(st.data) {
      hide Simple;
      GuardsSuffice(DropData(st), TopData(st));
    }
  }

  lemma SimpleGuards(st: State, op: nat, word: cell)
    requires StacksOk(st)
    ensures Simple(st, op, word) == Stop(StackAssertion) <==> (op == OP_AT || op == OP_DOT) && Empty(st.data)
  {
    hide Fetch16, Store16, CodeField, AbortState, CompilerWord, InputWord, StackWord, FlowWord, SystemWord;
    SystemGuards(st, op);
    InputGuards(st, op, word);
    CompilerGuards(st, op);
    FlowGuards(st, op, word);
    StackGuards(st, op);
  }

  lemma FlowGuards(st: State, op: nat, word: cell)
    requires StacksOk(st)
    ensures FlowWord(st, op, word) != Stop(StackAssertion)
  {
    hide Fetch16, Store16, CodeField, AbortState, ParameterField;
  }

  lemma StackGuards(st: State, op: nat)
    requires StacksOk(st)
    ensures StackWord(st, op) == Stop(StackAssertion) <==> op == OP_AT && Empty(st.data)
  {
    hide Fetch16, Store16, CodeField, AbortState, IsImmediate;
  }

  lemma SystemGuards(st: State, op: nat)
    requires StacksOk(st)
    ensures SystemWord(st, op) == Stop(StackAssertion) <==> op == OP_DOT && Empty(st.data)
  {
    hide Fetch16, Store16, AbortState, Paste, SkipComment, ReadNumber, SweepEnds, SweepStart;
  }

  lemma InputGuards(st: State, op: nat, word: cell)
    requires StacksOk(st)
    ensures InputWord(st, op, word) != Stop(StackAssertion)
  {
    hide Fetch16, Store16, CodeField, AbortState, ReadToken, FindName, WordBuffer, HeaderBytes, Blit;
  }

  lemma CompilerGuards(st: State, op: nat)
    requires StacksOk(st)
    ensures CompilerWord(st, op) != Stop(StackAssertion)
  {
    hide Fetch16, Store16, CodeField, AbortState, FindOpcode;
  }

  // What one step may do to the return stack.
  ghost predicate ReturnEffect(st: State, s: State)
    requires StacksOk(st)
  {
    && StacksOk(s)
    && ( ReturnOf(s) == ReturnOf(st)
         || ReturnOf(s) == ReturnOf(st) + [Wrap(st.ip + 2)]
         || (ReturnOf(st) != [] && ReturnOf(s) == Front(ReturnOf(st)) && s.ip == Last(ReturnOf(st)))
         || (ReturnOf(s) == [] && s.ip == st.recover))
  }

  // Performing this word, through any number of EXECUTEs, does not get to EXIT
  // by way of one.
  predicate Tame(st: State, word: cell)
    requires StacksOk(st)
    decreases st.data.where
  {
    var op := CodeField(st.mem, word);
    if op != OP_EXECUTE then Spares(RETURNS, st, op)
    else Empty(st.data) || (CodeField(st.mem, TopData(st)) != OP_EXIT && Tame(DropData(st), TopData(st)))
  }

  // The next step does not EXECUTE EXIT.
  predicate Disciplined(st: State)
    requires StacksOk(st)
  {
    Tame(st, Fetch16(st.mem, st.ip))
  }

  // The same for any outcome, control flow included.
  ghost predicate OutcomeEffect(st: State, o: Outcome)
    requires StacksOk(st)
  {
    o.Next? ==>
      && StacksOk(o.st)
      && ( ReturnOf(o.st) == ReturnOf(st)
           || ReturnOf(o.st) == ReturnOf(st) + [Wrap(st.ip + 2)]
           || (ReturnOf(st) != [] && ReturnOf(o.st) == Front(ReturnOf(st)) && o.ip == Last(ReturnOf(st)))
           || (ReturnOf(o.st) == [] && o.ip == st.recover))
  }

  // The same for all words but EXIT.
  ghost predicate NoPop(st: State, o: Outcome)
    requires StacksOk(st)
  {
    o.Next? ==>
      && StacksOk(o.st)
      && ( ReturnOf(o.st) == ReturnOf(st)
           || ReturnOf(o.st) == ReturnOf(st) + [Wrap(st.ip + 2)]
           || (ReturnOf(o.st) == [] && o.ip == st.recover))
  }

  lemma ReturnKept(st: State, s: State)
    requires StacksOk(st) && StacksOk(s) && s.ret == st.ret && RegionSame(RETURNS, st.mem, s.mem)
    ensures ReturnOf(s) == ReturnOf(st)
  {
    hide Cells, SameOn;
    SamePart(st.mem, s.mem, RETURN_BOTTOM, RETURN_TOP, RETURN_BOTTOM, st.ret.where);
    CellsFrame(st.mem, s.mem, RETURN_BOTTOM, st.ret.where);
  }

  lemma KeepsEffect(st: State, o: Outcome)
    requires StacksOk(st) && KeepsRegion(RETURNS, st, o) && (o.Next? ==> StacksOk(o.st))
    ensures OutcomeEffect(st, o) && NoPop(st, o)
  {
    hide RegionSame, Cells;
    if o.Next? {
      StackDepth(o.st);
      if o.st.ret == st.ret {
        ReturnKept(st, o.st);
      }
    }
  }

  lemma PushReturns(st: State, v: cell)
    requires StacksOk(st) && !Full(st.data)
    ensures ReturnOf(PushData(st, v)) == ReturnOf(st)
  {
    hide RegionSame, Cells, Store16;
    Itself(RETURNS, st);
    Pushes(RETURNS, st, st, v);
    ReturnKept(st, PushData(st, v));
  }

  lemma FlowEffect(st: State, op: nat, word: cell)
    requires StacksOk(st) && IsFlowOp(op)
    ensures OutcomeEffect(st, FlowWord(st, op, word))
    ensures op != OP_EXIT ==> NoPop(st, FlowWord(st, op, word))
  {
    hide Fetch16, Store16, AbortState, Cells, ParameterField, DoesCode;
    StackDepth(st);
    if op == OP_ENTER {
      EnterEffect(st, word);
    } else if op == OP_DOES_ENTER {
      DoesEffect(st, word);
    } else if op == OP_EXIT {
      if !Empty(st.ret) { SelfRun(st); PopReturnEffect(st, st.mem); } else { AbortEmpty(st, st); }
    } else {
      AbortEmpty(st, st);
      if !Full(st.data) {
        PushReturns(st, Fetch16(st.mem, Wrap(st.ip + 2)));
        PushReturns(st, ParameterField(st.mem, word));
      }
    }
  }

  lemma SelfRun(st: State)
    requires StacksOk(st)
    ensures Running(st, st.mem)
  {
  }

  lemma AbortEmpty(st: State, x: State)
    requires StacksOk(st) && x.recover == st.recover
    ensures Abort(x).Next? && ReturnOf(Abort(x).st) == [] && Abort(x).ip == st.recover
  {
    hide Cells;
    StackDepth(AbortState(x));
  }

  lemma EnterEffect(st: State, word: cell)
    requires StacksOk(st)
    ensures var o := Enter(st, word);
            o.Next? && (ReturnOf(o.st) == ReturnOf(st) + [Wrap(st.ip + 2)]
              || (ReturnOf(o.st) == [] && o.ip == st.recover))
  {
    hide Fetch16, Store16, AbortState, Cells, ParameterField;
    if Full(st.ret) { AbortEmpty(st, st); } else { SelfRun(st); PushReturnEffect(st, st.mem, Wrap(st.ip + 2)); }
  }

  lemma DoesEffect(st: State, word: cell)
    requires StacksOk(st)
    ensures var o := DoesEnter(st, word);
            o.Next? && (ReturnOf(o.st) == ReturnOf(st) + [Wrap(st.ip + 2)]
              || (ReturnOf(o.st) == [] && o.ip == st.recover))
  {
    hide Fetch16, Store16, AbortState, Cells, ParameterField, DoesCode;
    if Full(st.data) {
      AbortEmpty(st, st);
    } else {
      SelfRun(st);
      PushEffect(st, st.mem, ParameterField(st.mem, word));
      var s := PushData(st, ParameterField(st.mem, word));
      if Full(s.ret) { AbortEmpty(st, s); } else { SelfRun(s); PushReturnEffect(s, s.mem, Wrap(s.ip + 2)); }
    }
  }

  lemma SimpleEffect(st: State, op: nat, word: cell)
    requires StacksOk(st) && Spares(RETURNS, st, op)
    ensures OutcomeEffect(st, Simple(st, op, word))
    ensures op != OP_EXIT ==> NoPop(st, Simple(st, op, word))
  {
    hide FlowWord, Spares, OutcomeEffect, NoPop, KeepsRegion;
    if IsFlowOp(op) {
      FlowEffect(st, op, word);
      assert Simple(st, op, word) == FlowWord(st, op, word);
    } else {
      WordSpares(RETURNS, st, op, word);
      KeepsEffect(st, Simple(st, op, word));
    }
  }

  // However many EXECUTEs lead to it, a word other than EXIT does not pop.
  lemma {:induction false} PerformEffect(st: State, word: cell)
    requires StacksOk(st) && Tame(st, word) && CodeField(st.mem, word) != OP_EXIT
    ensures NoPop(st, Perform(st, word))
    decreases st.data.where
  {
    hide Fetch16, CodeField, Simple, Cells, AbortState, Spares;
    var op := CodeField(st.mem, word);
    if op != OP_EXECUTE {
      SimpleEffect(st, op, word);
    } else if Empty(st.data) {
      AbortEmpty(st, st);
      assert Execute(st) == Abort(st);
    } else {
      var s := DropData(st);
      PerformEffect(s, TopData(st));
      assert ReturnOf(s) == ReturnOf(st);
    }
  }

  // Each step of disciplined code leaves the return stack as it was, pushes the
  // address after itself, pops the address it goes to, or aborts.
  lemma StepDiscipline(st: State)
    requires StacksOk(st) && Disciplined(st) && Step(st).Next?
    ensures ReturnEffect(st, Step(st).st)
  {
    hide Fetch16, CodeField, Simple, Cells, AbortState, Spares, Execute;
    var word := Fetch16(st.mem, st.ip);
    if CodeField(st.mem, word) == OP_EXIT {
      SimpleEffect(st, OP_EXIT, word);
    } else {
      PerformEffect(st, word);
    }
  }

  // The first n steps run disciplined code.
  ghost predicate DisciplinedRun(st: State, n: nat)
    requires StacksOk(st)
  {
    forall k: nat :: k < n ==> Run(st, k).Next? && Disciplined(Run(st, k).st)
  }

  // The steps from st begin with a call and stay deeper than st until the nth.
  ghost predicate DeeperUntil(st: State, n: nat)
    requires StacksOk(st)
  {
    forall k: nat :: 0 < k < n ==> Run(st, k).Next? && |ReturnOf(Run(st, k).st)| > |ReturnOf(st)|
  }

  lemma RunNext(st: State, k: nat)
    requires StacksOk(st) && Run(st, k).Next? && Run(st, k + 1).Next?
    ensures Step(Run(st, k).st).Next? && Run(st, k + 1).st == Step(Run(st, k).st).st
  {
    hide Step;
    RunSplit(st, k, 1);
    var s := Run(st, k).st;
    assert Run(s, 1) == match Step(s) case Stop(why) => Stop(why) case Next(t, _) => Run(t, 0);
  }

  // Below the frame the call pushed nothing changes while the call lasts.
  lemma {:induction false} FrameKept(st: State, n: nat, k: nat)
    requires StacksOk(st) && DisciplinedRun(st, n) && DeeperUntil(st, n) && 0 < k < n
    requires Run(st, 1).Next? && ReturnOf(Run(st, 1).st) == ReturnOf(st) + [Wrap(st.ip + 2)]
    ensures Run(st, k).Next? && ReturnOf(st) + [Wrap(st.ip + 2)] <= ReturnOf(Run(st, k).st)
    decreases k
  {
    hide Run, Step, Cells, Disciplined;
    if k > 1 {
      FrameKept(st, n, k - 1);
      var s := Run(st, k - 1).st;
      RunNext(st, k - 1);
      StepDiscipline(s);
      var d := |ReturnOf(st)|;
      assert |ReturnOf(Run(st, k).st)| > d;
    }
  }

  // Call discipline: when disciplined code that began with a call first gets
  // back to the depth of its caller, it is at the cell after the call with the
  // caller's return stack; the one exception is ABORT, back at an empty stack.
  lemma CallReturns(st: State, n: nat)
    requires StacksOk(st) && 1 < n && DisciplinedRun(st, n) && DeeperUntil(st, n)
    requires Run(st, 1).Next? && ReturnOf(Run(st, 1).st) == ReturnOf(st) + [Wrap(st.ip + 2)]
    requires Run(st, n).Next? && |ReturnOf(Run(st, n).st)| <= |ReturnOf(st)|
    ensures var s := Run(st, n).st;
            || (s.ip == Wrap(st.ip + 2) && ReturnOf(s) == ReturnOf(st))
            || (s.ip == st.recover && ReturnOf(s) == [])
  {
    hide Run, Step, Cells, Disciplined;
    FrameKept(st, n, n - 1);
    var s := Run(st, n - 1).st;
    RunNext(st, n - 1);
    StepDiscipline(s);
    RecoverKept(st, n - 1);
    var d := |ReturnOf(st)|;
    var xs := ReturnOf(s);
    var t := Run(st, n).st;
    assert xs[..d + 1] == ReturnOf(st) + [Wrap(st.ip + 2)];
    if ReturnOf(t) == Front(xs) && |xs| == d + 1 {
      assert xs == ReturnOf(st) + [Wrap(st.ip + 2)];
    }
  }

  lemma RecoverKept(st: State, n: nat)
    requires StacksOk(st) && Run(st, n).Next?
    ensures Run(st, n).st.recover == st.recover && StacksOk(Run(st, n).st)
  {
    hide Run;
  }

  // EXECUTE is not always the same as naming the word.  It goes on at the next
  // cell unless the word itself was ENTER or DOES_ENTER, or the recover address
  // came back, so for words that set the instruction pointer otherwise the two
  // differ.

  // Going to a is going on at the next cell, or to the recover address.
  predicate GoesNext(st: State, a: cell) {
    a == Wrap(st.ip + 2) || a == st.recover
  }

  // Where performing a word made by `:` or by a defining word goes, if it does.
  predicate EntersNext(st: State, word: cell)
    requires StacksOk(st)
  {
    if CodeField(st.mem, word) == OP_ENTER then
      Full(st.ret) || GoesNext(st, ParameterField(PushReturn(st, Wrap(st.ip + 2)).mem, word))
    else
      Full(st.data) || Full(st.ret)
      || GoesNext(st, DoesCode(PushReturn(PushData(st, ParameterField(st.mem, word)), Wrap(st.ip + 2)).mem, word))
  }

  // EXECUTE of this word, in the state after it was popped, is naming it.
  predicate SameNamed(st: State, word: cell)
    requires StacksOk(st)
  {
    var op := CodeField(st.mem, word);
    var operand := Fetch16(st.mem, Wrap(st.ip + 2));
    if op == OP_EXIT then Empty(st.ret) || GoesNext(st, TopReturn(st))
    else if op == OP_JUMP then GoesNext(st, operand)
    else if op == OP_JUMP_IF then
      Empty(st.data) || (if TopData(st) == 0 then GoesNext(st, operand) else Wrap(st.ip + 4) == st.recover)
    else if op == OP_PUSH then Full(st.data) || Wrap(st.ip + 4) == st.recover
    else if op == OP_EXECUTE then
      Empty(st.data) || !IsEntering(CodeField(st.mem, TopData(st))) || EntersNext(DropData(st), TopData(st))
    else true
  }

  // The two are the same exactly then.
  lemma ExecuteAgrees(st: State)
    requires StacksOk(st) && !Empty(st.data)
    ensures Execute(st) == Perform(DropData(st), TopData(st)) <==> SameNamed(DropData(st), TopData(st))
  {
    hide Fetch16, Store16, CodeField, Simple, AbortState, ParameterField, DoesCode, SameNamed;
    var s, x := DropData(st), TopData(st);
    var op := CodeField(st.mem, x);
    if op == OP_EXECUTE {
      TwiceAgrees(s, x);
    } else {
      PointerAgrees(s, op, x);
    }
  }

  lemma PointerAgrees(st: State, op: nat, word: cell)
    requires StacksOk(st) && op == CodeField(st.mem, word) && op != OP_EXECUTE
    ensures var o := Simple(st, op, word);
            o.Stop? || IsEntering(op) || GoesNext(st, o.ip) <==> SameNamed(st, word)
  {
    hide Fetch16, Store16, CodeField, AbortState, CompilerWord, InputWord, StackWord, ParameterField, DoesCode, Simple;
    if SetsPointer(op) {
      assert Simple(st, op, word) == FlowWord(st, op, word) by { FlowSimple(st, op, word); }
      NoOverlap(st.ip);
    } else if !IsEntering(op) {
      OrdinaryPointer(st, op, word);
    }
  }

  lemma NoOverlap(ip: cell)
    ensures Wrap(ip + 4) != Wrap(ip + 2)
  {
  }

  lemma FlowSimple(st: State, op: nat, word: cell)
    requires StacksOk(st) && IsFlowOp(op)
    ensures Simple(st, op, word) == FlowWord(st, op, word)
  {
    hide FlowWord;
  }

  // EXECUTE of EXECUTE.
  lemma TwiceAgrees(st: State, word: cell)
    requires StacksOk(st) && CodeField(st.mem, word) == OP_EXECUTE
    ensures var o := Perform(st, word); o.Stop? || GoesNext(st, o.ip) <==> SameNamed(st, word)
  {
    hide Fetch16, Store16, CodeField, AbortState, ParameterField, DoesCode, Simple;
    assert Perform(st, word) == Execute(st);
    if !Empty(st.data) {
      var s, x := DropData(st), TopData(st);
      var op := CodeField(st.mem, x);
      if IsEntering(op) {
        assert Perform(s, x) == Simple(s, op, x) == FlowWord(s, op, x) by { FlowSimple(s, op, x); }
        EnteringPointer(s, op, x);
      }
    }
  }

  lemma EnteringPointer(st: State, op: nat, word: cell)
    requires StacksOk(st) && op == CodeField(st.mem, word) && IsEntering(op)
    ensures FlowWord(st, op, word).Next? && (GoesNext(st, FlowWord(st, op, word).ip) <==> EntersNext(st, word))
  {
    hide Fetch16, Store16, CodeField, AbortState, ParameterField, DoesCode;
  }

  // The words for which more than the opcode has to be looked at.
  predicate SetsPointer(op: nat) {
    op in {OP_EXIT, OP_JUMP, OP_JUMP_IF, OP_PUSH, OP_EXECUTE}
  }

  lemma ExecuteOfOrdinary(st: State)
    requires StacksOk(st) && !Empty(st.data) && !SetsPointer(CodeField(st.mem, TopData(st)))
    ensures Execute(st) == Perform(DropData(st), TopData(st))
  {
    hide Fetch16, CodeField, Simple, Cells, AbortState, Execute;
    ExecuteAgrees(st);
  }

  lemma OrdinaryPointer(st: State, op: nat, word: cell)
    requires StacksOk(st) && !SetsPointer(op) && !IsEntering(op)
    ensures var o := Simple(st, op, word); o.Next? ==> GoesNext(st, o.ip)
  {
    hide FlowWord, CompilerWord, InputWord, SystemWord, StackWord;
    OtherFlow(st, op, word);
    CompilersGoOn(st, op);
    ReadersGoOn(st, op, word);
    SystemGoesOn(st, op);
    StackGoesOn(st, op);
  }

  lemma OtherFlow(st: State, op: nat, word: cell)
    requires StacksOk(st) && !SetsPointer(op) && !IsEntering(op)
    ensures var o := FlowWord(st, op, word); o.Next? ==> GoesNext(st, o.ip)
  {
    hide Fetch16, Store16, AbortState, Wrap, ParameterField;
  }

  lemma CompilersGoOn(st: State, op: nat)
    requires StacksOk(st)
    ensures var o := CompilerWord(st, op); o.Next? ==> GoesNext(st, o.ip)
  {
    hide Fetch16, Store16, CodeField, AbortState, Wrap, FindOpcode;
  }

  lemma ReadersGoOn(st: State, op: nat, word: cell)
    requires StacksOk(st)
    ensures var o := InputWord(st, op, word); o.Next? ==> GoesNext(st, o.ip)
  {
    hide Fetch16, Store16, AbortState, Wrap, ReadToken, HeaderBytes, Blit, FindName, WordBuffer;
  }

  lemma SystemGoesOn(st: State, op: nat)
    requires StacksOk(st)
    ensures var o := SystemWord(st, op); o.Next? ==> GoesNext(st, o.ip)
  {
    hide Fetch16, Store16, AbortState, Wrap, Paste, SkipComment, ReadNumber, SweepEnds, SweepStart;
  }

  lemma StackGoesOn(st: State, op: nat)
    requires StacksOk(st)
    ensures var o := StackWord(st, op); o.Next? ==> GoesNext(st, o.ip)
  {
    hide Fetch16, Store16, AbortState, Wrap, IsImmediate;
  }

  // EXECUTE given EXECUTE given a colon word: the return address is pushed but
  // the word is not run; the machine goes on at the next cell.
  lemma ExecuteExecute(st: State)
    requires StacksOk(st) && !Empty(st.data) && !Empty(DropData(st).data) && !Full(st.ret)
    requires CodeField(st.mem, TopData(st)) == OP_EXECUTE
    requires CodeField(st.mem, TopData(DropData(st))) == OP_ENTER
    requires var s := PushReturn(DropData(DropData(st)), Wrap(st.ip + 2));
             ParameterField(s.mem, TopData(DropData(st))) != st.recover
    ensures Execute(st).Next? && Execute(st).ip == Wrap(st.ip + 2)
    ensures ReturnOf(Execute(st).st) == ReturnOf(st) + [Wrap(st.ip + 2)]
  {
    hide Fetch16, Store16, CodeField, Cells, AbortState, ParameterField, CompilerWord, InputWord, StackWord;
    var s1, s2 := DropData(st), DropData(DropData(st));
    var x := TopData(s1);
    assert Perform(s2, x) == Enter(s2, x);
    SelfRun(s2);
    PushReturnEffect(s2, s2.mem, Wrap(st.ip + 2));
    assert Execute(s1) == Perform(s2, x);
    assert Perform(s1, TopData(st)) == Execute(s1);
  }
}
