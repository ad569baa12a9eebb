// Runs of the inner interpreter, and what pushing and popping do to the values on
// the three stacks.
module ForthRun {
  import opened Dataspace
  import opened ForthState
  import opened ForthWords
  import opened ForthSource

  function Run(st: State, n: nat): (r: Outcome)
    requires StacksOk(st)
    ensures r.Next? ==> StacksOk(r.st) && r.st.recover == st.recover && r.ip == r.st.ip
    decreases n
  {
    if n == 0 then Next(st, st.ip)
    else
      match Step(st)
      case Stop(why) => Stop(why)
      case Next(s, _) => Run(s, n - 1)
  }

  lemma {:induction false} RunSplit(st: State, i: nat, j: nat)
    requires StacksOk(st) && Run(st, i).Next?
    ensures Run(st, i + j) == Run(Run(st, i).st, j)
    decreases i
  {
    hide Step;
    if i != 0 {
      RunSplit(Step(st).st, i - 1, j);
    }
  }

  // After BYE nothing changes.
  lemma {:induction false} Idle(st: State, n: nat)
    requires StacksOk(st) && !st.run
    ensures Run(st, n) == Next(st, st.ip)
    decreases n
  {
    hide Perform;
    if n > 0 {
      Idle(st, n - 1);
    }
  }

  // Memory below the stacks is still m.
  ghost predicate Running(st: State, m: Memory) {
    StacksOk(st) && SameOn(m, st.mem, 0, SPACE_TOP)
  }

  // State s differs from st only in its data stack (and stack space).
  ghost predicate SameFrame(st: State, s: State)
    requires StacksOk(st)
  {
    && StacksOk(s) && ReturnOf(s) == ReturnOf(st) && s.ret == st.ret
    && ControlOf(s) == ControlOf(st) && s.control == st.control
    && s.dictHead == st.dictHead && s.recover == st.recover && s.top == st.top && s.run == st.run
  }

  lemma StackDepth(st: State)
    requires StacksOk(st)
    ensures |DataOf(st)| <= DATA_DEPTH && (Full(st.data) <==> |DataOf(st)| == DATA_DEPTH)
    ensures Empty(st.data) <==> DataOf(st) == []
    ensures |ReturnOf(st)| <= RETURN_DEPTH && (Full(st.ret) <==> |ReturnOf(st)| == RETURN_DEPTH)
    ensures Empty(st.ret) <==> ReturnOf(st) == []
  {
  }

  lemma PushEffect(st: State, m: Memory, v: cell)
    requires Running(st, m) && !Full(st.data)
    ensures var s := PushData(st, v);
            Running(s, m) && SameFrame(st, s) && DataOf(s) == DataOf(st) + [v]
  {
    hide Fetch16, Store16, SameOn, Cells;
    var d := st.data.where;
    var n := Store16(st.mem, d, v);
    StoreOver(m, st.mem, d, v);
    CellsPush(st.mem, DATA_BOTTOM, d, v);
    StoreOutside(st.mem, d, v, CONTROL_BOTTOM, st.control.where);
    StoreOutside(st.mem, d, v, RETURN_BOTTOM, st.ret.where);
    CellsFrame(st.mem, n, CONTROL_BOTTOM, st.control.where);
    CellsFrame(st.mem, n, RETURN_BOTTOM, st.ret.where);
  }

  lemma StoreOver(m: Memory, n: Memory, x: cell, v: cell)
    requires SameOn(m, n, 0, SPACE_TOP) && SPACE_TOP <= x < 0xFFFF
    ensures SameOn(m, Store16(n, x, v), 0, SPACE_TOP)
  {
  }

  lemma PopEffect(st: State, m: Memory)
    requires Running(st, m) && !Empty(st.data)
    ensures DataOf(st) != []
    ensures var s := DropData(st);
            Running(s, m) && SameFrame(st, s) && DataOf(s) == Front(DataOf(st)) && TopData(st) == Last(DataOf(st))
  {
    hide Fetch16, SameOn, Cells;
    CellsPop(st.mem, DATA_BOTTOM, st.data.where);
  }

  lemma PushReturnEffect(st: State, m: Memory, v: cell)
    requires Running(st, m) && !Full(st.ret)
    ensures var s := PushReturn(st, v);
            && Running(s, m) && DataOf(s) == DataOf(st) && ReturnOf(s) == ReturnOf(st) + [v]
            && ControlOf(s) == ControlOf(st)
  {
    hide Fetch16, Store16, SameOn, Cells;
    var d := st.ret.where;
    var n := Store16(st.mem, d, v);
    StoreOver(m, st.mem, d, v);
    CellsPush(st.mem, RETURN_BOTTOM, d, v);
    StoreOutside(st.mem, d, v, CONTROL_BOTTOM, st.control.where);
    StoreOutside(st.mem, d, v, DATA_BOTTOM, st.data.where);
    CellsFrame(st.mem, n, CONTROL_BOTTOM, st.control.where);
    CellsFrame(st.mem, n, DATA_BOTTOM, st.data.where);
  }

  lemma PopReturnEffect(st: State, m: Memory)
    requires Running(st, m) && !Empty(st.ret)
    ensures ReturnOf(st) != []
    ensures var s := DropReturn(st);
            && Running(s, m) && DataOf(s) == DataOf(st) && ReturnOf(s) == Front(ReturnOf(st))
            && ControlOf(s) == ControlOf(st) && TopReturn(st) == Last(ReturnOf(st))
  {
    hide Fetch16, SameOn, Cells;
    CellsPop(st.mem, RETURN_BOTTOM, st.ret.where);
  }

  lemma HeaderSame(m: Memory, n: Memory, xt: cell)
    requires SameOn(m, n, 0, SPACE_TOP) && xt + DE_SIZE_MIN <= SPACE_TOP
    ensures CodeField(n, xt) == CodeField(m, xt) && DoesCode(n, xt) == DoesCode(m, xt)
    ensures ParameterField(n, xt) == ParameterField(m, xt) && IsImmediate(n, xt) == IsImmediate(m, xt)
  {
    hide Fetch16, SameOn, ParameterField, CodeField, DoesCode, IsImmediate;
    HeaderKept(m, n, 0, SPACE_TOP, xt);
  }

  // A word named in code, EXECUTE apart, does what its routine does.
  lemma DirectStep(st: State, xt: cell)
    requires StacksOk(st) && st.run && Fetch16(st.mem, st.ip) == xt && CodeField(st.mem, xt) != OP_EXECUTE
    ensures Step(st) == match Simple(st, CodeField(st.mem, xt), xt)
                        case Stop(why) => Stop(why)
                        case Next(s, ip) => Next(s.(ip := ip), ip)
  {
    hide Fetch16, Simple, CodeField;
  }

  // s is st just after it called the code at `code`.
  ghost predicate Called(st: State, s: State, code: cell)
    requires StacksOk(st)
  {
    && Running(s, st.mem) && DataOf(s) == DataOf(st) && s.ip == code
    && ReturnOf(s) == ReturnOf(st) + [Wrap(st.ip + 2)] && s.ret.where == st.ret.where + 2
    && ControlOf(s) == ControlOf(st) && s.control == st.control
    && s.dictHead == st.dictHead && s.recover == st.recover && s.run
    && Step(st) == Next(s, s.ip)
  }

  lemma SelfRunning(st: State)
    requires StacksOk(st)
    ensures Running(st, st.mem) && SameFrame(st, st)
  {
  }

  lemma EnterCalls(st: State, xt: cell) returns (s: State)
    requires StacksOk(st) && st.run && Fetch16(st.mem, st.ip) == xt && CodeField(st.mem, xt) == OP_ENTER
    requires xt + DE_SIZE_MIN <= SPACE_TOP && !Full(st.ret)
    ensures s == PushReturn(st, Wrap(st.ip + 2)).(ip := ParameterField(st.mem, xt))
    ensures Called(st, s, ParameterField(st.mem, xt))
  {
    hide Fetch16, SameOn, Cells, ParameterField, Store16, Step, CodeField;
    SelfRunning(st);
    DirectStep(st, xt);
    PushReturnEffect(st, st.mem, Wrap(st.ip + 2));
    var s1 := PushReturn(st, Wrap(st.ip + 2));
    HeaderSame(st.mem, s1.mem, xt);
    s := s1.(ip := ParameterField(st.mem, xt));
  }

  lemma ExitReturns(s: State, xt: cell) returns (s': State)
    requires StacksOk(s) && s.run && Fetch16(s.mem, s.ip) == xt && CodeField(s.mem, xt) == OP_EXIT && !Empty(s.ret)
    ensures ReturnOf(s) != []
    ensures s' == DropReturn(s).(ip := Last(ReturnOf(s))) && Step(s) == Next(s', s'.ip)
    ensures Running(s', s.mem) && DataOf(s') == DataOf(s) && ReturnOf(s') == Front(ReturnOf(s))
            && ControlOf(s') == ControlOf(s)
  {
    hide Fetch16, SameOn, Cells, CodeField;
    SelfRunning(s);
    DirectStep(s, xt);
    PopReturnEffect(s, s.mem);
    s' := DropReturn(s).(ip := Last(ReturnOf(s)));
  }
}
