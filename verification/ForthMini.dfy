// mini_interpret, the outer interpreter written in C that compiles INTERPRET: what
// it does with one token, and that this is what compiling that token is.
module ForthMini {
  import opened Dataspace
  import opened ForthState
  import opened ForthWords
  import opened ForthSource
  import opened ForthCompile

  // The loop goes on, has come to the end of the input, or an assertion failed.
  datatype Turn = More(st: State) | Done(st: State) | Halted(why: Reason)

  function TurnOf(o: Outcome): Turn {
    match o
    case Stop(why) => Halted(why)
    case Next(s, _) => More(s)
  }

  lemma FindPushes(st: State)
    requires StacksOk(st) && !Full(st.data) && Find(st).Next?
    ensures !Empty(Find(st).st.data)
  {
    hide ReadToken, Fetch16, Store16, FindName;
  }

  // A token that is no entry is taken for a number; that it may not be one goes
  // unnoticed.
  function MiniNumber(st: State, compiling: bool): (r: Turn)
    requires StacksOk(st) && !Full(st.data)
    ensures !r.Done? && (r.More? ==> StacksOk(r.st))
  {
    match PNumber(PushData(st, LOC_WORD_BUFFER))
    case Stop(why) => Halted(why)
    case Next(s, _) =>
      match Drop(s)
      case Stop(why) => Halted(why)
      case Next(s, _) => if compiling then TurnOf(Literal(s)) else Halted(Assertion)
  }

  function MiniEntry(st: State, xt: cell, compiling: bool): (r: Turn)
    requires StacksOk(st) && !Full(st.data)
    ensures !r.Done? && (r.More? ==> StacksOk(r.st))
  {
    var s := PushData(st, xt);
    TurnOf(if compiling && !IsImmediate(s.mem, xt) then Comma(s) else Execute(s))
  }

  // When FIND aborts, the pop after it fails its assertion.
  function MiniTurn(st: State): (r: Turn)
    requires StacksOk(st)
    ensures r.More? || r.Done? ==> StacksOk(r.st)
  {
    var compiling := Fetch16(st.mem, LOC_STATE) == COMPILING;
    if Full(st.data) then Halted(StackAssertion)
    else
      match Find(st)
      case Stop(why) => Halted(why)
      case Next(s, _) =>
        FindPushes(st);
        var word := TopData(s);
        var s := DropData(s);
        if word != 0 then MiniEntry(s, word, compiling)
        else if s.mem[LOC_WORD_BUFFER] == 0 then Done(s)
        else MiniNumber(s, compiling)
  }

  // The loop, n turns at most.
  function MiniRun(st: State, n: nat): (r: Turn)
    requires StacksOk(st)
    ensures r.More? || r.Done? ==> StacksOk(r.st)
    decreases n
  {
    if n == 0 then More(st)
    else
      match MiniTurn(st)
      case More(s) => MiniRun(s, n - 1)
      case r => r
  }

  // What the compiler is proved for.

  lemma PushAgain(s: State)
    requires StacksOk(s) && !Empty(s.data)
    ensures PushData(DropData(s), TopData(s)) == s
  {
    var m, a := s.mem, s.data.where - 2;
    assert Store16(m, a, Fetch16(m, a)) == m;
  }

  // While compiling, a turn that finds an entry compiles it, in the state that FIND
  // leaves once its answer is popped.
  lemma EntryCompiles(st: State)
    requires StacksOk(st) && !Full(st.data) && Fetch16(st.mem, LOC_STATE) == COMPILING
    requires Find(st).Next? && !Empty(Find(st).st.data) && TopData(Find(st).st) != 0
    ensures var s := Find(st).st; MiniTurn(st) == TurnOf(CompileToken(DropData(s), Entry(TopData(s))))
  {
    hide Fetch16, Store16, Find, IsImmediate, Execute, Comma;
    var s := Find(st).st;
    PushAgain(s);
  }

  // While interpreting it performs the entry, immediate or not.
  lemma EntryExecutes(st: State)
    requires StacksOk(st) && !Full(st.data) && Fetch16(st.mem, LOC_STATE) != COMPILING
    requires Find(st).Next? && !Empty(Find(st).st.data) && TopData(Find(st).st) != 0
    ensures MiniTurn(st) == TurnOf(Execute(Find(st).st))
  {
    hide Fetch16, Store16, Find, IsImmediate, Execute, Comma;
    PushAgain(Find(st).st);
  }

  // The loop ends exactly at a turn whose FIND finds nothing and has read no word, and
  // leaves nothing behind.
  lemma EndsAtEnd(st: State)
    requires StacksOk(st) && !Full(st.data) && Find(st).Next? && !Empty(Find(st).st.data)
    ensures var s := Find(st).st;
            if TopData(s) == 0 && s.mem[LOC_WORD_BUFFER] == 0 then MiniTurn(st) == Done(DropData(s))
            else !MiniTurn(st).Done?
  {
    hide Fetch16, Store16, Find, IsImmediate, Execute, Comma, MiniNumber, MiniEntry;
  }

  // While interpreting a word that is no entry fails, number or not.
  lemma NumberRefused(st: State)
    requires StacksOk(st) && !Full(st.data) && Fetch16(st.mem, LOC_STATE) != COMPILING
    requires Find(st).Next? && !Empty(Find(st).st.data) && TopData(Find(st).st) == 0
    requires Find(st).st.mem[LOC_WORD_BUFFER] != 0
    ensures MiniTurn(st) == Halted(Assertion)
  {
    hide Fetch16, Store16, Find, ReadNumber, AbortState, Literal;
  }

  // And one that finds none, where there is a number and two cells are free,
  // compiles the number; with one free cell (NUMBER) aborts and nothing is
  // compiled.
  lemma NumberCompiles(st: State) returns (t: State)
    requires StacksOk(st) && !Full(st.data) && Fetch16(st.mem, LOC_STATE) == COMPILING
    requires Find(st).Next? && !Empty(Find(st).st.data) && TopData(Find(st).st) == 0
    requires Find(st).st.mem[LOC_WORD_BUFFER] != 0
    ensures var s := PushData(DropData(Find(st).st), LOC_WORD_BUFFER);
            var n := ReadNumber(s.mem, LOC_WORD_BUFFER);
            && !Empty(s.data)
            && (n.Converted? && !Full(s.data) ==>
                  && t == DropData(s).(mem := t.mem) && SameOn(s.mem, t.mem, 0, s.data.where - 2)
                  && SameOn(s.mem, t.mem, DATA_TOP, SIZE)
                  && MiniTurn(st) == TurnOf(CompileToken(t, Numeral(n.value))))
            && (Full(s.data) ==> MiniTurn(st).More? && Empty(MiniTurn(st).st.data))
  {
    hide Find, ReadNumber, AbortState, Literal, IsImmediate;
    var s0 := DropData(Find(st).st);
    var s := PushData(s0, LOC_WORD_BUFFER);
    assert TopData(s) == LOC_WORD_BUFFER by { FetchStored(s0.mem, s0.data.where, LOC_WORD_BUFFER); }
    var n := ReadNumber(s.mem, LOC_WORD_BUFFER);
    t := s;
    if n.Converted? && !Full(s.data) {
      var v := PushData(DropData(s), n.value);
      var u := DropData(PushData(v, 1));
      t := DropData(u);
      assert TopData(u) == n.value by { NumberBelow(s.mem, s.data.where - 2, n.value); }
      PushAgain(u);
    } else if Full(s.data) {
      FullAborts(s);
    }
  }

  lemma NumberBelow(m: Memory, a: cell, v: cell)
    requires a < 0xFFF0
    ensures Fetch16(Store16(Store16(m, a, v), a + 2, 1), a) == v
  {
  }

  // With one free cell.
  lemma FullAborts(s: State)
    requires StacksOk(s) && Full(s.data)
    ensures PNumber(s).Next? && Drop(PNumber(s).st).Next? && Literal(Drop(PNumber(s).st).st).Next?
    ensures Empty(Literal(Drop(PNumber(s).st).st).st.data)
  {
    hide ReadNumber, Fetch16, Store16;
  }
}
