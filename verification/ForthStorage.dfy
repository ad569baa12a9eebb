// The words that read and write cells, by the values they take and leave.
module ForthStorage {
  import opened Dataspace
  import opened ForthState
  import opened ForthWords
  import opened ForthSource
  import opened ForthRun

  // Two values off the data stack.
  lemma PopTwo(st: State, s: seq<cell>, v: cell, a: cell)
    requires StacksOk(st) && DataOf(st) == s + [v, a]
    ensures !Empty(st.data) && TopData(st) == a && StacksOk(DropData(st)) && DataOf(DropData(st)) == s + [v]
    ensures var t := DropData(st);
            !Empty(t.data) && TopData(t) == v && DataOf(DropData(t)) == s && SameFrame(st, DropData(t))
  {
    hide Fetch16, SameOn, Cells;
    SelfRunning(st);
    StackDepth(st);
    PopEffect(st, st.mem);
    var t := DropData(st);
    assert s + [v, a] == s + [v] + [a];
    assert Last(s + [v] + [a]) == a && Front(s + [v] + [a]) == s + [v];
    StackDepth(t);
    PopEffect(t, st.mem);
    assert Last(s + [v]) == v && Front(s + [v]) == s;
  }

  // `!` takes the address from the top and the value from below it, stores the value
  // and changes nothing else below the stacks; @ then shows it.
  lemma StoreShown(st: State, s: seq<cell>, v: cell, a: cell)
    requires StacksOk(st) && DataOf(st) == s + [v, a] && a + 2 <= SPACE_TOP
    ensures StoreCell(st).Next? && StoreCell(st).ip == Wrap(st.ip + 2)
    ensures var r := StoreCell(st).st;
            && SameFrame(st, r) && DataOf(r) == s && Fetch16(r.mem, a) == v
            && (forall x :: 0 <= x < SPACE_TOP && x != a && x != a + 1 ==> r.mem[x] == st.mem[x])
            && !Full(r.data) && At(PushData(r, a)).Next? && DataOf(At(PushData(r, a)).st) == s + [v]
  {
    hide Fetch16, Store16, SameOn, Cells;
    PopTwo(st, s, v, a);
    var t := DropData(DropData(st));
    var r := StoreCell(st).st;
    StoreBelow(st.mem, a, v);
    Kept(t, r, a, v);
    StackDepth(st);
    StackDepth(r);
    var u := PushData(r, a);
    SelfRunning(r);
    PushEffect(r, r.mem, a);
    PopEffect(u, r.mem);
    FetchSame(r.mem, u.mem, 0, SPACE_TOP, a);
    assert Last(s + [a]) == a && Front(s + [a]) == s;
    var w := DropData(u);
    StackDepth(u);
    StackDepth(w);
    PushEffect(w, r.mem, v);
  }

  lemma StoreBelow(m: Memory, a: cell, v: cell)
    requires a + 2 <= SPACE_TOP
    ensures var n := Store16(m, a, v);
            && Fetch16(n, a) == v && SameOn(m, n, SPACE_TOP, SIZE)
            && forall x :: 0 <= x < SPACE_TOP && x != a && x != a + 1 ==> n[x] == m[x]
  {
    FetchStored(m, a, v);
  }

  // Stacks stay what they are when a cell below them changes.
  lemma Kept(t: State, r: State, a: cell, v: cell)
    requires StacksOk(t) && r == t.(mem := r.mem) && SameOn(t.mem, r.mem, SPACE_TOP, SIZE)
    ensures SameFrame(t, r) && DataOf(r) == DataOf(t)
  {
    hide Fetch16;
    SamePart(t.mem, r.mem, SPACE_TOP, SIZE, DATA_BOTTOM, t.data.where);
    SamePart(t.mem, r.mem, SPACE_TOP, SIZE, CONTROL_BOTTOM, t.control.where);
    SamePart(t.mem, r.mem, SPACE_TOP, SIZE, RETURN_BOTTOM, t.ret.where);
    CellsFrame(t.mem, r.mem, DATA_BOTTOM, t.data.where);
    CellsFrame(t.mem, r.mem, CONTROL_BOTTOM, t.control.where);
    CellsFrame(t.mem, r.mem, RETURN_BOTTOM, t.ret.where);
  }

  // ALLOT moves HERE on by the value it takes, and only that.
  lemma AllotMoves(st: State, s: seq<cell>, n: cell)
    requires StacksOk(st) && DataOf(st) == s + [n]
    ensures Allot(st).Next? && Allot(st).ip == Wrap(st.ip + 2)
    ensures var r := Allot(st).st;
            && SameFrame(st, r) && DataOf(r) == s && Here(r.mem) == (Here(st.mem) + n) % 0x1_0000
            && forall x :: 0 <= x < SPACE_TOP && x != LOC_HERE && x != LOC_HERE + 1 ==> r.mem[x] == st.mem[x]
  {
    hide Fetch16, Store16, SameOn, Cells;
    SelfRunning(st);
    StackDepth(st);
    PopEffect(st, st.mem);
    assert Last(s + [n]) == n && Front(s + [n]) == s;
    var h := Wrap(Here(st.mem) + n);
    StoreBelow(st.mem, LOC_HERE, h);
    Kept(DropData(st), Allot(st).st, LOC_HERE, h);
  }

  // (NUMBER) leaves the value and 1, or the address and 0.
  lemma NumberLeft(st: State, s: seq<cell>, addr: cell)
    requires StacksOk(st) && DataOf(st) == s + [addr]
    ensures |s| + 2 <= DATA_DEPTH ==>
              && PNumber(st).Next? && PNumber(st).ip == Wrap(st.ip + 2) && SameFrame(st, PNumber(st).st)
              && DataOf(PNumber(st).st) == match ReadNumber(st.mem, addr)
                                           case Converted(k) => s + [k, 1]
                                           case Wrong => s + [addr, 0]
    ensures |s| + 2 > DATA_DEPTH ==> PNumber(st).Next? && Empty(PNumber(st).st.data) && PNumber(st).ip == st.recover
  {
    hide Fetch16, Store16, SameOn, Cells, ReadNumber, AbortState;
    SelfRunning(st);
    StackDepth(st);
    PopEffect(st, st.mem);
    assert Last(s + [addr]) == addr && Front(s + [addr]) == s;
    var n := ReadNumber(st.mem, addr);
    var v := if n.Converted? then n.value else addr;
    var f: cell := if n.Converted? then 1 else 0;
    var t := DropData(st);
    StackDepth(t);
    PushEffect(t, st.mem, v);
    var u := PushData(t, v);
    StackDepth(u);
    if !Full(u.data) {
      PushEffect(u, st.mem, f);
      assert s + [v] + [f] == s + [v, f];
    } else {
      AbortEmpties(u);
    }
  }

  lemma AbortEmpties(st: State)
    ensures Empty(AbortState(st).data)
  {
  }

  // `.` takes the top value, in every base in which it can print.
  lemma DotTakes(st: State, s: seq<cell>, n: cell)
    requires StacksOk(st) && DataOf(st) == s + [n] && Fetch16(st.mem, LOC_BASE) >= 2
    ensures Dot(st).Next? && Dot(st).ip == Wrap(st.ip + 2)
    ensures var r := Dot(st).st; SameFrame(st, r) && DataOf(r) == s && r.mem == st.mem
  {
    hide Fetch16, SameOn, Cells;
    SelfRunning(st);
    StackDepth(st);
    PopEffect(st, st.mem);
    assert Last(s + [n]) == n && Front(s + [n]) == s;
  }

  // BYE is the last thing the machine does.
  lemma {:induction false} ByeEnds(st: State, n: nat)
    requires StacksOk(st) && st.run && CodeField(st.mem, Fetch16(st.mem, st.ip)) == OP_BYE
    ensures Run(st, n + 1) == Next(st.(run := false, ip := Wrap(st.ip + 2)), Wrap(st.ip + 2))
  {
    hide CodeField, Fetch16;
    var s := st.(run := false, ip := Wrap(st.ip + 2));
    assert Step(st) == Next(s, s.ip);
    Still(s, n);
  }

  lemma {:induction false} Still(s: State, n: nat)
    requires StacksOk(s) && !s.run
    ensures Run(s, n) == Next(s, s.ip)
    decreases n
  {
    if n > 0 { Still(s, n - 1); }
  }
}
