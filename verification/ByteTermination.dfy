// Every call of a word of the first system comes to an end: it returns to its
// caller, stops at a stack assertion, halts, or asks for input that is not there.
module ByteTermination {
  import opened Dataspace
  import opened ByteState
  import opened ByteWords
  import opened ByteProgram

  // The bytes of the current instruction are those of the program.
  lemma SameInstruction(st: State, m: Memory, b: int, ds: seq<seq<nat>>, k: nat, i: nat)
    requires ProgramOk(m, ds) && At(ds, k, i) && Below(ds, b) && b <= SPACE_TOP
    requires SameOn(m, st.mem, DICTIONARY_START, b) && st.ip == ds[k][i]
    ensures st.mem[st.ip] == m[st.ip] && DICTIONARY_START <= st.ip < SPACE_TOP
    ensures i + 1 < |ds[k]| ==> st.ip + 3 <= SPACE_TOP && InsOk(m, ds[k], i, [], Starts(ds[..k]))
    ensures i + 1 < |ds[k]| && Width(m[st.ip]) == 3 ==> Fetch16(st.mem, Wrap(st.ip + 1)) == Fetch16(m, st.ip + 1)
    ensures i + 1 == |ds[k]| ==> m[st.ip] == LEAVE
  {
    hide Fetch16, SameOn, Later, Plain;
    var ys := ds[k];
    assert DefinitionOk(m, ys, Starts(ds[..k]));
    assert ys[0] <= ys[i] <= ys[|ys| - 1];
    ByteSame(m, st.mem, DICTIONARY_START, b, ys[i]);
    if i + 1 < |ys| {
      assert InsOk(m, ys, i, [], Starts(ds[..k])) && ys[i + 1] <= ys[|ys| - 1];
      if Width(m[st.ip]) == 3 { FetchSame(m, st.mem, DICTIONARY_START, b, st.ip + 1); }
    }
  }

  // One step inside the program leaves less to do and as much room, or is the
  // LEAVE of the call, or the last.
  ghost predicate Less(st: State, o: Outcome, m: Memory, b: int, ds: seq<seq<nat>>, k: nat, i: nat, fs: Frames,
      base: seq<cell>, k': nat, i': nat, fs': Frames)
    requires StacksOk(st) && ProgramOk(m, ds) && At(ds, k, i) && FramesOk(ds, fs)
  {
    match o
    case Stop(why) => why == StackAssertion || why == Halted || why == NoInput
    case Next(s) =>
      StacksOk(s) && (
        || (Busy(s, m, b, ds, k', i', fs', base) && Left(Steps, m, ds, k', i', fs') < Left(Steps, m, ds, k, i, fs))
        || (base != [] && ReturnOf(s) == base[..|base| - 1] && s.ip == base[|base| - 1]))
  }

  lemma AddressesPush(ds: seq<seq<nat>>, fs: Frames, f: (nat, nat))
    requires FramesOk(ds, fs) && At(ds, f.0, f.1)
    ensures FramesOk(ds, fs + [f]) && Addresses(ds, fs + [f]) == Addresses(ds, fs) + [ds[f.0][f.1]]
  {
  }

  lemma TotalPush(w: Measure, m: Memory, ds: seq<seq<nat>>, fs: Frames, f: (nat, nat))
    requires ProgramOk(m, ds) && FramesOk(ds, fs) && At(ds, f.0, f.1)
    ensures FramesOk(ds, fs + [f])
            && TotalCost(w, m, ds, fs + [f]) == TotalCost(w, m, ds, fs) + Cost(w, m, ds, f.0, f.1)
  {
    hide ProgramOk, Cost;
    AddressesPush(ds, fs, f);
    assert (fs + [f])[..|fs|] == fs;
  }

  lemma LeaveStep(st: State, m: Memory, b: int, ds: seq<seq<nat>>, k: nat, i: nat, fs: Frames, base: seq<cell>,
      ans: Answers)
    returns (k': nat, i': nat, fs': Frames)
    requires StacksOk(st) && ProgramOk(m, ds) && Busy(st, m, b, ds, k, i, fs, base) && i + 1 == |ds[k]|
    ensures Less(st, Step(st, ans), m, b, ds, k, i, fs, base, k', i', fs')
  {
    hide Fetch16, Cells, ProgramOk, SameOn, Onward, Execute;
    k', i', fs' := k, i, fs;
    SameInstruction(st, m, b, ds, k, i);
    var all := ReturnOf(st);
    if st.ret != RETURN_BOTTOM {
      CellsPop(st.mem, RETURN_BOTTOM, st.ret);
      var s := Step(st, ans).st;
      assert all == ReturnOf(s) + [s.ip];
      if fs != [] {
        var f := fs[|fs| - 1];
        k', i', fs' := f.0, f.1, fs[..|fs| - 1];
        AddressesPush(ds, fs', f);
        assert fs == fs' + [f];
        TotalPush(Steps, m, ds, fs', f);
        TotalPush(Bytes, m, ds, fs', f);
        assert all[..|all| - 1] == base + Addresses(ds, fs');
        assert all[|all| - 1] == ds[k'][i'];
      } else {
        assert all == base;
      }
    }
  }

  lemma EnterStep(st: State, m: Memory, b: int, ds: seq<seq<nat>>, k: nat, i: nat, fs: Frames, base: seq<cell>,
      ans: Answers)
    returns (k': nat, i': nat, fs': Frames)
    requires StacksOk(st) && ProgramOk(m, ds) && Busy(st, m, b, ds, k, i, fs, base) && i + 1 < |ds[k]|
             && m[ds[k][i]] == ENTER
    ensures Less(st, Step(st, ans), m, b, ds, k, i, fs, base, k', i', fs')
  {
    hide Fetch16, Store16, Cells, ProgramOk, SameOn, Perform, Starts;
    SameInstruction(st, m, b, ds, k, i);
    PerformsEnter(st, ans);
    var f := (k, i + 1);
    k', i', fs' := Callee(m, ds, k, i), 0, fs + [f];
    AddressesPush(ds, fs, f);
    TotalPush(Steps, m, ds, fs, f);
    TotalPush(Bytes, m, ds, fs, f);
    if st.ret + 2 != RETURN_TOP {
      var v: cell := Wrap(st.ip + 3);
      assert v == ds[k][i + 1];
      CellsPush(st.mem, RETURN_BOTTOM, st.ret, v);
      FetchElsewhere(st.mem, st.ret, v, Wrap(st.ip + 1));
      FetchElsewhere(st.mem, st.ret, v, LOC_WHERE);
      FetchElsewhere(st.mem, st.ret, v, LOC_INPUT_BUFFER_COUNT);
      StoreOutside(st.mem, st.ret, v, DICTIONARY_START, b);
      var s := Step(st, ans).st;
      SameBoth(m, st.mem, s.mem, DICTIONARY_START, b);
    }
  }

  // Everything else stays in the definition and moves forward in it.
  lemma ForwardStep(st: State, m: Memory, b: int, ds: seq<seq<nat>>, k: nat, i: nat, fs: Frames, base: seq<cell>,
      ans: Answers)
    returns (k': nat, i': nat, fs': Frames)
    requires StacksOk(st) && ProgramOk(m, ds) && Busy(st, m, b, ds, k, i, fs, base) && i + 1 < |ds[k]|
             && m[ds[k][i]] != ENTER
    ensures Less(st, Step(st, ans), m, b, ds, k, i, fs, base, k', i', fs')
  {
    hide Fetch16, Store16, Cells, ProgramOk, SameOn, DataStep, DictionaryStep, ControlWord, Execute, Starts, Harmless;
    hide TotalCost, Later, Below;
    SameInstruction(st, m, b, ds, k, i);
    var op := m[st.ip] as nat;
    k', i', fs' := k, i + 1, fs;
    var o := Step(st, ans);
    if op == LDN {
      PushesHarmless(st, [Fetch16(st.mem, Wrap(st.ip + 1))]);
      OnePush(st, Fetch16(st.mem, Wrap(st.ip + 1)));
    } else if op == JMP {
      i' := Target(m, ds, k, i);
      HarmlessSelf(st);
    } else if op == JMP_FALSE {
      PopsHarmless(st, 1);
      OnePop(st);
      if o.Next? && o.st.ip == Fetch16(st.mem, Wrap(st.ip + 1)) {
        i' := Target(m, ds, k, i);
      }
    } else if op != HALT {
      OnwardHarmless(st, op, ans);
    }
    if o.Next? {
      HarmlessBusy(st, o.st, m, b, ds, k, i, fs, base, i', Weight(Bytes, op));
    }
  }

  lemma OnwardHarmless(st: State, op: nat, ans: Answers)
    requires StacksOk(st) && InputOk(st.mem) && Plain(op) && op != HALT
    requires DICTIONARY_START <= Where(st.mem) && Where(st.mem) + Weight(Bytes, op) <= SPACE_TOP
    ensures match Perform(st, op, ans)
            case Stop(why) => why == StackAssertion || why == NoInput
            case Next(s) => s.ip == Wrap(st.ip + 1) && Harmless(st, s.(ip := st.ip), Weight(Bytes, op))
  {
    hide Cells, Fetch16, Harmless, DataStep, DictionaryStep;
    if OnDataOnly(op) {
      DataHarmless(st, op, ans);
      HarmlessIp(st, DataStep(st, op, ans));
    } else {
      DictionaryHarmless(st, op);
      HarmlessIp(st, DictionaryStep(st, op));
    }
  }

  lemma HarmlessIp(st: State, o: Outcome)
    requires StacksOk(st)
    ensures forall g :: HarmlessEnd(st, o, g) && o.Next? ==> o.st.(ip := st.ip) == o.st
  {
  }

  lemma OnePush(st: State, v: cell)
    requires StacksOk(st)
    ensures PushMany(st, [v]) == PushData(st, v)
  {
    hide Store16;
    assert [v][1..] == [];
  }

  lemma OnePop(st: State)
    requires StacksOk(st)
    ensures PopMany(st, 1).0 == match PopData(st) case Empty => Stop(StackAssertion) case Popped(s, v) => Next(s)
  {
    hide Fetch16;
    if PopData(st).Popped? {
      assert PopMany(PopData(st).st, 0).0 == Next(PopData(st).st);
    }
  }

  lemma HarmlessBusy(st: State, s: State, m: Memory, b: int, ds: seq<seq<nat>>, k: nat, i: nat, fs: Frames,
      base: seq<cell>, i': nat, g: nat)
    requires StacksOk(st) && ProgramOk(m, ds) && Busy(st, m, b, ds, k, i, fs, base) && At(ds, k, i')
             && s.ip == ds[k][i']
    requires Harmless(st, s.(ip := st.ip), g) && Cost(Bytes, m, ds, k, i') + g <= Cost(Bytes, m, ds, k, i)
    ensures StacksOk(s) && Busy(s, m, b, ds, k, i', fs, base)
  {
    hide Cells, SameOn, Cost, TotalCost, ProgramOk, Below, Fetch16;
    SamePart(st.mem, s.mem, DICTIONARY_START, Where(st.mem), DICTIONARY_START, b);
    SameBoth(m, st.mem, s.mem, DICTIONARY_START, b);
  }

  lemma OneStep(st: State, m: Memory, b: int, ds: seq<seq<nat>>, k: nat, i: nat, fs: Frames, base: seq<cell>,
      ans: Answers)
    returns (k': nat, i': nat, fs': Frames)
    requires StacksOk(st) && ProgramOk(m, ds) && Busy(st, m, b, ds, k, i, fs, base)
    ensures Less(st, Step(st, ans), m, b, ds, k, i, fs, base, k', i', fs')
  {
    hide Step, Less, ProgramOk;
    if i + 1 == |ds[k]| {
      k', i', fs' := LeaveStep(st, m, b, ds, k, i, fs, base, ans);
    } else if m[ds[k][i]] == ENTER {
      k', i', fs' := EnterStep(st, m, b, ds, k, i, fs, base, ans);
    } else {
      k', i', fs' := ForwardStep(st, m, b, ds, k, i, fs, base, ans);
    }
  }

  // From anywhere inside the program, the call ends within the steps counted.
  lemma {:induction false} Finishes(st: State, m: Memory, b: int, ds: seq<seq<nat>>, k: nat, i: nat, fs: Frames,
      base: seq<cell>, ans: Answers)
    returns (n: nat)
    requires StacksOk(st) && ProgramOk(m, ds) && Busy(st, m, b, ds, k, i, fs, base)
    ensures n <= Left(Steps, m, ds, k, i, fs) && Ended(st, ans, n, base)
    decreases Left(Steps, m, ds, k, i, fs)
  {
    hide Step, ProgramOk, Busy, Left, Cells;
    BusyPlace(st, m, b, ds, k, i, fs, base);
    var k', i', fs' := OneStep(st, m, b, ds, k, i, fs, base, ans);
    LeftPositive(m, ds, k, i, fs);
    n := 1;
    match Step(st, ans)
    case Stop(_) =>
    case Next(s) =>
      assert Run(s, ans, 0) == Next(s);
      if Busy(s, m, b, ds, k', i', fs', base)
        && !(base != [] && ReturnOf(s) == base[..|base| - 1] && s.ip == base[|base| - 1]) {
        var n' := Finishes(s, m, b, ds, k', i', fs', base, ans);
        n := 1 + n';
      }
  }

  lemma BusyPlace(st: State, m: Memory, b: int, ds: seq<seq<nat>>, k: nat, i: nat, fs: Frames, base: seq<cell>)
    requires StacksOk(st) && ProgramOk(m, ds) && Busy(st, m, b, ds, k, i, fs, base)
    ensures At(ds, k, i) && FramesOk(ds, fs)
  {
  }

  lemma LeftPositive(m: Memory, ds: seq<seq<nat>>, k: nat, i: nat, fs: Frames)
    requires ProgramOk(m, ds) && At(ds, k, i) && FramesOk(ds, fs)
    ensures Left(Steps, m, ds, k, i, fs) >= 1
  {
  }

  // Every definition terminates: entered at its start with the caller's return
  // stack and room for what its COMPILE, LITERAL and `:` lay, it comes back
  // within Cost steps, or stops at an assertion, at (HALT) or at the end of the
  // input, whatever FIND2 and (NUMBER) answer.
  lemma Terminates(st: State, ds: seq<seq<nat>>, k: nat, ans: Answers) returns (n: nat)
    requires StacksOk(st) && ProgramOk(st.mem, ds) && Below(ds, Where(st.mem)) && k < |ds| && st.ip == ds[k][0]
    requires DICTIONARY_START <= Where(st.mem) && Where(st.mem) + Cost(Bytes, st.mem, ds, k, 0) <= SPACE_TOP
    requires InputOk(st.mem)
    ensures n <= Cost(Steps, st.mem, ds, k, 0) && Ended(st, ans, n, ReturnOf(st))
  {
    hide ProgramOk, Cost, Cells, Ended, Fetch16;
    assert At(ds, k, 0) by { Entries(st.mem, ds); }
    assert ReturnOf(st) == ReturnOf(st) + Addresses(ds, []);
    assert SameOn(st.mem, st.mem, DICTIONARY_START, Where(st.mem));
    n := Finishes(st, st.mem, Where(st.mem), ds, k, 0, [], ReturnOf(st), ans);
  }

  lemma Entries(m: Memory, ds: seq<seq<nat>>)
    requires ProgramOk(m, ds)
    ensures NonEmpty(ds)
  {
  }

  // No instruction lays anything at HERE.
  ghost predicate Quiet(m: Memory, ds: seq<seq<nat>>) {
    forall k, i :: 0 <= k < |ds| && 0 <= i && i + 1 < |ds[k]| && ds[k][i] < SIZE ==> Weight(Bytes, m[ds[k][i]]) == 0
  }

  lemma {:induction false} QuietCost(m: Memory, ds: seq<seq<nat>>, k: nat, i: nat)
    requires ProgramOk(m, ds) && At(ds, k, i) && Quiet(m, ds)
    ensures Cost(Bytes, m, ds, k, i) == 0
    decreases k, |ds[k]| - i
  {
    hide ProgramOk, Fetch16;
    if i + 1 < |ds[k]| {
      assert InsOk(m, ds[k], i, [], Starts(ds[..k]))
        by { assert DefinitionOk(m, ds[k], Starts(ds[..k])) by { OneDefinition(m, ds, k); } }
      var op := m[ds[k][i]] as nat;
      if op == JMP || op == JMP_FALSE { QuietCost(m, ds, k, Target(m, ds, k, i)); }
      if op == ENTER { QuietCost(m, ds, Callee(m, ds, k, i), 0); }
      QuietCost(m, ds, k, i + 1);
    }
  }

  lemma OneDefinition(m: Memory, ds: seq<seq<nat>>, k: nat)
    requires ProgramOk(m, ds) && k < |ds|
    ensures DefinitionOk(m, ds[k], Starts(ds[..k]))
  {
  }
}
