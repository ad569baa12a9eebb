// Compiling and running put together: a word defined by the outer interpreter,
// performed by the inner interpreter, does what its source means, and the
// machine's run and the meaning determine each other.
module ForthTheorem {
  import opened Dataspace
  import opened ForthState
  import opened ForthWords
  import opened ForthSource
  import opened ForthSemantics
  import opened ForthCompile
  import opened ForthRun
  import opened ForthEffect
  import opened ForthMeaning
  import opened ForthDefine

  lemma {:induction false} FoundInChain(m: Memory, h: cell, bound: int, op: nat, e: cell)
    requires Chain(m, h, bound) && FindOpcode(m, h, op) == Found(e)
    ensures SYSTEM_END <= e && e + DE_SIZE_MIN <= bound && CodeField(m, e) == op
    decreases h
  {
    hide Fetch16, CodeField;
    if CodeField(m, h) != op {
      FoundInChain(m, Previous(m, h), h, op, e);
    }
  }

  lemma ReadyVocabulary(st: State, w: Words, c: Core, k: Keywords, semi: cell)
    requires Ready(st, w, c, k, semi)
    ensures Vocabulary(st.mem, w, c, Here(st.mem))
  {
    hide Fetch16, CodeField, Placed, Chain, KeywordOk, FindOpcode;
    var m, h, b := st.mem, st.dictHead, Here(st.mem);
    FoundInChain(m, h, b, OP_PUSH, c.push);
    FoundInChain(m, h, b, OP_JUMP, c.jump);
    FoundInChain(m, h, b, OP_JUMP_IF, c.jumpIf);
    FoundInChain(m, h, b, OP_EXIT, c.exit);
  }

  // Define a word in st, reaching s; later, in any state r that still holds the
  // dictionary of s and whose next cell names the new word, the machine realises
  // the meaning of the source body.
  lemma DefinedWordMeans(st: State, w: Words, c: Core, k: Keywords, semi: cell, p: Body, s: State, r: State, fuel: nat)
    returns (n: nat)
    requires Ready(st, w, c, k, semi) && CanName(st) && Nameable(st.mem, Here(st.mem), p)
    requires NewField(st) + Size(p) + 2 <= SPACE_TOP
    requires st.control.where + 2 * Nesting(p) + 2 <= CONTROL_TOP
    requires Define(st, k, semi, p) == Next(s, s.ip)
    requires Live(r) && Intact(s.mem, Here(s.mem), r) && AtWord(r, Here(st.mem))
    ensures var e, w' := Here(st.mem), w[Here(st.mem) := Threaded(p)];
            Here(s.mem) <= SPACE_TOP
              && Realises(r, n, MeanEnter(s.mem, Here(s.mem), w', e, r, fuel), fuel, r.ip, r.ip + 2)
  {
    hide Fetch16, SameOn, Nameable, Size, Nesting, CanName, NewField, Define, Realises, MeanEnter, Dictionary;
    hide KeywordOk;
    hide CodeField, Named, CodeAt, Step, Vocabulary, AtWord;
    var e := Here(st.mem);
    var w' := w[e := Threaded(p)];
    var s' := DefineWord(st, w, c, k, semi, p);
    ReadyVocabulary(s, w', c, k, semi);
    n := RunWord(r, s.mem, Here(s.mem), w', c, e, fuel);
  }

  // Where only values on the stack are at stake: the run of the code of p ends
  // with the stack p gives, or with one taken back to the caller, and with the
  // memory below the stacks as it was; or it aborts as p does.
  lemma EffectRuns(st: State, code: Memory, m: Memory, b: cell, w: Words, c: Core, p: Body, a: cell, fuel: nat)
    returns (n: nat)
    requires Vocabulary(code, w, c, b) && Live(st) && Running(st, m) && Over(code, m, b) && Clear(st, Size(p))
    requires st.ip == a && SYSTEM_END <= a && a + Size(p) <= b && CodeAt(code, a, Code(c, p, a))
    ensures var e := BodyEffect(m, w, p, DataOf(st), |ReturnOf(st)|, fuel);
            !e.Unknown? && !e.Exhausts? ==>
              && Stays(st, n, st.ret.where, a, a + Size(p)) && Run(st, n).Next?
              && var s := Run(st, n).st;
                 && (e.Gives? ==> Running(s, m) && SameFrame(st, s) && DataOf(s) == e.stack && s.ip == a + Size(p))
                 && (e.Returns? ==> && Running(s, m) && DataOf(s) == e.stack && ReturnOf(st) != []
                                    && ReturnOf(s) == Front(ReturnOf(st)) && s.ip == Last(ReturnOf(st)))
                 && (e.Aborts? ==> Scrubbed(st.dictHead, st.recover, s, m) && s.ip == st.recover)
  {
    hide Fetch16, SameOn, CodeAt, Code, Mean, Run, Below, HasOp, Stays, BodyEffect, Scrubbed, Cells, Clear, Size;
    BodyAgrees(st, code, m, b, w, p, fuel);
    WrapSum(a + Size(p), 0, 0);
    n := RunBody(st, code, b, w, c, p, a, fuel);
  }

  // The run comes, for the first time, to the end of the code at its own
  // return-stack level, in the state t.
  ghost predicate Arrived(st: State, n: nat, t: State, a: int, z: int)
    requires StacksOk(st)
  {
    && Stays(st, n, st.ret.where, a, z) && Run(st, n) == Next(t, t.ip)
    && t.ret.where == st.ret.where && t.ip == z && t.run
  }

  // Under a call, or with the recover address elsewhere, ABORT is no arrival.
  ghost predicate AbortLeaves(st: State, a: int, z: int) {
    !Empty(st.ret) || st.recover < a || z < st.recover
  }

  // Where structure accounts for everything a body does, the machine gets to the
  // end of its code in a given state exactly when the source means that state.
  // With an empty return stack ABORT must not lead back into the code or to its
  // end.
  lemma Adequacy(st: State, m: Memory, b: cell, w: Words, c: Core, p: Body, a: cell, z: nat, t: State)
    requires Vocabulary(m, w, c, b) && Live(st) && Intact(m, b, st)
    requires st.ip == a && SYSTEM_END <= a && z == a + Size(p) <= b && CodeAt(m, a, Code(c, p, a))
    requires AbortLeaves(st, a, z)
    requires forall fuel: nat :: !Mean(m, b, w, p, st, fuel).Astray?
    ensures (exists fuel: nat :: Mean(m, b, w, p, st, fuel) == Normal(t))
            <==> (exists n: nat :: Arrived(st, n, t, a, z))
  {
    hide Fetch16, SameOn, CodeAt, Code, Mean, Vocabulary, Arrived, AbortLeaves, Size;
    if fuel: nat :| Mean(m, b, w, p, st, fuel) == Normal(t) {
      var n := Arrives(st, m, b, w, c, p, a, z, t, fuel);
    }
    if n: nat :| Arrived(st, n, t, a, z) {
      Explains(st, m, b, w, c, p, a, z, t, n);
    }
  }

  lemma Arrives(st: State, m: Memory, b: cell, w: Words, c: Core, p: Body, a: cell, z: nat, t: State, fuel: nat)
    returns (n: nat)
    requires Vocabulary(m, w, c, b) && Live(st) && Intact(m, b, st)
    requires st.ip == a && SYSTEM_END <= a && z == a + Size(p) <= b && CodeAt(m, a, Code(c, p, a))
    requires Mean(m, b, w, p, st, fuel) == Normal(t)
    ensures Arrived(st, n, t, a, z)
  {
    hide Fetch16, SameOn, CodeAt, Code, Mean, Run, Below, HasOp, Stays, Size;
    WrapSum(a + Size(p), 0, 0);
    n := RunBody(st, m, b, w, c, p, a, fuel);
  }

  lemma Explains(st: State, m: Memory, b: cell, w: Words, c: Core, p: Body, a: cell, z: nat, t: State, n: nat)
    requires Vocabulary(m, w, c, b) && Live(st) && Intact(m, b, st)
    requires st.ip == a && SYSTEM_END <= a && z == a + Size(p) <= b && CodeAt(m, a, Code(c, p, a))
    requires AbortLeaves(st, a, z) && !Mean(m, b, w, p, st, n + 1).Astray? && Arrived(st, n, t, a, z)
    ensures Mean(m, b, w, p, st, n + 1) == Normal(t)
  {
    hide Fetch16, SameOn, CodeAt, Code, Mean, Run, Below, HasOp, Stays, Size, Arrived, Realises, AbortLeaves;
    WrapSum(a + Size(p), 0, 0);
    var n' := RunBody(st, m, b, w, c, p, a, n + 1);
    OnlyNormal(st, n, n', m, b, Mean(m, b, w, p, st, n + 1), t, a, z);
  }

  // A finished run is outside.
  lemma Leaves(st: State, n: nat, m: Memory, b: cell, r: Result, fuel: nat, a: int, z: cell)
    requires StacksOk(st) && AbortLeaves(st, a, z) && Realises(st, n, r, fuel, a, z) && Proper(m, b, st, r, z)
    requires r.Normal? || r.Left? || r.Recovered?
    ensures !Inside(Run(st, n).st, st.ret.where, a, z)
  {
    hide Run, SameOn, Stays;
  }

  // After BYE the run stays where it is.
  lemma EndedStays(st: State, n: nat, n': nat, t: State)
    requires StacksOk(st) && Run(st, n') == Next(t, t.ip) && StacksOk(t) && !t.run && n' <= n
    ensures Run(st, n) == Next(t, t.ip)
  {
    hide Run;
    RunSplit(st, n', n - n');
    Idle(t, n - n');
  }

  // A run that has arrived can realise nothing but that.
  lemma OnlyNormal(st: State, n: nat, n': nat, m: Memory, b: cell, r: Result, t: State, a: int, z: cell)
    requires StacksOk(st) && a <= z && AbortLeaves(st, a, z) && Arrived(st, n, t, a, z)
    requires !r.Astray? && Realises(st, n', r, n + 1, a, z) && Proper(m, b, st, r, z)
    ensures r == Normal(t)
  {
    hide Run, SameOn;
    assert !Inside(t, st.ret.where, a, z);
    assert n' <= n;
    if r.Ended? {
      EndedStays(st, n, n', r.st);
    } else if r.Normal? || r.Left? || r.Recovered? {
      Leaves(st, n', m, b, r, n + 1, a, z);
      assert n' == n;
    }
  }

  // A body whose meaning needs ever more fuel runs forever inside its code.
  lemma Divergence(st: State, m: Memory, b: cell, w: Words, c: Core, p: Body, a: cell, n: nat)
    requires Vocabulary(m, w, c, b) && Live(st) && Intact(m, b, st)
    requires st.ip == a && SYSTEM_END <= a && a + Size(p) <= b && CodeAt(m, a, Code(c, p, a))
    requires forall fuel: nat :: Mean(m, b, w, p, st, fuel).OutOfFuel?
    ensures Stays(st, n, st.ret.where, a, a + Size(p))
  {
    hide Fetch16, SameOn, CodeAt, Code, Mean, Run, Vocabulary, Inside;
    var n' := RunBody(st, m, b, w, c, p, a, n);
    assert Mean(m, b, w, p, st, n).OutOfFuel?;
  }
}
