// Compiling and running of the first system put together: a word defined from `:`
// to `;`, performed later, does what its source means, and the run of its code and
// the meaning determine each other.
module ByteTheorem {
  import opened Dataspace
  import opened ByteState
  import opened ByteWords
  import opened ByteProgram
  import opened ByteCompile
  import opened ByteDefine
  import opened ByteSource
  import opened ByteStructure
  import opened ByteMeaning
  import opened ByteRun

  // What a caller can see before `:`: room for the header with the longest name, for
  // the code of p and for its nesting.
  predicate CanDefine(st: State, p: Body) {
    && st.data + 4 < DATA_TOP && Where(st.mem) + HEADER_MOST + Size(st.mem, p) + 4 <= SPACE_TOP
    && CONTROL_BOTTOM + 2 * Nest(p) + 2 <= CONTROL_TOP
  }

  // The definition before its `;`.
  lemma Defining(st: State, p: Body) returns (s1: State, s2: State, start: nat)
    requires Ready(st, []) && CanDefine(st, p) && Known(st.mem, Where(st.mem), p)
    ensures Colon(st) == Next(s1) && CompileTokens(s1, Tokens(p)) == Next(s2)
    ensures Shell(s2, [], start) && Room(s2) && s2.dictNew == Where(st.mem) && s2.dictHead == st.dictHead
    ensures s2.control == CONTROL_BOTTOM && SameOn(st.mem, s2.mem, DICTIONARY_START, Where(st.mem))
    ensures start + Size(st.mem, p) == Where(s2.mem) && CodeAt(s2.mem, start, Code(st.mem, p, start))
  {
    hide Fetch16, SameOn, Colon, CompileTokens, Size, Code, CodeAt, Changes, CodeStart, FlagsOf, DictionaryOk;
    hide Instructions;
    hide Cells;
    var e := Where(st.mem);
    ColonGoes(st, []);
    var zs := ColonOpens(st, []);
    s1 := Colon(st).st;
    start := zs[0];
    BuildingShell(s1, [], zs, []);
    ShellStacks(s1, [], start);
    SameCode(st.mem, s1.mem, e, p, start);
    StartAfter(s1.mem, e);
    s2 := CompileBody(s1, p, e);
    var size := Size(st.mem, p);
    ChangesBelow(s1.mem, s2.mem, start, size, s1.data, s1.control, LOC_INPUT_BUFFER, start);
    SamePart(s1.mem, s2.mem, LOC_INPUT_BUFFER, start, DICTIONARY_START, e);
    SameBoth(st.mem, s1.mem, s2.mem, DICTIONARY_START, e);
    StillShell(s1, s2, start);
  }

  lemma StillShell(s1: State, s2: State, start: nat)
    requires Shell(s1, [], start) && StacksOk(s2) && s2 == s1.(mem := s2.mem) && s1.control == CONTROL_BOTTOM
    requires SameOn(s1.mem, s2.mem, LOC_INPUT_BUFFER, start) && start <= Where(s2.mem) <= SPACE_TOP
    ensures Shell(s2, [], start)
  {
    hide Fetch16, SameOn, CodeStart, FlagsOf;
    var e := s1.dictNew;
    StartAfter(s1.mem, e);
    SamePart(s1.mem, s2.mem, LOC_INPUT_BUFFER, start, DICTIONARY_START, start);
    SamePart(s1.mem, s2.mem, LOC_INPUT_BUFFER, start, DICTIONARY_START, e);
    FetchSame(s1.mem, s2.mem, LOC_INPUT_BUFFER, start, LOC_INPUT_BUFFER_COUNT);
    HeaderSame(s1.mem, s2.mem, e, start);
    DictionaryFrame(s1.mem, s2.mem, s1.dictHead, e);
  }

  // `: name p ;` makes a word that means p, under the entry made at HERE; every older
  // word keeps its meaning.
  lemma DefineWord(st: State, w: Words, p: Body) returns (s: State, start: cell)
    requires Ready(st, []) && CanDefine(st, p) && Known(st.mem, Where(st.mem), p)
    requires Vocabulary(st.mem, w, Where(st.mem))
    ensures Define(st, Tokens(p)) == Next(s) && Ready(s, []) && Vocabulary(s.mem, w[start := p], Where(s.mem))
    ensures s.dictHead == Where(st.mem) && start == CodeStart(s.mem, s.dictHead) && Where(st.mem) < start
    ensures !IsInstruction(s.mem, s.dictHead) && Fetch16(s.mem, s.dictHead) == st.dictHead
    ensures SameOn(st.mem, s.mem, DICTIONARY_START, Where(st.mem))
  {
    hide Fetch16, SameOn, Colon, CompileTokens, Semicolon, Size, Code, CodeAt, CodeStart, FlagsOf, DictionaryOk;
    hide Callable, Known, Shell;
    var e := Where(st.mem);
    var s1, s2, a := Defining(st, p);
    ShellStacks(s2, [], a);
    SemicolonMemory(s2, [], a);
    AnyLinks(s2, [], a);
    s := Semicolon(s2).st;
    start := a;
    SameBoth(st.mem, s2.mem, s.mem, DICTIONARY_START, e);
    StartAfter(s.mem, e);
    VocabularyFrame(st.mem, s.mem, w, e, Where(s.mem));
    NewCallable(st.mem, s2.mem, s.mem, p, start, e, Where(s.mem));
    var w' := w[start := p];
    forall x | x in w' ensures Callable(s.mem, w'[x], x, Where(s.mem)) {
    }
  }

  lemma NewCallable(m: Memory, m2: Memory, n: Memory, p: Body, a: cell, e: cell, b: cell)
    requires Known(m, e, p) && SameOn(m, n, DICTIONARY_START, e) && DICTIONARY_START <= e < a
    requires CodeAt(m2, a, Code(m, p, a)) && SameOn(m2, n, a, a + Size(m, p)) && a + Size(m, p) + 1 <= b <= SPACE_TOP
    requires n[a + Size(m, p)] == LEAVE
    ensures Callable(n, p, a, b)
  {
    hide SameOn, Size, Code, Known;
    SameCode(m, n, e, p, a);
    KnownMore(n, e, b, p);
    CodeFrame(m2, n, a, Code(m, p, a));
    CodeSplit(n, a, Code(m, p, a), [LEAVE]);
  }

  // Define a word in st, reaching s; later, in any state r that still holds the
  // dictionary of s and has a call of the new word as its next instruction, the
  // machine realises the meaning of the source, with the next instruction's address
  // on the return stack.
  lemma DefinedWordMeans(st: State, w: Words, p: Body, r: State, ans: Answers, fuel: nat)
    returns (s: State, start: cell, n: nat)
    requires Ready(st, []) && CanDefine(st, p) && Known(st.mem, Where(st.mem), p)
    requires Vocabulary(st.mem, w, Where(st.mem))
    ensures Define(st, Tokens(p)) == Next(s) && start == CodeStart(s.mem, s.dictHead) && Where(s.mem) <= SPACE_TOP
    ensures Calling(s, r, start) ==>
              var m, b, w' := s.mem, Where(s.mem), w[start := p];
              match PushReturn(r, r.ip + 3)
              case Stop(why) => Realises(r, ans, n, Stopped(why), fuel, r.ip, r.ip + 3)
              case Next(t) =>
                && Intact(m, b, t)
                && Realises(r, ans, n, MeanCall(m, b, w', ans, p, r, r.ip + 3, t.(ip := start), fuel), fuel, r.ip,
                   r.ip + 3)
  {
    hide Fetch16, Store16, SameOn, Define, Ready, CodeStart, Size, Realises, Vocabulary, Known, MeanCall;
    s, start := DefineWord(st, w, p);
    ReadyWhere(s);
    n := 0;
    if Calling(s, r, start) {
      var w' := w[start := p];
      n := RunCode(r, s.mem, Where(s.mem), w', ans, ENTER, 3, fuel);
      Entered(s.mem, Where(s.mem), r, start, ans);
      WrapSum(r.ip + 3, 0, 0);
      assert w'[start] == p;
    }
  }

  // The dictionary of s is there and the next instruction, below the stacks, calls
  // the code at start.
  ghost predicate Calling(s: State, r: State, start: cell) {
    && Where(s.mem) <= SPACE_TOP && StacksOk(r) && Intact(s.mem, Where(s.mem), r) && r.ip + 3 <= SPACE_TOP
    && Fetch8(r.mem, r.ip) == ENTER && Fetch16(r.mem, r.ip + 1) == start
  }

  lemma ReadyWhere(s: State)
    requires Ready(s, [])
    ensures Where(s.mem) <= SPACE_TOP
  {
  }

  lemma Entered(m: Memory, b: cell, r: State, start: cell, ans: Answers)
    requires StacksOk(r) && Intact(m, b, r) && r.ip + 3 <= SPACE_TOP && Fetch16(r.mem, r.ip + 1) == start
    ensures match PushReturn(r, r.ip + 3)
            case Stop(why) => Perform(r, ENTER, ans) == Stop(why)
            case Next(t) => Intact(m, b, t) && Perform(r, ENTER, ans) == Next(t.(ip := start))
  {
    hide Fetch16, Store16, SameOn, Perform;
    PerformsEnter(r, ans);
    FetchElsewhere(r.mem, r.ret, r.ip + 3, r.ip + 1);
    StoreOutside(r.mem, r.ret, r.ip + 3, DICTIONARY_START, b);
    SameBoth(m, r.mem, Store16(r.mem, r.ret, r.ip + 3), DICTIONARY_START, b);
  }

  // The run comes, for the first time, to the end of the code at its own
  // return-stack level, in the state t.
  ghost predicate Arrived(st: State, ans: Answers, n: nat, t: State, a: int, z: int)
    requires StacksOk(st)
  {
    Stays(st, ans, n, st.ret, a, z) && Run(st, ans, n) == Next(t) && t.ret == st.ret && t.ip == z
  }

  // Where structure accounts for everything a body does, the machine gets to the end
  // of its code in a given state exactly when the source means that state.
  lemma Adequacy(st: State, m: Memory, b: cell, w: Words, ans: Answers, p: Body, a: cell, z: nat, t: State)
    requires Vocabulary(m, w, b) && StacksOk(st) && Intact(m, b, st)
    requires st.ip == a && DICTIONARY_START <= a && z == a + Size(m, p) <= b && CodeAt(m, a, Code(m, p, a))
    requires forall fuel: nat :: !Mean(m, b, w, ans, p, st, fuel).Astray?
    ensures (exists fuel: nat :: Mean(m, b, w, ans, p, st, fuel) == Normal(t))
            <==> (exists n: nat :: Arrived(st, ans, n, t, a, z))
  {
    hide Fetch16, SameOn, CodeAt, Code, Mean, Vocabulary, Run, Stays, Size, Arrived;
    if fuel: nat :| Mean(m, b, w, ans, p, st, fuel) == Normal(t) {
      var n := Arrives(st, m, b, w, ans, p, a, z, t, fuel);
    }
    if n: nat :| Arrived(st, ans, n, t, a, z) {
      Explains(st, m, b, w, ans, p, a, z, t, n);
    }
  }

  lemma Arrives(st: State, m: Memory, b: cell, w: Words, ans: Answers, p: Body, a: cell, z: nat, t: State, fuel: nat)
    returns (n: nat)
    requires Vocabulary(m, w, b) && StacksOk(st) && Intact(m, b, st)
    requires st.ip == a && DICTIONARY_START <= a && z == a + Size(m, p) <= b && CodeAt(m, a, Code(m, p, a))
    requires Mean(m, b, w, ans, p, st, fuel) == Normal(t)
    ensures Arrived(st, ans, n, t, a, z)
  {
    hide Fetch16, SameOn, CodeAt, Code, Mean, Vocabulary, Run, Stays, Size, Intact;
    WrapSum(z, 0, 0);
    n := RunBody(st, m, b, w, ans, p, a, fuel);
  }

  lemma Explains(st: State, m: Memory, b: cell, w: Words, ans: Answers, p: Body, a: cell, z: nat, t: State, n: nat)
    requires Vocabulary(m, w, b) && StacksOk(st) && Intact(m, b, st)
    requires st.ip == a && DICTIONARY_START <= a && z == a + Size(m, p) <= b && CodeAt(m, a, Code(m, p, a))
    requires !Mean(m, b, w, ans, p, st, n + 1).Astray? && Arrived(st, ans, n, t, a, z)
    ensures Mean(m, b, w, ans, p, st, n + 1) == Normal(t)
  {
    hide Fetch16, SameOn, CodeAt, Code, Mean, Vocabulary, Run, Stays, Size, Intact, Realises, Arrived;
    WrapSum(z, 0, 0);
    var n' := RunBody(st, m, b, w, ans, p, a, n + 1);
    OnlyNormal(st, ans, n, n', m, b, Mean(m, b, w, ans, p, st, n + 1), t, a, z);
  }

  // A run that has arrived can realise nothing but that.
  lemma OnlyNormal(st: State, ans: Answers, n: nat, n': nat, m: Memory, b: cell, r: Result, t: State, a: int, z: cell)
    requires StacksOk(st) && a <= z && Arrived(st, ans, n, t, a, z)
    requires !r.Astray? && Realises(st, ans, n', r, n + 1, a, z) && Proper(m, b, st, r, z)
    ensures r == Normal(t)
  {
    hide Run, SameOn;
    assert !Inside(t, st.ret, a, z);
    assert n' <= n;
    if r.Normal? || r.Left? { Leaves(st, ans, n', m, b, r, n + 1, a, z); }
  }

  // A finished run is outside.
  lemma Leaves(st: State, ans: Answers, n: nat, m: Memory, b: cell, r: Result, fuel: nat, a: int, z: cell)
    requires StacksOk(st) && Realises(st, ans, n, r, fuel, a, z) && Proper(m, b, st, r, z) && (r.Normal? || r.Left?)
    ensures !Inside(Run(st, ans, n).st, st.ret, a, z)
  {
    hide Run, SameOn, Stays;
  }

  // A body whose meaning needs ever more fuel keeps the machine inside its code.
  lemma Divergence(st: State, m: Memory, b: cell, w: Words, ans: Answers, p: Body, a: cell, z: nat, n: nat)
    requires Vocabulary(m, w, b) && StacksOk(st) && Intact(m, b, st)
    requires st.ip == a && DICTIONARY_START <= a && z == a + Size(m, p) <= b && CodeAt(m, a, Code(m, p, a))
    requires forall fuel: nat :: Mean(m, b, w, ans, p, st, fuel) == OutOfFuel
    ensures Run(st, ans, n).Next? && Inside(Run(st, ans, n).st, st.ret, a, z)
  {
    hide Fetch16, SameOn, CodeAt, Code, Mean, Vocabulary, Run, Size, Intact;
    assert Mean(m, b, w, ans, p, st, n) == OutOfFuel;
    var k := RunBody(st, m, b, w, ans, p, a, n);
  }
}
