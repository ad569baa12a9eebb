// INTERPRET, which the first system compiles when it starts and runs ever after: its
// source as a structure, and that running its code does what the structure means.
module ByteInterpret {
  import opened Dataspace
  import opened ByteState
  import opened ByteWords
  import ByteProgram
  import opened ByteCompile
  import opened ByteDefine
  import opened ByteBootstrap
  import opened ByteSource
  import opened ByteMeaning
  import opened ByteRun
  import opened ByteTheorem

  // Words and numbers in a row.
  function Line(ts: seq<Token>): Body {
    if ts == [] then Nothing
    else Both(Line(ts[..|ts| - 1]), if ts[|ts| - 1].Word? then Use(ts[|ts| - 1].xt)
                                    else if ts[|ts| - 1].Number? then Value(ts[|ts| - 1].n) else Nothing)
  }

  function WordBody(at: seq<cell>, state: cell): Body
    requires |at| == 34
  {
    Both(Line([Word(state), Word(at[2])]),
         IfElse(Both(Line([Number(1), Word(at[8])]),
                     IfElse(Line([Word(at[30]), Word(at[7]), Word(at[26])]),
                            Line([Word(at[30]), Word(at[7]), Word(at[25])]))),
                Line([Word(at[7]), Word(at[30]), Word(at[7]), Word(at[26])])))
  }

  function NumberBody(at: seq<cell>, state: cell): Body
    requires |at| == 34
  {
    Both(Line([Word(at[7]), Word(at[30]), Word(at[28])]),
         IfElse(Both(Line([Word(state), Word(at[2])]), IfElse(Line([Word(at[33])]), Line([Word(at[11])]))),
                Line([Word(at[0])])))
  }

  function NameBody(at: seq<cell>, state: cell): Body
    requires |at| == 34
  {
    Both(Line([Word(at[30]), Word(at[29]), Word(at[27]), Word(at[6])]),
         IfElse(WordBody(at, state), NumberBody(at, state)))
  }

  // BEGIN (REMAIN) 0 = IF ask for a line ELSE PARSE-NAME DUP IF treat it ELSE drop it
  // THEN THEN AGAIN
  function InterpretBody(at: seq<cell>, state: cell): Body
    requires |at| == 34
  {
    Loop(Both(Line([Word(at[22]), Number(0), Word(at[8])]),
              IfElse(Line([Word(at[24]), Number(75), Number(79), Word(at[9]), Word(at[9]), Word(at[24]), Word(at[23])]),
                     Both(Line([Word(at[21]), Word(at[6])]),
                          IfElse(NameBody(at, state), Line([Word(at[7]), Word(at[7])]))))))
  }

  lemma {:induction false} LineTokens(ts: seq<Token>)
    requires Flat(ts)
    ensures Tokens(Line(ts)) == ts && Nest(Line(ts)) == 0
    decreases |ts|
  {
    if ts != [] {
      LineTokens(ts[..|ts| - 1]);
      assert ts == ts[..|ts| - 1] + [ts[|ts| - 1]];
    }
  }

  lemma ForkTokens(x: Body, p: Body, q: Body)
    ensures Tokens(Both(x, IfElse(p, q))) == Tokens(x) + Branch(Tokens(p), Tokens(q))
    ensures Nest(Both(x, IfElse(p, q))) <= Nest(x) + 1 + Nest(p) + Nest(q)
  {
  }

  // INTERPRET is compiled from the tokens of this structure.
  lemma InterpretTokens(at: seq<cell>, state: cell)
    requires |at| == 34
    ensures Tokens(InterpretBody(at, state)) == Interpret(at, state) && Nest(InterpretBody(at, state)) <= 8
  {
    hide Line;
    WordTokens(at, state);
    NumberTokens(at, state);
    hide OnWord, OnNumber, WordBody, NumberBody;
    var name := Line([Word(at[30]), Word(at[29]), Word(at[27]), Word(at[6])]);
    LineTokens([Word(at[30]), Word(at[29]), Word(at[27]), Word(at[6])]);
    ForkTokens(name, WordBody(at, state), NumberBody(at, state));
    var parse := Line([Word(at[21]), Word(at[6])]);
    LineTokens([Word(at[21]), Word(at[6])]);
    LineTokens([Word(at[7]), Word(at[7])]);
    ForkTokens(parse, NameBody(at, state), Line([Word(at[7]), Word(at[7])]));
    var refill := [Word(at[24]), Number(75), Number(79), Word(at[9]), Word(at[9]), Word(at[24]), Word(at[23])];
    LineTokens(refill);
    LineTokens([Word(at[22]), Number(0), Word(at[8])]);
    ForkTokens(Line([Word(at[22]), Number(0), Word(at[8])]), Line(refill),
               Both(parse, IfElse(NameBody(at, state), Line([Word(at[7]), Word(at[7])]))));
  }

  lemma WordTokens(at: seq<cell>, state: cell)
    requires |at| == 34
    ensures Tokens(WordBody(at, state)) == OnWord(at, state) && Nest(WordBody(at, state)) <= 2
  {
    hide Line;
    LineTokens([Word(state), Word(at[2])]);
    LineTokens([Number(1), Word(at[8])]);
    LineTokens([Word(at[30]), Word(at[7]), Word(at[26])]);
    LineTokens([Word(at[30]), Word(at[7]), Word(at[25])]);
    LineTokens([Word(at[7]), Word(at[30]), Word(at[7]), Word(at[26])]);
    var compiles := Both(Line([Number(1), Word(at[8])]),
                         IfElse(Line([Word(at[30]), Word(at[7]), Word(at[26])]),
                                Line([Word(at[30]), Word(at[7]), Word(at[25])])));
    ForkTokens(Line([Number(1), Word(at[8])]), Line([Word(at[30]), Word(at[7]), Word(at[26])]),
               Line([Word(at[30]), Word(at[7]), Word(at[25])]));
    ForkTokens(Line([Word(state), Word(at[2])]), compiles,
      Line([Word(at[7]), Word(at[30]), Word(at[7]), Word(at[26])]));
  }

  lemma NumberTokens(at: seq<cell>, state: cell)
    requires |at| == 34
    ensures Tokens(NumberBody(at, state)) == OnNumber(at, state) && Nest(NumberBody(at, state)) <= 2
  {
    hide Line;
    LineTokens([Word(at[7]), Word(at[30]), Word(at[28])]);
    LineTokens([Word(state), Word(at[2])]);
    LineTokens([Word(at[33])]);
    LineTokens([Word(at[11])]);
    LineTokens([Word(at[0])]);
    ForkTokens(Line([Word(state), Word(at[2])]), Line([Word(at[33])]), Line([Word(at[11])]));
    ForkTokens(Line([Word(at[7]), Word(at[30]), Word(at[28])]),
               Both(Line([Word(state), Word(at[2])]), IfElse(Line([Word(at[33])]), Line([Word(at[11])]))),
               Line([Word(at[0])]));
  }

  // The words of the structure are those of the dictionary.

  ghost predicate Placed(m: Memory, bound: int, ts: seq<Token>) {
    forall i :: 0 <= i < |ts| && ts[i].Word? ==> DICTIONARY_START <= ts[i].xt && ts[i].xt + H_SIZE <= bound
  }

  lemma {:induction false} LineKnown(m: Memory, bound: int, ts: seq<Token>)
    requires Placed(m, bound, ts)
    ensures Known(m, bound, Line(ts)) && Size(m, Line(ts)) <= 3 * |ts|
    decreases |ts|
  {
    if ts != [] { LineKnown(m, bound, ts[..|ts| - 1]); }
  }

  lemma ForkKnown(m: Memory, bound: int, x: Body, p: Body, q: Body)
    requires Known(m, bound, x) && Known(m, bound, p) && Known(m, bound, q)
    ensures Known(m, bound, Both(x, IfElse(p, q)))
    ensures Size(m, Both(x, IfElse(p, q))) == Size(m, x) + Size(m, p) + Size(m, q) + 7
  {
  }

  ghost predicate AllPlaced(at: seq<cell>, state: cell, bound: int) {
    && |at| == 34 && DICTIONARY_START <= state && state + H_SIZE <= bound
    && forall i :: 0 <= i < 34 ==> DICTIONARY_START <= at[i] && at[i] + H_SIZE <= bound
  }

  lemma InterpretKnown(m: Memory, bound: int, at: seq<cell>, state: cell)
    requires AllPlaced(at, state, bound)
    ensures Known(m, bound, InterpretBody(at, state)) && Size(m, InterpretBody(at, state)) <= 300
  {
    hide Line, Size, Known;
    WordKnown(m, bound, at, state);
    NumberKnown(m, bound, at, state);
    hide WordBody, NumberBody;
    var name := [Word(at[30]), Word(at[29]), Word(at[27]), Word(at[6])];
    LineKnown(m, bound, name);
    ForkKnown(m, bound, Line(name), WordBody(at, state), NumberBody(at, state));
    var parse, drop := [Word(at[21]), Word(at[6])], [Word(at[7]), Word(at[7])];
    LineKnown(m, bound, parse);
    LineKnown(m, bound, drop);
    ForkKnown(m, bound, Line(parse), NameBody(at, state), Line(drop));
    var more := [Word(at[22]), Number(0), Word(at[8])];
    var refill := [Word(at[24]), Number(75), Number(79), Word(at[9]), Word(at[9]), Word(at[24]), Word(at[23])];
    LineKnown(m, bound, more);
    LineKnown(m, bound, refill);
    var rest := Both(Line(parse), IfElse(NameBody(at, state), Line(drop)));
    ForkKnown(m, bound, Line(more), Line(refill), rest);
    LoopKnown(m, bound, Both(Line(more), IfElse(Line(refill), rest)));
  }

  lemma LoopKnown(m: Memory, bound: int, p: Body)
    requires Known(m, bound, p)
    ensures Known(m, bound, Loop(p)) && Size(m, Loop(p)) == 4 + Size(m, p)
  {
  }

  lemma WordKnown(m: Memory, bound: int, at: seq<cell>, state: cell)
    requires AllPlaced(at, state, bound)
    ensures Known(m, bound, WordBody(at, state)) && Size(m, WordBody(at, state)) <= 60
  {
    hide Line, Size, Known;
    var xs := [[Word(state), Word(at[2])], [Number(1), Word(at[8])], [Word(at[30]), Word(at[7]), Word(at[26])],
               [Word(at[30]), Word(at[7]), Word(at[25])], [Word(at[7]), Word(at[30]), Word(at[7]), Word(at[26])]];
    LineKnown(m, bound, xs[0]);
    LineKnown(m, bound, xs[1]);
    LineKnown(m, bound, xs[2]);
    LineKnown(m, bound, xs[3]);
    LineKnown(m, bound, xs[4]);
    ForkKnown(m, bound, Line(xs[1]), Line(xs[2]), Line(xs[3]));
    ForkKnown(m, bound, Line(xs[0]), Both(Line(xs[1]), IfElse(Line(xs[2]), Line(xs[3]))), Line(xs[4]));
  }

  lemma NumberKnown(m: Memory, bound: int, at: seq<cell>, state: cell)
    requires AllPlaced(at, state, bound)
    ensures Known(m, bound, NumberBody(at, state)) && Size(m, NumberBody(at, state)) <= 50
  {
    hide Line, Size, Known;
    var xs := [[Word(at[7]), Word(at[30]), Word(at[28])], [Word(state), Word(at[2])], [Word(at[33])], [Word(at[11])],
               [Word(at[0])]];
    LineKnown(m, bound, xs[0]);
    LineKnown(m, bound, xs[1]);
    LineKnown(m, bound, xs[2]);
    LineKnown(m, bound, xs[3]);
    LineKnown(m, bound, xs[4]);
    ForkKnown(m, bound, Line(xs[1]), Line(xs[2]), Line(xs[3]));
    ForkKnown(m, bound, Line(xs[0]), Both(Line(xs[1]), IfElse(Line(xs[2]), Line(xs[3]))), Line(xs[4]));
  }

  // The words that a turn of INTERPRET calls: itself, and the variable STATE at z.
  function InterpretWords(at: seq<cell>, state: cell, start: cell, z: cell): Words
    requires |at| == 34
  {
    map[z := Value(LOC_STATE)][start := InterpretBody(at, state)]
  }

  // The code that main compiles INTERPRET to is that of its structure.
  lemma InterpretCompiled(st: State) returns (t: State, s: State, at: seq<cell>, start: cell, z: cell)
    requires StacksOk(st) && st.control == CONTROL_BOTTOM && st.data == DATA_BOTTOM && st.dictHead == 0
    requires Where(st.mem) == DICTIONARY_START && ByteProgram.InputOk(st.mem)
    ensures |CORE| == |at| == 34 && ShortNames(CORE) && AddAll(st, CORE).Next?
    ensures AddVariable(AddAll(st, CORE).st, LOC_STATE, Bytes("STATE")) == Next(t)
    ensures forall i :: 0 <= i < |CORE| ==> Holds(t, at[i], CORE[i])
    ensures StacksOk(t) && Define(t.(mem := SetCode(t.mem, Bytes("INTERPRET "))), Interpret(at, t.dictHead)) == Next(s)
    ensures Ready(s, []) && start == CodeStart(s.mem, s.dictHead)
    ensures z == CodeStart(t.mem, t.dictHead) && !IsInstruction(t.mem, t.dictHead) && z < start
    ensures SameOn(t.mem, s.mem, DICTIONARY_START, Where(t.mem)) && Where(t.mem) <= SPACE_TOP
    ensures AllPlaced(at, t.dictHead, Where(t.mem))
    ensures Vocabulary(s.mem, InterpretWords(at, t.dictHead, start, z), Where(s.mem))
  {
    hide Fetch16, SameOn, CodeStart, OnChain, FlagsOf, AddWord, DictionaryOk, Bytes, AddAll, CORE, SetCode, Define;
    hide Holds, AddVariable, InterpretBody, Interpret, Vocabulary, Known, Size, IsInstruction;
    var zs;
    t, at, zs := Initialised(st);
    NoPrograms(t, [zs]);
    VariableBelow(t, zs);
    z := zs[0];
    var text := Bytes("INTERPRET ");
    SetCodeReady(t, [], text);
    var u := t.(mem := SetCode(t.mem, text));
    var b := Where(t.mem);
    WordsPlaced(t, at, b);
    InterpretTokens(at, t.dictHead);
    InterpretKnown(u.mem, b, at, t.dictHead);
    StateVocabulary(t.mem, z, b);
    CodeApart(t.mem, text, b);
    VocabularyFrame(t.mem, u.mem, map[z := Value(LOC_STATE)], b, b);
    s, start := DefineWord(u, map[z := Value(LOC_STATE)], InterpretBody(at, t.dictHead));
    SameBoth(t.mem, u.mem, s.mem, DICTIONARY_START, b);
  }

  lemma CodeApart(m: Memory, text: seq<byte>, b: cell)
    requires |text| < INPUT_BUFFER_SIZE
    ensures Where(SetCode(m, text)) == Where(m) && SameOn(m, SetCode(m, text), DICTIONARY_START, b)
  {
  }

  lemma VariableBelow(t: State, zs: seq<nat>)
    requires Ready(t, [zs]) && OnChain(t.mem, t.dictHead, t.dictHead)
    requires zs == [CodeStart(t.mem, t.dictHead), CodeStart(t.mem, t.dictHead) + 3]
    ensures DICTIONARY_START <= zs[0] && zs[1] + 1 <= Where(t.mem) <= SPACE_TOP
  {
    hide ByteProgram.ProgramOk, Fetch16;
    assert [zs][0] == zs;
  }

  // STATE is a word that pushes its address.
  lemma StateVocabulary(m: Memory, z: cell, b: cell)
    requires DICTIONARY_START <= z && z + 4 <= b <= SPACE_TOP
    requires m[z] == LDN && Fetch16(m, z + 1) == LOC_STATE && m[z + 3] == LEAVE
    ensures Vocabulary(m, map[z := Value(LOC_STATE)], b)
  {
    assert Code(m, Value(LOC_STATE), z) == Operand(LDN, LOC_STATE);
    assert m[z + 1] == 4 && m[z + 2] == 0;
  }

  lemma NoPrograms(t: State, ds: seq<seq<nat>>)
    requires Ready(t, ds)
    ensures Ready(t, []) && StacksOk(t) && DictionaryOk(t.mem, t.dictHead, Where(t.mem))
  {
  }

  lemma NoVocabulary(m: Memory, b: cell)
    requires b <= SPACE_TOP
    ensures Vocabulary(m, map[], b)
  {
  }

  lemma WordsPlaced(t: State, at: seq<cell>, b: cell)
    requires |CORE| == |at| == 34 && b == Where(t.mem) && DictionaryOk(t.mem, t.dictHead, b)
    requires OnChain(t.mem, t.dictHead, t.dictHead) && forall i :: 0 <= i < |CORE| ==> Holds(t, at[i], CORE[i])
    ensures AllPlaced(at, t.dictHead, b)
  {
    hide Fetch16, CodeStart, OnChain, FlagsOf, DictionaryOk, CORE;
    ChainEntry(t.mem, t.dictHead, b, t.dictHead);
    forall i | 0 <= i < 34 ensures DICTIONARY_START <= at[i] && at[i] + H_SIZE <= b {
      assert Holds(t, at[i], CORE[i]);
      ChainEntry(t.mem, t.dictHead, b, at[i]);
    }
  }

  // And run, in any state that holds the dictionary, it realises the meaning of that
  // structure, whose every turn begins where the one before began: it never comes to
  // its end.
  lemma InterpretRuns(m: Memory, b: cell, start: cell, z: cell, at: seq<cell>, state: cell, r: State, ans: Answers,
      fuel: nat)
    returns (n: nat)
    requires |at| == 34 && Vocabulary(m, InterpretWords(at, state, start, z), b)
    requires StacksOk(r) && Intact(m, b, r) && r.ip == start
    ensures var e := Mean(m, b, InterpretWords(at, state, start, z), ans, InterpretBody(at, state), r, fuel);
            Realises(r, ans, n, e, fuel, start, start + Size(m, InterpretBody(at, state))) && !e.Normal?
  {
    hide Fetch16, SameOn, Realises, Intact, Code, CodeAt, Size, Known, MeanLoop;
    var p, w := InterpretBody(at, state), InterpretWords(at, state, start, z);
    assert start in w && w[start] == p;
    assert Callable(m, w[start], start, b);
    hide InterpretBody;
    CodeSplit(m, start, Code(m, p, start), [LEAVE]);
    n := RunBody(r, m, b, w, ans, p, start, fuel);
    NeverEnds(m, b, w, ans, at, state, r, fuel);
  }

  lemma NeverEnds(m: Memory, b: cell, w: Words, ans: Answers, at: seq<cell>, state: cell, r: State, fuel: nat)
    requires |at| == 34 && StacksOk(r) && Intact(m, b, r)
    ensures !Mean(m, b, w, ans, InterpretBody(at, state), r, fuel).Normal?
  {
  }
}
