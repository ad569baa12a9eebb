// What a name means: FIND's answer as a function of the name, before and after
// a definition, and after one that was given up.
module ForthLookup {
  import opened Dataspace
  import opened Letters
  import opened ForthState
  import opened ForthWords
  import opened ForthSource
  import opened ForthSemantics
  import opened ForthCompile
  import opened ForthRun
  import opened ForthDefine
  import opened ForthDictionary
  import opened ForthRollback
  import opened ForthDoes

  // The newest entry on the chain with these letters.
  ghost function WordNamed(m: Memory, h: cell, bound: int, name: seq<byte>): Lookup
    requires Chain(m, h, bound)
    decreases h
  {
    if SameLetters(name, Name(m, h)) then Found(h)
    else if Previous(m, h) == 0 then Absent
    else WordNamed(m, Previous(m, h), h, name)
  }

  // FIND depends on nothing but the name it is given and the chain.
  lemma {:induction false} FindIsWordNamed(m: Memory, h: cell, bound: int, word: cell)
    requires Chain(m, h, bound) && Lookable(m, word)
    ensures FindName(m, h, word) == WordNamed(m, h, bound, Wanted(m, word))
    decreases h
  {
    hide Previous, NameCount, NameMatches, SameLetters;
    MatchesByName(m, word, h);
    if Previous(m, h) != 0 {
      FindIsWordNamed(m, Previous(m, h), h, word);
    }
  }

  // FIND's answer is the same for every way to write a name in capital and small
  // letters.
  lemma AnyCase(m: Memory, n: Memory, h: cell, bound: int, word: cell)
    requires Chain(m, h, bound) && SameOn(m, n, SYSTEM_END, bound) && Lookable(m, word) && Lookable(n, word)
    requires SameLetters(Wanted(m, word), Wanted(n, word))
    ensures FindName(m, h, word) == FindName(n, h, word)
  {
    WordNamedFrame(m, n, h, bound, Wanted(m, word));
    FindIsWordNamed(m, h, bound, word);
    FindIsWordNamed(n, h, bound, word);
    RecasedNamed(n, h, bound, Wanted(m, word), Wanted(n, word));
  }

  lemma {:induction false} RecasedNamed(m: Memory, h: cell, bound: int, x: seq<byte>, y: seq<byte>)
    requires Chain(m, h, bound) && SameLetters(x, y)
    ensures WordNamed(m, h, bound, x) == WordNamed(m, h, bound, y)
    decreases h
  {
    hide SameLetters, Previous, NameCount;
    Recased(x, y, Name(m, h));
    if Previous(m, h) != 0 { RecasedNamed(m, Previous(m, h), h, x, y); }
  }

  lemma NameKept(m: Memory, n: Memory, e: cell, bound: int)
    requires SYSTEM_END <= e && NameCount(m, e) < 0x80 && e + DE_NAME + 1 + NameCount(m, e) <= bound <= SPACE_TOP
    requires SameOn(m, n, SYSTEM_END, bound)
    ensures NameCount(n, e) == NameCount(m, e) && Name(n, e) == Name(m, e)
  {
  }

  lemma {:induction false} WordNamedFrame(m: Memory, n: Memory, h: cell, bound: int, name: seq<byte>)
    requires Chain(m, h, bound) && SameOn(m, n, SYSTEM_END, bound)
    ensures Chain(n, h, bound) && WordNamed(n, h, bound, name) == WordNamed(m, h, bound, name)
    decreases h
  {
    hide Previous, NameCount, SameLetters;
    ChainFrame(m, n, h, bound);
    HeaderKept(m, n, SYSTEM_END, bound, h);
    NameKept(m, n, h, bound);
    if Previous(m, h) != 0 {
      WordNamedFrame(m, n, Previous(m, h), h, name);
    }
  }

  // A finished definition changes the meaning of its own name and of no other.
  lemma DefinitionMeaning(st: State, w: Words, c: Core, k: Keywords, semi: cell, p: Body, name: seq<byte>)
    returns (s: State)
    requires Ready(st, w, c, k, semi) && CanName(st) && Nameable(st.mem, Here(st.mem), p)
    requires NewField(st) + Size(p) + 2 <= SPACE_TOP
    requires st.control.where + 2 * Nesting(p) + 2 <= CONTROL_TOP
    ensures Define(st, k, semi, p) == Next(s, s.ip) && Chain(s.mem, s.dictHead, Here(s.mem))
    ensures WordNamed(s.mem, s.dictHead, Here(s.mem), name) ==
            if SameLetters(name, NewName(st)) then Found(Here(st.mem))
            else WordNamed(st.mem, st.dictHead, Here(st.mem), name)
  {
    hide Fetch16, SameOn, Previous, NameCount, CodeField, SameLetters, Define, Named, Nameable, Size, Nesting;
    hide KeywordOk, Below, WordBuffer;
    s := DefineWord(st, w, c, k, semi, p);
    WordNamedFrame(st.mem, s.mem, st.dictHead, Here(st.mem), name);
    assert Name(s.mem, s.dictHead) == NewName(st);
  }

  // So does a word made by a defining word: FIND answers it to the name that was
  // read, and to every other name what it answered before.
  lemma MadeMeaning(r: State, w: Words, c: Core, k: Keywords, d: Definers, e: cell, b: cell, body: Body,
      name: seq<byte>)
    returns (r1: State, r5: State)
    requires Ready(r, w, c, k, d.semi) && DefinersOk(r.mem, r.dictHead, d, Here(r.mem))
    requires Definer(r.mem, c, d, e, b, body, Here(r.mem)) && CanMake(r, e)
    ensures r1 == PushReturn(r, Wrap(r.ip + 2)).(ip := b) && StacksOk(r1) && CanName(r1)
    ensures Run(r, 5) == Next(r5, r5.ip) && Chain(r5.mem, r5.dictHead, Here(r5.mem))
    ensures WordNamed(r5.mem, r5.dictHead, Here(r5.mem), name) ==
            if SameLetters(name, NewName(r1)) then Found(Here(r.mem))
            else WordNamed(r.mem, r.dictHead, Here(r.mem), name)
  {
    hide Fetch16, SameOn, Previous, NameCount, CodeField, SameLetters, Named, Size, KeywordOk, Below, WordBuffer, Run;
    hide Definer, CanMake, DefinersOk, ReadToken, NewField;
    r1, r5 := MakeWord(r, w, c, k, d, e, b, body);
    WordNamedFrame(r.mem, r5.mem, r.dictHead, Here(r.mem), name);
    assert Name(r5.mem, r5.dictHead) == NewName(r1);
  }

  // A definition given up changes the meaning of no name: this is Rollback read
  // through FIND.
  lemma RollbackMeaning(st: State, ts: seq<Token>, name: seq<byte>) returns (s1: State)
    requires StacksOk(st) && CanName(st) && Empty(st.control)
    requires SYSTEM_END <= Here(st.mem) && Chain(st.mem, st.dictHead, Here(st.mem)) && Lookups(st.mem, st.dictHead)
    ensures Colon(st).Next? && s1 == Colon(st).st && StacksOk(s1)
    ensures (forall i :: 0 <= i < |ts| ==> CompileTime(s1.mem, ts[i], Here(st.mem))) && CompileTokens(s1, ts).Next? ==>
      var s := CompileTokens(s1, ts).st;
      var f := if Fetch16(s.mem, LOC_STATE) == COMPILING then AbortState(s) else s;
      && Chain(f.mem, f.dictHead, Here(st.mem))
      && Entries(f.mem, f.dictHead, Here(st.mem)) == Entries(st.mem, st.dictHead, Here(st.mem))
      && WordNamed(f.mem, f.dictHead, Here(st.mem), name) == WordNamed(st.mem, st.dictHead, Here(st.mem), name)
  {
    hide Fetch16, AbortState, SameOn, CompileTokens, CompileTime, Chain, Lookups, Colon, WordNamed, Entries, Named;
    hide CanName;
    s1 := Rollback(st, ts);
    if (forall i :: 0 <= i < |ts| ==> CompileTime(s1.mem, ts[i], Here(st.mem))) && CompileTokens(s1, ts).Next? {
      var s := CompileTokens(s1, ts).st;
      var f := if Fetch16(s.mem, LOC_STATE) == COMPILING then AbortState(s) else s;
      WordNamedFrame(st.mem, f.mem, st.dictHead, Here(st.mem), name);
      EntriesFrame(st.mem, f.mem, st.dictHead, Here(st.mem));
    }
  }

  // IMMEDIATE marks the newest entry, keeps its other flags and everything else,
  // and has the compiler perform the word when it meets it.
  lemma ImmediateMarks(st: State)
    requires StacksOk(st) && st.dictHead + DE_SIZE_MIN <= SPACE_TOP
    ensures Immediate(st).Next? && Immediate(st).ip == Wrap(st.ip + 2)
    ensures var s, a := Immediate(st).st, st.dictHead + DE_FLAGS;
            && s == st.(mem := s.mem) && (forall x :: 0 <= x < SIZE && x != a ==> s.mem[x] == st.mem[x])
            && IsImmediate(s.mem, s.dictHead)
            && s.mem[a] % 2 == st.mem[a] % 2 && s.mem[a] / 4 == st.mem[a] / 4
            && (!Full(s.data) ==>
                  CompileToken(s, Entry(s.dictHead)) == Execute(PushData(s, s.dictHead)))
  {
    hide Execute;
  }
}
