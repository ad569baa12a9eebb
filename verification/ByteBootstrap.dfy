// The first system as `main` starts it: the words of the byte codes, the
// variable STATE, and INTERPRET, compiled by the same words as the user's
// definitions.  What is promised about those holds in this dictionary.
module ByteBootstrap {
  import opened Dataspace
  import opened ByteState
  import opened ByteWords
  import opened ByteProgram
  import opened ByteTermination
  import opened ByteCompile
  import opened ByteDefine

  // init_header takes names of up to 39 characters.
  const NAME_LIMIT := 40

  // add_word: a byte code gets a name.
  function AddWord(st: State, op: byte, name: seq<byte>, flags: cell): Outcome
    requires |name| < NAME_LIMIT
  {
    var here := Where(st.mem);
    if here < DICTIONARY_START || here + H_SIZE + 1 + |name| >= SPACE_TOP then Stop(DictionaryFull)
    else
      var m := NewHeader(st.mem, here, name);
      var m := Store16(m, here, st.dictHead);
      var m := Store16(m, here + H_FLAGS, flags);
      var m := Store8(m, here + H_SEMANTICS, op);
      Next(st.(mem := Store16(m, LOC_WHERE, here + H_SIZE + 1 + |name|), dictHead := here))
  }

  // add_variable: a colon word of two instructions.
  function AddVariable(st: State, location: cell, name: seq<byte>): Outcome
    requires |name| < NAME_LIMIT
  {
    var here := Where(st.mem);
    var code := here + H_SIZE + 1 + |name|;
    if here < DICTIONARY_START || code + 4 >= SPACE_TOP then Stop(DictionaryFull)
    else
      var m := Store16(NewHeader(st.mem, here, name), here, st.dictHead);
      var m := Store8(m, code, LDN);
      var m := Store16(m, code + 1, location);
      var m := Store8(m, code + 3, LEAVE);
      Next(st.(mem := Store16(m, LOC_WHERE, code + 4), dictHead := here))
  }

  // The reset dictionary is empty and sound.
  lemma ResetReady(st: State)
    requires StacksOk(st) && st.control == CONTROL_BOTTOM && st.dictHead == 0 && Where(st.mem) == DICTIONARY_START
    requires InputOk(st.mem)
    ensures Ready(st, [])
  {
  }

  lemma AddMemory(m: Memory, here: cell, head: cell, op: byte, name: seq<byte>, flags: cell)
    requires |name| < NAME_LIMIT && DICTIONARY_START <= here && here + H_SIZE + 2 + |name| <= SPACE_TOP
    ensures var m1 := NewHeader(m, here, name);
            var m2 := Store16(m1, here, head);
            var m3 := Store8(Store16(m2, here + H_FLAGS, flags), here + H_SEMANTICS, op);
            var n := Store16(m3, LOC_WHERE, here + H_SIZE + 1 + |name|);
            && Where(n) == here + H_SIZE + 1 + |name| && SameOn(m, n, LOC_INPUT_BUFFER, here)
            && Fetch16(n, here) == head && FlagsOf(n, here) == flags && n[here + H_SEMANTICS] == op
            && CodeStart(n, here) == here + H_SIZE + 1 + |name|
  {
    hide NewHeader;
    HeaderFields(m, here, name);
    var m1 := NewHeader(m, here, name);
    var m2 := Store16(m1, here, head);
    var m3 := Store8(Store16(m2, here + H_FLAGS, flags), here + H_SEMANTICS, op);
    FetchStored(m3, LOC_WHERE, here + H_SIZE + 1 + |name|);
    FetchStored(m1, here, head);
    FetchStored(m2, here + H_FLAGS, flags);
  }

  // A new head on the chain, with nothing below it changed.
  ghost predicate Headed(st: State, s: State) {
    && s == st.(mem := s.mem, dictHead := Where(st.mem)) && DICTIONARY_START <= Where(st.mem)
    && Fetch16(s.mem, s.dictHead) == st.dictHead && CodeStart(s.mem, s.dictHead) <= Where(s.mem) < SPACE_TOP
    && SameOn(st.mem, s.mem, LOC_INPUT_BUFFER, Where(st.mem))
  }

  lemma HeadedReady(st: State, s: State, ds: seq<seq<nat>>)
    requires Ready(st, ds) && Headed(st, s)
    ensures Ready(s, ds) && st.dictHead < s.dictHead
  {
    hide Fetch16, SameOn, ProgramOk, CodeStart, Starts;
    var here := Where(st.mem);
    StartAfter(s.mem, here);
    SamePart(st.mem, s.mem, LOC_INPUT_BUFFER, here, DICTIONARY_START, here);
    FetchSame(st.mem, s.mem, LOC_INPUT_BUFFER, here, LOC_INPUT_BUFFER_COUNT);
    ProgramFrame(st.mem, s.mem, ds, here);
    DictionaryFrame(st.mem, s.mem, st.dictHead, here);
    HeadBelow(st.mem, st.dictHead, here);
  }

  // Byte-code words do not disturb the dictionary.
  lemma AddWordReady(st: State, ds: seq<seq<nat>>, op: byte, name: seq<byte>, flags: cell)
    requires Ready(st, ds) && |name| < NAME_LIMIT
    ensures match AddWord(st, op, name, flags)
            case Stop(why) => why == DictionaryFull
            case Next(s) =>
              && Ready(s, ds) && Headed(st, s) && OnChain(s.mem, s.dictHead, s.dictHead)
              && FlagsOf(s.mem, s.dictHead) == flags && s.mem[s.dictHead + H_SEMANTICS] == op
              && Where(s.mem) == Where(st.mem) + H_SIZE + 1 + |name|
  {
    hide Fetch16, Store16, SameOn, ProgramOk, CodeStart, Starts, NewHeader, FlagsOf, DictionaryOk;
    var o := AddWord(st, op, name, flags);
    if o.Next? {
      AddMemory(st.mem, Where(st.mem), st.dictHead, op, name, flags);
      HeadedReady(st, o.st, ds);
    }
  }

  lemma VariableMemory(m: Memory, here: cell, head: cell, location: cell, name: seq<byte>)
    requires |name| < NAME_LIMIT && DICTIONARY_START <= here && here + H_SIZE + 1 + |name| + 4 < SPACE_TOP
    ensures var code: cell := here + H_SIZE + 1 + |name|;
            var m1 := Store16(NewHeader(m, here, name), here, head);
            var m2 := Store16(Store8(m1, code, LDN), code + 1, location);
            var n := Store16(Store8(m2, code + 3, LEAVE), LOC_WHERE, code + 4);
            && Where(n) == code + 4 && SameOn(m, n, LOC_INPUT_BUFFER, here)
            && Fetch16(n, here) == head && FlagsOf(n, here) == F_COLONDEF && CodeStart(n, here) == code
            && n[code] == LDN && Fetch16(n, code + 1) == location && n[code + 3] == LEAVE
  {
    hide NewHeader, Fetch16, Store16, SameOn, FlagsOf, CodeStart;
    HeaderFields(m, here, name);
    var code: cell := here + H_SIZE + 1 + |name|;
    var m0 := NewHeader(m, here, name);
    var m1 := Store16(m0, here, head);
    var m2 := Store8(m1, code, LDN);
    var m3 := Store16(m2, code + 1, location);
    var m4 := Store8(m3, code + 3, LEAVE);
    FetchStored(m0, here, head);
    FetchStored(m2, code + 1, location);
    FetchStored(m4, LOC_WHERE, code + 4);
    VariableFrame(m, m0, m1, m2, m3, m4, here, code, head, location);
  }

  lemma VariableFrame(m: Memory, m0: Memory, m1: Memory, m2: Memory, m3: Memory, m4: Memory, here: cell, code: cell,
      head: cell, location: cell)
    requires DICTIONARY_START <= here && here + H_SIZE < code && code + 4 < SPACE_TOP && SameOn(m, m0, 0, here)
    requires m1 == Store16(m0, here, head) && m2 == Store8(m1, code, LDN) && m3 == Store16(m2, code + 1, location)
    requires m4 == Store8(m3, code + 3, LEAVE)
    ensures var n := Store16(m4, LOC_WHERE, code + 4);
            && SameOn(m, n, LOC_INPUT_BUFFER, here) && n[code] == LDN && n[code + 3] == LEAVE
            && Fetch16(n, here) == Fetch16(m1, here) && Fetch16(n, code + 1) == Fetch16(m3, code + 1)
            && FlagsOf(n, here) == FlagsOf(m0, here) && CodeStart(n, here) == CodeStart(m0, here)
  {
    hide Fetch16;
    var n := Store16(m4, LOC_WHERE, code + 4);
    assert SameOn(m3, n, code + 1, code + 3) && SameOn(m1, n, here, code) && SameOn(m0, m1, here + 2, code);
    hide Store16, SameOn;
    FetchSame(m3, n, code + 1, code + 3, code + 1);
    FetchSame(m1, n, here, code, here);
    SamePart(m1, n, here, code, here + 2, code);
    SameBoth(m0, m1, n, here + 2, code);
    FetchSame(m0, n, here + 2, code, here + H_FLAGS);
    ByteSame(m0, n, here + 2, code, here + H_LENGTH);
  }

  // A variable is one more definition that ends: it pushes its address.
  lemma AddVariableReady(st: State, ds: seq<seq<nat>>, location: cell, name: seq<byte>) returns (zs: seq<nat>)
    requires Ready(st, ds) && NonEmpty(ds) && |name| < NAME_LIMIT
    ensures match AddVariable(st, location, name)
            case Stop(why) => why == DictionaryFull
            case Next(s) =>
              && Ready(s, ds + [zs]) && NonEmpty(ds + [zs]) && Headed(st, s) && OnChain(s.mem, s.dictHead, s.dictHead)
              && !IsInstruction(s.mem, s.dictHead)
                 && zs == [CodeStart(s.mem, s.dictHead), CodeStart(s.mem, s.dictHead) + 3]
              && s.mem[zs[0]] == LDN && Fetch16(s.mem, zs[0] + 1) == location && s.mem[zs[1]] == LEAVE
              && Where(s.mem) == Where(st.mem) + H_SIZE + 5 + |name|
  {
    hide Fetch16, Store16, SameOn, ProgramOk, CodeStart, Starts, NewHeader, FlagsOf, DictionaryOk;
    var here := Where(st.mem);
    zs := [here + H_SIZE + 1 + |name|, here + H_SIZE + 4 + |name|];
    var o := AddVariable(st, location, name);
    if o.Next? {
      VariableMemory(st.mem, here, st.dictHead, location, name);
      HeadedReady(st, o.st, ds);
      assert DefinitionOk(o.st.mem, zs, Starts(ds)) by { VariableSound(o.st.mem, zs, Starts(ds)); }
      ProgramMore(o.st.mem, ds, zs);
    }
  }

  lemma VariableSound(m: Memory, zs: seq<nat>, older: seq<nat>)
    requires |zs| == 2 && DICTIONARY_START <= zs[0] && zs[1] == zs[0] + 3 && zs[1] < SPACE_TOP
    requires m[zs[0]] == LDN && m[zs[1]] == LEAVE
    ensures DefinitionOk(m, zs, older)
  {
    hide Fetch16;
    assert InsOk(m, zs, 0, [], older);
  }

  // fs_init_dictionary.

  datatype CoreWord = CoreWord(name: string, op: byte, flags: cell)

  function Bytes(s: string): (r: seq<byte>)
    ensures |r| == |s|
  {
    seq(|s|, i requires 0 <= i < |s| => s[i] as int % 0x100)
  }

  const NOW: cell := F_INSTRUCTION + F_IMMEDIATE

  const CORE: seq<CoreWord> := [
    CoreWord("(HALT)", HALT, F_INSTRUCTION), CoreWord("(LDN)", LDN, F_INSTRUCTION), CoreWord("@", FETCH, F_INSTRUCTION),
    CoreWord("!", STORE, F_INSTRUCTION), CoreWord(".", DOT, F_INSTRUCTION), CoreWord("HERE", HERE, F_INSTRUCTION),
    CoreWord("DUP", DUP, F_INSTRUCTION), CoreWord("DROP", DROP, F_INSTRUCTION), CoreWord("=", EQUAL, F_INSTRUCTION),
    CoreWord("EMIT", EMIT, F_INSTRUCTION), CoreWord("BL", BL, F_INSTRUCTION), CoreWord("NOP", NOP, F_INSTRUCTION),
    CoreWord("JMP", JMP, F_INSTRUCTION), CoreWord("JMP_FALSE", JMP_FALSE, F_INSTRUCTION),
    CoreWord("BEGIN", BEGIN, NOW), CoreWord("AGAIN", AGAIN, NOW), CoreWord("IF", IF, NOW), CoreWord("ELSE", ELSE, NOW),
    CoreWord("THEN", THEN, NOW), CoreWord(":", COLON, F_INSTRUCTION), CoreWord(";", SEMICOLON, NOW),
    CoreWord("PARSE-NAME", PARSE_NAME, F_INSTRUCTION), CoreWord("(REMAIN)", PREMAIN, F_INSTRUCTION),
    CoreWord("(ACCEPT)", PACCEPT, F_INSTRUCTION), CoreWord("CR", CR, F_INSTRUCTION),
    CoreWord("COMPILE,", COMPILE, F_INSTRUCTION), CoreWord("EXECUTE", EXECUTE, F_INSTRUCTION),
    CoreWord("FIND2", FIND2, F_INSTRUCTION), CoreWord("(NUMBER)", PNUM, F_INSTRUCTION),
    CoreWord("OVER", OVER, F_INSTRUCTION), CoreWord("SWAP", SWAP, F_INSTRUCTION), CoreWord("+", ADD, F_INSTRUCTION),
    CoreWord("DECOMPILE", DECOMPILE, F_INSTRUCTION), CoreWord("LITERAL", LITERAL, F_INSTRUCTION)]

  predicate ShortName(w: CoreWord) {
    |w.name| <= 10 && (w.flags == F_INSTRUCTION || w.flags == NOW)
  }

  predicate ShortNames(ws: seq<CoreWord>) {
    forall i :: 0 <= i < |ws| ==> ShortName(ws[i])
  }

  function AddAll(st: State, ws: seq<CoreWord>): Outcome
    requires ShortNames(ws)
    decreases |ws|
  {
    if ws == [] then Next(st)
    else
      match AddAll(st, ws[..|ws| - 1])
      case Stop(why) => Stop(why)
      case Next(s) => AddWord(s, ws[|ws| - 1].op, Bytes(ws[|ws| - 1].name), ws[|ws| - 1].flags)
  }

  // The entry at xt on the chain is the word w.
  ghost predicate Holds(s: State, xt: cell, w: CoreWord) {
    OnChain(s.mem, s.dictHead, xt) && FlagsOf(s.mem, xt) == w.flags && Fetch8(s.mem, Wrap(xt + H_SEMANTICS)) == w.op
  }

  lemma HoldsFrame(st: State, s: State, bound: int, xt: cell, w: CoreWord)
    requires DictionaryOk(st.mem, st.dictHead, bound) && SameOn(st.mem, s.mem, DICTIONARY_START, bound)
             && Holds(st, xt, w)
    requires s.dictHead == st.dictHead || (Fetch16(s.mem, s.dictHead) == st.dictHead && st.dictHead < s.dictHead)
    ensures Holds(s, xt, w)
  {
    hide Fetch16, SameOn, DictionaryOk, FlagsOf, CodeStart;
    ChainEntry(st.mem, st.dictHead, bound, xt);
    ChainFrame(st.mem, s.mem, st.dictHead, bound, xt);
    HeaderSame(st.mem, s.mem, xt, bound);
  }

  const WORD_MOST := H_SIZE + 11

  lemma {:induction false} AddMany(st: State, ds: seq<seq<nat>>, ws: seq<CoreWord>) returns (s: State, at: seq<cell>)
    requires Ready(st, ds) && ShortNames(ws) && Where(st.mem) + WORD_MOST * |ws| < SPACE_TOP
    ensures AddAll(st, ws) == Next(s) && Ready(s, ds) && |at| == |ws|
    ensures forall i :: 0 <= i < |ws| ==> Holds(s, at[i], ws[i])
    ensures Where(s.mem) <= Where(st.mem) + WORD_MOST * |ws| && s == st.(mem := s.mem, dictHead := s.dictHead)
    decreases |ws|
  {
    hide Fetch16, SameOn, CodeStart, OnChain, FlagsOf, AddWord, ProgramOk, DictionaryOk, Bytes;
    s, at := st, [];
    if ws != [] {
      var n := |ws| - 1;
      var w := ws[n];
      var t, xs := AddMany(st, ds, ws[..n]);
      AddWordReady(t, ds, w.op, Bytes(w.name), w.flags);
      assert AddWord(t, w.op, Bytes(w.name), w.flags).Next? by { AddGoes(t, ds, w); }
      s := AddWord(t, w.op, Bytes(w.name), w.flags).st;
      at := xs + [s.dictHead];
      HeadedReady(t, s, ds);
      SamePart(t.mem, s.mem, LOC_INPUT_BUFFER, Where(t.mem), DICTIONARY_START, Where(t.mem));
      forall i | 0 <= i < |ws| ensures Holds(s, at[i], ws[i]) {
        if i < n {
          assert ws[..n][i] == ws[i];
          HoldsFrame(t, s, Where(t.mem), xs[i], ws[i]);
        } else {
          assert Wrap(s.dictHead + H_SEMANTICS) == s.dictHead + H_SEMANTICS by { StartAfter(s.mem, s.dictHead); }
        }
      }
    }
  }

  lemma AddGoes(t: State, ds: seq<seq<nat>>, w: CoreWord)
    requires Ready(t, ds) && ShortName(w) && Where(t.mem) + WORD_MOST < SPACE_TOP
    ensures AddWord(t, w.op, Bytes(w.name), w.flags).Next?
  {
    hide Fetch16, NewHeader, Store16, ProgramOk, DictionaryOk;
  }

  // INTERPRET, as compile_outer_interpreter finds its words.

  function Branch(yes: seq<Token>, no: seq<Token>): seq<Token> {
    [TokIf] + yes + [TokElse] + no + [TokThen]
  }

  // From one word given to the end of its treatment; `state` is the entry of
  // STATE, at[i] that of the ith word above.

  function OnWord(at: seq<cell>, state: cell): seq<Token>
    requires |at| == 34
  {
    [Word(state), Word(at[2])]
    + Branch([Number(1), Word(at[8])]
             + Branch([Word(at[30]), Word(at[7]), Word(at[26])], [Word(at[30]), Word(at[7]), Word(at[25])]),
             [Word(at[7]), Word(at[30]), Word(at[7]), Word(at[26])])
  }

  function OnNumber(at: seq<cell>, state: cell): seq<Token>
    requires |at| == 34
  {
    [Word(at[7]), Word(at[30]), Word(at[28])]
    + Branch([Word(state), Word(at[2])] + Branch([Word(at[33])], [Word(at[11])]), [Word(at[0])])
  }

  function OnName(at: seq<cell>, state: cell): seq<Token>
    requires |at| == 34
  {
    [Word(at[30]), Word(at[29]), Word(at[27]), Word(at[6])] + Branch(OnWord(at, state), OnNumber(at, state))
  }

  function Interpret(at: seq<cell>, state: cell): seq<Token>
    requires |at| == 34
  {
    [TokBegin]
    + ([Word(at[22]), Number(0), Word(at[8])]
       + Branch([Word(at[24]), Number(75), Number(79), Word(at[9]), Word(at[9]), Word(at[24]), Word(at[23])],
                [Word(at[21]), Word(at[6])] + Branch(OnName(at, state), [Word(at[7]), Word(at[7])])))
    + [TokAgain]
  }

  // Nesting in order, for a control stack that has h more cells free.
  ghost predicate Balanced(ts: seq<Token>, h: nat) {
    forall d: nat :: d + h <= CONTROL_DEPTH ==> NestingOf(ts, d) == Depth(d)
  }

  predicate Flat(ts: seq<Token>) {
    forall i :: 0 <= i < |ts| ==> ts[i].Word? || ts[i].Number?
  }

  lemma {:induction false} FlatNesting(ts: seq<Token>, d: nat)
    requires Flat(ts)
    ensures NestingOf(ts, d) == Depth(d)
    decreases |ts|
  {
    hide NestingOf;
    if ts == [] {
      NoTokens(d);
    } else {
      NestingStep(ts, d);
      OneNesting(ts[0], d);
      FlatNesting(ts[1..], d);
    }
  }

  lemma {:induction false} NestingJoin(xs: seq<Token>, ys: seq<Token>, d: nat)
    ensures NestingOf(xs + ys, d) == match NestingOf(xs, d) case TooDeep => TooDeep case Depth(e) => NestingOf(ys, e)
    decreases |xs|
  {
    hide NestingOf;
    if xs == [] {
      NoTokens(d);
      assert xs + ys == ys;
    } else {
      assert (xs + ys)[1..] == xs[1..] + ys;
      NestingStep(xs + ys, d);
      NestingStep(xs, d);
      match NestingOf([xs[0]], d)
      case TooDeep =>
      case Depth(e) => NestingJoin(xs[1..], ys, e);
    }
  }

  lemma FlatThen(xs: seq<Token>, ys: seq<Token>, h: nat)
    requires Flat(xs) && Balanced(ys, h)
    ensures Balanced(xs + ys, h)
  {
    hide NestingOf;
    forall d: nat | d + h <= CONTROL_DEPTH ensures NestingOf(xs + ys, d) == Depth(d) {
      NestingJoin(xs, ys, d);
      FlatNesting(xs, d);
    }
  }

  lemma FlatBalanced(xs: seq<Token>, h: nat)
    requires Flat(xs)
    ensures Balanced(xs, h)
  {
    hide NestingOf;
    forall d: nat ensures NestingOf(xs, d) == Depth(d) { FlatNesting(xs, d); }
  }

  lemma BranchBalanced(yes: seq<Token>, no: seq<Token>, h: nat)
    requires Balanced(yes, h) && Balanced(no, h)
    ensures Balanced(Branch(yes, no), h + 1)
  {
    hide NestingOf;
    forall d: nat | d + h + 1 <= CONTROL_DEPTH ensures NestingOf(Branch(yes, no), d) == Depth(d) {
      var a := [TokIf] + yes;
      OneNesting(TokIf, d);
      NestingJoin([TokIf], yes, d);
      OneNesting(TokElse, d + 1);
      NestingJoin(a, [TokElse], d);
      NestingJoin(a + [TokElse], no, d);
      OneNesting(TokThen, d + 1);
      NestingJoin(a + [TokElse] + no, [TokThen], d);
    }
  }

  lemma LoopBalanced(body: seq<Token>, h: nat)
    requires Balanced(body, h) && h + 1 <= CONTROL_DEPTH
    ensures NestingOf([TokBegin] + body + [TokAgain], 0) == Depth(0)
  {
    hide NestingOf;
    OneNesting(TokBegin, 0);
    NestingJoin([TokBegin], body, 0);
    OneNesting(TokAgain, 1);
    NestingJoin([TokBegin] + body, [TokAgain], 0);
  }

  lemma InterpretBalanced(at: seq<cell>, state: cell)
    requires |at| == 34
    ensures NestingOf(Interpret(at, state), 0) == Depth(0) && |Interpret(at, state)| < 90
  {
    hide NestingOf, Balanced;
    OnWordBalanced(at, state);
    OnNumberBalanced(at, state);
    var name := OnName(at, state);
    BranchBalanced(OnWord(at, state), OnNumber(at, state), 2);
    FlatThen([Word(at[30]), Word(at[29]), Word(at[27]), Word(at[6])], Branch(OnWord(at, state), OnNumber(at, state)),
      3);
    FlatBalanced([Word(at[7]), Word(at[7])], 3);
    var named := Branch(name, [Word(at[7]), Word(at[7])]);
    BranchBalanced(name, [Word(at[7]), Word(at[7])], 3);
    FlatThen([Word(at[21]), Word(at[6])], named, 4);
    var line := [Word(at[24]), Number(75), Number(79), Word(at[9]), Word(at[9]), Word(at[24]), Word(at[23])];
    FlatBalanced(line, 4);
    BranchBalanced(line, [Word(at[21]), Word(at[6])] + named, 4);
    var asked := [Word(at[22]), Number(0), Word(at[8])];
    FlatThen(asked, Branch(line, [Word(at[21]), Word(at[6])] + named), 5);
    LoopBalanced(asked + Branch(line, [Word(at[21]), Word(at[6])] + named), 5);
  }

  lemma OnWordBalanced(at: seq<cell>, state: cell)
    requires |at| == 34
    ensures Balanced(OnWord(at, state), 2) && |OnWord(at, state)| < 30
  {
    hide NestingOf, Balanced;
    var now, later := [Word(at[30]), Word(at[7]), Word(at[26])], [Word(at[30]), Word(at[7]), Word(at[25])];
    FlatBalanced(now, 0);
    FlatBalanced(later, 0);
    BranchBalanced(now, later, 0);
    FlatThen([Number(1), Word(at[8])], Branch(now, later), 1);
    var run := [Word(at[7]), Word(at[30]), Word(at[7]), Word(at[26])];
    FlatBalanced(run, 1);
    BranchBalanced([Number(1), Word(at[8])] + Branch(now, later), run, 1);
    FlatThen([Word(state), Word(at[2])], Branch([Number(1), Word(at[8])] + Branch(now, later), run), 2);
  }

  lemma OnNumberBalanced(at: seq<cell>, state: cell)
    requires |at| == 34
    ensures Balanced(OnNumber(at, state), 2) && |OnNumber(at, state)| < 20
  {
    hide NestingOf, Balanced;
    FlatBalanced([Word(at[33])], 0);
    FlatBalanced([Word(at[11])], 0);
    var keep := Branch([Word(at[33])], [Word(at[11])]);
    BranchBalanced([Word(at[33])], [Word(at[11])], 0);
    FlatThen([Word(state), Word(at[2])], keep, 1);
    FlatBalanced([Word(at[0])], 1);
    BranchBalanced([Word(state), Word(at[2])] + keep, [Word(at[0])], 1);
    FlatThen([Word(at[7]), Word(at[30]), Word(at[28])], Branch([Word(state), Word(at[2])] + keep, [Word(at[0])]), 2);
  }

  lemma CoreShort()
    ensures |CORE| == 34 && ShortNames(CORE)
  {
  }

  // set_code between definitions.
  lemma SetCodeReady(st: State, ds: seq<seq<nat>>, text: seq<byte>)
    requires Ready(st, ds) && |text| < INPUT_BUFFER_SIZE
    ensures var s := st.(mem := SetCode(st.mem, text));
            Ready(s, ds) && SameOn(st.mem, s.mem, DICTIONARY_START, SIZE) && Where(s.mem) == Where(st.mem)
  {
    hide Fetch16, SameOn, ProgramOk, SetCode, Starts;
    CodeSet(st.mem, text);
    var s := st.(mem := SetCode(st.mem, text));
    SamePart(st.mem, s.mem, DICTIONARY_START, SIZE, DICTIONARY_START, Where(st.mem));
    ProgramFrame(st.mem, s.mem, ds, Where(st.mem));
    DictionaryFrame(st.mem, s.mem, st.dictHead, Where(st.mem));
  }

  // The dictionary fs_init_dictionary makes.
  lemma Initialised(st: State) returns (s: State, at: seq<cell>, zs: seq<nat>)
    requires StacksOk(st) && st.control == CONTROL_BOTTOM && st.dictHead == 0
    requires Where(st.mem) == DICTIONARY_START && InputOk(st.mem)
    ensures |CORE| == |at| == 34 && ShortNames(CORE) && AddAll(st, CORE).Next?
    ensures AddVariable(AddAll(st, CORE).st, LOC_STATE, Bytes("STATE")) == Next(s)
    ensures Ready(s, [zs]) && zs == [CodeStart(s.mem, s.dictHead), CodeStart(s.mem, s.dictHead) + 3]
    ensures OnChain(s.mem, s.dictHead, s.dictHead) && !IsInstruction(s.mem, s.dictHead)
    ensures s.mem[zs[0]] == LDN && Fetch16(s.mem, zs[0] + 1) == LOC_STATE && s.mem[zs[1]] == LEAVE
    ensures forall i :: 0 <= i < |CORE| ==> Holds(s, at[i], CORE[i])
    ensures Where(s.mem) <= 0x500 && s == st.(mem := s.mem, dictHead := s.dictHead)
  {
    hide Fetch16, SameOn, CodeStart, OnChain, FlagsOf, AddWord, ProgramOk, DictionaryOk, Bytes, AddAll, CORE, Store16;
    hide NewHeader, Holds;
    CoreShort();
    ResetReady(st);
    var t: State;
    t, at := AddMany(st, [], CORE);
    zs := AddVariableReady(t, [], LOC_STATE, Bytes("STATE"));
    s := AddVariable(t, LOC_STATE, Bytes("STATE")).st;
    assert [] + [zs] == [zs];
    HeadedReady(t, s, []);
    SamePart(t.mem, s.mem, LOC_INPUT_BUFFER, Where(t.mem), DICTIONARY_START, Where(t.mem));
    forall i | 0 <= i < |CORE| ensures Holds(s, at[i], CORE[i]) {
      HoldsFrame(t, s, Where(t.mem), at[i], CORE[i]);
    }
  }

  // The system as `main` starts it.  INTERPRET, with its backward jump and its
  // EXECUTE, is on the chain and is no definition that ends; the dictionary is
  // ready all the same, STATE is such a definition, and the byte codes of every
  // other word but EXECUTE, `!`, (LDN), JMP and JMP_FALSE may be named in others.
  lemma Started(st: State) returns (t: State, s: State, at: seq<cell>, ds: seq<seq<nat>>)
    requires StacksOk(st) && st.control == CONTROL_BOTTOM && st.data == DATA_BOTTOM && st.dictHead == 0
    requires Where(st.mem) == DICTIONARY_START && InputOk(st.mem)
    ensures |CORE| == |at| == 34 && ShortNames(CORE) && AddAll(st, CORE).Next?
    ensures AddVariable(AddAll(st, CORE).st, LOC_STATE, Bytes("STATE")) == Next(t) && StacksOk(t)
    ensures Define(t.(mem := SetCode(t.mem, Bytes("INTERPRET "))), Interpret(at, t.dictHead)) == Next(s)
    ensures NonEmpty(ds) && |ds| == 1 && Ready(s, ds) && Quiet(s.mem, ds) && Where(s.mem) <= 0x800
            && s.data == DATA_BOTTOM
    ensures forall i :: 0 <= i < |CORE| ==> Holds(s, at[i], CORE[i])
    ensures forall i :: 0 <= i < |CORE| && Plain(CORE[i].op) ==> Usable(s.mem, s.dictHead, Starts(ds), Word(at[i]))
    ensures Usable(s.mem, s.dictHead, Starts(ds), Word(t.dictHead)) && CodeStart(s.mem, t.dictHead) == ds[0][0]
    ensures OnChain(s.mem, s.dictHead, s.dictHead) && CodeStart(s.mem, s.dictHead) !in Starts(ds)
  {
    hide Fetch16, SameOn, CodeStart, OnChain, FlagsOf, ProgramOk, DictionaryOk, Bytes, AddAll, CORE, NestingOf, Define;
    hide SetCode;
    hide Interpret, Holds, AddVariable;
    var zs: seq<nat>;
    t, at, zs := Initialised(st);
    ds := [zs];
    var state := t.dictHead;
    var text := Bytes("INTERPRET ");
    SetCodeReady(t, [zs], text);
    var u := t.(mem := SetCode(t.mem, text));
    InterpretBalanced(at, state);
    s := AnyDefinition(u, [zs], Interpret(at, state));
    var b := Where(t.mem);
    SamePart(t.mem, u.mem, DICTIONARY_START, SIZE, DICTIONARY_START, b);
    SameBoth(t.mem, u.mem, s.mem, DICTIONARY_START, b);
    forall i | 0 <= i < |CORE| ensures Holds(s, at[i], CORE[i]) {
      HoldsFrame(t, s, b, at[i], CORE[i]);
    }
    ChainEntry(t.mem, t.dictHead, b, state);
    HeaderSame(t.mem, s.mem, state, b);
    ChainFrame(t.mem, s.mem, t.dictHead, b, state);
    assert OnChain(s.mem, s.dictHead, state) && OnChain(s.mem, s.dictHead, s.dictHead)
      by { ChainLink(s.mem, s.dictHead, state); }
    StartAfter(s.mem, s.dictHead);
    OneStart(zs);
    BelowOne(t, zs);
    forall i | 0 <= i < |CORE| && Plain(CORE[i].op) ensures Usable(s.mem, s.dictHead, Starts([zs]), Word(at[i])) {
      CoreUsable(s, at[i], CORE[i], Starts([zs]));
    }
    StartAfter(t.mem, state);
    QuietVariable(t.mem, s.mem, zs, b);
  }

  lemma ChainLink(m: Memory, h: cell, xt: cell)
    requires h != 0 && Fetch16(m, h) < h && OnChain(m, Fetch16(m, h), xt)
    ensures OnChain(m, h, xt) && OnChain(m, h, h)
  {
  }

  lemma OneStart(zs: seq<nat>)
    requires zs != []
    ensures NonEmpty([zs]) && Starts([zs]) == [zs[0]]
  {
  }

  lemma BelowOne(t: State, zs: seq<nat>)
    requires Ready(t, [zs])
    ensures zs != [] && zs[|zs| - 1] < Where(t.mem)
  {
    hide ProgramOk, DictionaryOk, Fetch16;
    assert [zs][0] == zs;
  }

  lemma CoreUsable(s: State, xt: cell, w: CoreWord, starts: seq<nat>)
    requires Holds(s, xt, w) && ShortName(w) && Plain(w.op)
    ensures Usable(s.mem, s.dictHead, starts, Word(xt))
  {
    hide OnChain, Fetch16, Plain;
  }

  lemma QuietVariable(m: Memory, n: Memory, zs: seq<nat>, b: int)
    requires |zs| == 2 && DICTIONARY_START <= zs[0] < zs[1] < b <= SIZE && m[zs[0]] == LDN
             && SameOn(m, n, DICTIONARY_START, b)
    ensures Quiet(n, [zs])
  {
  }

  // COMPILE, of a word of a byte code lays just the code.
  lemma NamedCode(st: State, ds: seq<seq<nat>>, start: nat, xt: cell)
    requires Shell(st, ds, start) && Room(st) && st.data + 2 < DATA_TOP && OnChain(st.mem, st.dictHead, xt)
             && IsInstruction(st.mem, xt)
    ensures CompileToken(st, Word(xt)).Next?
    ensures var s, here := CompileToken(st, Word(xt)).st, Where(st.mem);
            && Grown(st, s, ds, start) && s.mem[here] == Fetch8(st.mem, Wrap(xt + H_SEMANTICS))
               && Where(s.mem) == here + 1
            && SameOn(st.mem, s.mem, start, here) && s == st.(mem := s.mem)
            && forall x, w :: Holds(st, x, w) ==> Holds(s, x, w)
  {
    hide Fetch16, Store16, SameOn, ProgramOk, Cells, CodeStart, DictionaryOk, OnChain, Starts, FlagsOf, Below, Grown;
    hide ControlInside;
    ShellWord(st, ds, start, xt);
    var d, here := st.data, Where(st.mem);
    ChainEntry(st.mem, st.dictHead, st.dictNew, xt);
    PushedSame(st.mem, d, xt, xt);
    var n := LaidByte(st.mem, d, xt, here, st.mem[xt + H_SEMANTICS]);
    var s := CompileToken(st, Word(xt)).st;
    assert s == st.(mem := n);
    StartAfter(st.mem, st.dictNew);
    SamePart(st.mem, n, LOC_INPUT_BUFFER, here, start, here);
    SamePart(st.mem, n, LOC_INPUT_BUFFER, here, DICTIONARY_START, st.dictNew);
    forall x, w | Holds(st, x, w) ensures Holds(s, x, w) {
      HoldsFrame(st, s, st.dictNew, x, w);
    }
  }

  // JMP NOP DUP at 0x0C12 is a jump to itself.
  lemma {:induction false} JumpsForever(st: State, ans: Answers, n: nat)
    requires StacksOk(st) && st.ip == 0x0C12
    requires st.mem[0x0C12] == JMP && st.mem[0x0C13] == NOP && st.mem[0x0C14] == DUP
    ensures Run(st, ans, n) == Next(st)
    decreases n
  {
    assert Fetch16(st.mem, 0x0C13) == 0x0C12;
    if n > 0 {
      JumpsForever(st, ans, n - 1);
    }
  }

  // The words JMP, JMP_FALSE and (LDN) are in the dictionary too.  Named in a
  // definition they lay a byte code without its operand, and the promise fails:
  // `: X JMP NOP DUP ;`, where the code of X starts at 0x0C12, runs for ever.
  lemma JumpByName(st: State, ds: seq<seq<nat>>, jmp: cell, nop: cell, dup: cell, ans: Answers, n: nat)
    returns (s: State)
    requires Ready(st, ds) && Definable(st, [Word(jmp), Word(nop), Word(dup)])
    requires Holds(st, jmp, CoreWord("JMP", JMP, F_INSTRUCTION)) && Holds(st, nop, CoreWord("NOP", NOP, F_INSTRUCTION))
    requires Holds(st, dup, CoreWord("DUP", DUP, F_INSTRUCTION))
    requires Colon(st).Next? && Where(Colon(st).st.mem) == 0x0C12
    ensures Define(st, [Word(jmp), Word(nop), Word(dup)]) == Next(s) && Ready(s, ds)
    ensures s.dictHead == Where(st.mem) && CodeStart(s.mem, s.dictHead) == 0x0C12
    ensures Run(s.(ip := 0x0C12), ans, n) == Next(s.(ip := 0x0C12))
  {
    hide Fetch16, Store16, SameOn, ProgramOk, Cells, CodeStart, DictionaryOk, OnChain, Starts, FlagsOf, Below, Shell;
    hide Colon, CompileToken, Semicolon, Run, Building;
    hide NestingOf, ControlOf;
    var zs := ColonOpens(st, ds);
    var s0 := Colon(st).st;
    BuildingShell(s0, ds, zs, []);
    HoldsColon(st, s0, jmp, CoreWord("JMP", JMP, F_INSTRUCTION));
    HoldsColon(st, s0, nop, CoreWord("NOP", NOP, F_INSTRUCTION));
    HoldsColon(st, s0, dup, CoreWord("DUP", DUP, F_INSTRUCTION));
    assert zs[0] == 0x0C12 by { BuildingEnd(s0, ds, zs); }
    NamedHolds(s0, jmp, CoreWord("JMP", JMP, F_INSTRUCTION));
    NamedCode(s0, ds, zs[0], jmp);
    var s1 := CompileToken(s0, Word(jmp)).st;
    NamedHolds(s1, nop, CoreWord("NOP", NOP, F_INSTRUCTION));
    NamedCode(s1, ds, zs[0], nop);
    var s2 := CompileToken(s1, Word(nop)).st;
    NamedHolds(s2, dup, CoreWord("DUP", DUP, F_INSTRUCTION));
    NamedCode(s2, ds, zs[0], dup);
    var s3 := CompileToken(s2, Word(dup)).st;
    ThreeTokens(s0, Word(jmp), Word(nop), Word(dup));
    SemicolonMemory(s3, ds, zs[0]);
    assert s3.control == CONTROL_BOTTOM;
    AnyLinks(s3, ds, zs[0]);
    s := Semicolon(s3).st;
    ThreeBytes(s1.mem, s2.mem, s3.mem, s.mem);
    JumpsForever(s.(ip := 0x0C12), ans, n);
  }

  lemma NamedHolds(s: State, xt: cell, w: CoreWord)
    requires Holds(s, xt, w) && w.flags == F_INSTRUCTION
    ensures OnChain(s.mem, s.dictHead, xt) && IsInstruction(s.mem, xt) && Fetch8(s.mem, Wrap(xt + H_SEMANTICS)) == w.op
  {
  }

  lemma HoldsColon(st: State, s: State, xt: cell, w: CoreWord)
    requires DictionaryOk(st.mem, st.dictHead, Where(st.mem)) && SameOn(st.mem, s.mem, DICTIONARY_START, Where(st.mem))
    requires Holds(st, xt, w) && s.dictHead == st.dictHead
    ensures Holds(s, xt, w)
  {
    HoldsFrame(st, s, Where(st.mem), xt, w);
  }

  lemma BuildingEnd(s: State, ds: seq<seq<nat>>, zs: seq<nat>)
    requires Building(s, ds, zs, []) && |zs| == 1
    ensures zs[0] == Where(s.mem)
  {
  }

  lemma ThreeTokens(st: State, x: Token, y: Token, z: Token)
    requires StacksOk(st) && CompileToken(st, x).Next? && CompileToken(CompileToken(st, x).st, y).Next?
    ensures CompileTokens(st, [x, y, z]) == CompileToken(CompileToken(CompileToken(st, x).st, y).st, z)
  {
    hide CompileToken;
    var s1 := CompileToken(st, x).st;
    var s2 := CompileToken(s1, y).st;
    assert [x, y, z][1..] == [y, z] && [y, z][1..] == [z] && [z][1..] == [];
    assert CompileTokens(s2, [z]) == CompileToken(s2, z) by {
      if CompileToken(s2, z).Next? { assert CompileTokens(CompileToken(s2, z).st, []) == CompileToken(s2, z); }
    }
    assert CompileTokens(s1, [y, z]) == CompileTokens(s2, [z]);
  }

  lemma ThreeBytes(m1: Memory, m2: Memory, m3: Memory, m: Memory)
    requires m1[0x0C12] == JMP && m2[0x0C13] == NOP && m3[0x0C14] == DUP
    requires SameOn(m1, m2, 0x0C12, 0x0C13) && SameOn(m2, m3, 0x0C12, 0x0C14) && SameOn(m3, m, 0x0C12, 0x0C15)
    ensures m[0x0C12] == JMP && m[0x0C13] == NOP && m[0x0C14] == DUP
  {
  }
}
