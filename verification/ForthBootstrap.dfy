// The bootstrap: the core words added one by one to an empty dictionary give a
// dictionary on which everything proved about compiling and running holds.
module ForthBootstrap {
  import opened Dataspace
  import opened Letters
  import opened ForthState
  import opened ForthWords
  import opened ForthSource
  import opened ForthSemantics
  import opened ForthCompile
  import opened ForthDefine
  import opened ForthDictionary
  import opened ForthLookup
  import opened ForthDoes
  import opened ForthRollback

  const EF_IMMEDIATE: byte := 2
  const EF_HIDDEN: byte := 16
  const EF_COMPILE_ONLY: byte := 8

  const NOW: byte := EF_IMMEDIATE + EF_COMPILE_ONLY

  // Opcodes without a routine.
  const OP_WHILE := 23
  const OP_REPEAT := 24

  datatype CoreWord = CoreWord(name: string, op: byte, flags: byte)

  function Bytes(s: string): (r: seq<byte>)
    ensures |r| == |s|
  {
    seq(|s|, i requires 0 <= i < |s| => s[i] as int % 0x100)
  }

  predicate ShortName(w: CoreWord) {
    0 < |w.name| < 12
  }

  // add_core_word.
  function AddCore(st: State, w: CoreWord): Outcome
    requires ShortName(w)
  {
    AddEntry(st, Bytes(w.name), w.flags, w.op, 0)
  }

  function AddAll(st: State, ws: seq<CoreWord>): Outcome
    requires forall i :: 0 <= i < |ws| ==> ShortName(ws[i])
    decreases |ws|
  {
    if ws == [] then Next(st, Wrap(st.ip + 2))
    else
      match AddAll(st, ws[..|ws| - 1])
      case Stop(why) => Stop(why)
      case Next(s, _) => AddCore(s, ws[|ws| - 1])
  }

  // A dictionary that is sound, or still empty.
  ghost predicate Sane(st: State) {
    && StacksOk(st) && SYSTEM_END <= Here(st.mem) <= SPACE_TOP
    && (st.dictHead == 0 || Chain(st.mem, st.dictHead, Here(st.mem)))
  }

  // The entry of a core word.
  ghost predicate Holds(m: Memory, e: cell, w: CoreWord, bound: int) {
    && SYSTEM_END <= e && e + DE_SIZE_MIN <= bound <= SPACE_TOP && e + DE_NAME + 1 + NameCount(m, e) <= bound
    && CodeField(m, e) == w.op && FlagsByte(m, e) == w.flags && Name(m, e) == Bytes(w.name)
  }

  lemma HoldsFrame(m: Memory, n: Memory, e: cell, w: CoreWord, bound: int, bound': int)
    requires Holds(m, e, w, bound) && SameOn(m, n, SYSTEM_END, bound) && bound <= bound' <= SPACE_TOP && ShortName(w)
    ensures Holds(n, e, w, bound')
  {
    hide SameOn, CodeField, FlagsByte, NameCount, Bytes;
    HeaderKept(m, n, SYSTEM_END, bound, e);
    NameKept(m, n, e, bound);
  }

  // One more word: everything older is as it was.
  lemma AddOne(st: State, w: CoreWord) returns (s: State)
    requires Sane(st) && ShortName(w) && Here(st.mem) + 24 <= SPACE_TOP
    ensures AddCore(st, w) == Next(s, Wrap(st.ip + 2)) && Sane(s)
    ensures s == st.(mem := s.mem, dictHead := Here(st.mem))
    ensures Here(st.mem) + DE_SIZE_MIN <= Here(s.mem) <= Here(st.mem) + 24
    ensures Holds(s.mem, s.dictHead, w, Here(s.mem)) && Previous(s.mem, s.dictHead) == st.dictHead
    ensures SameOn(st.mem, s.mem, SYSTEM_END, Here(st.mem)) && Fetch16(s.mem, LOC_STATE) == Fetch16(st.mem, LOC_STATE)
  {
    hide Fetch16, Store16, CodeField, Previous, NameCount, FlagsByte, SameOn, Blit, HeaderBytes, Bytes, DoesCode;
    var e, name := Here(st.mem), Bytes(w.name);
    var m := EntryWritten(st.mem, e, st.dictHead, w.flags, w.op, 0, name);
    var b := Align(e + DE_SIZE_MIN + |name|);
    var n := Store16(m, LOC_HERE, b);
    s := st.(mem := n, dictHead := e);
    FetchStored(m, LOC_HERE, b);
    StoreOutside(m, LOC_HERE, b, SYSTEM_END, SPACE_TOP);
    HeaderKept(m, n, SYSTEM_END, SPACE_TOP, e);
    NameKept(m, n, e, SPACE_TOP);
    FetchElsewhere(m, LOC_HERE, b, LOC_STATE);
    FetchSame(st.mem, m, 0, e, LOC_STATE);
    SameBoth(st.mem, m, n, SYSTEM_END, e)
      by { SamePart(st.mem, m, 0, e, SYSTEM_END, e); SamePart(m, n, SYSTEM_END, SPACE_TOP, SYSTEM_END, e); }
    if st.dictHead != 0 {
      ChainFrame(st.mem, n, st.dictHead, e);
    }
  }

  // Word j is the newest of ws with this opcode.
  ghost predicate LastOp(ws: seq<CoreWord>, op: int, j: nat) {
    j < |ws| && ws[j].op == op && forall i :: j < i < |ws| ==> ws[i].op != op
  }

  // Word j is the newest of ws with these letters.
  ghost predicate LastName(ws: seq<CoreWord>, name: seq<byte>, j: nat) {
    && j < |ws| && SameLetters(name, Bytes(ws[j].name))
    && forall i :: j < i < |ws| ==> !SameLetters(name, Bytes(ws[i].name))
  }

  // What the dictionary is after the words ws, which are at the addresses `at`.
  ghost predicate Booted(s: State, ws: seq<CoreWord>, at: seq<cell>) {
    && Sane(s) && |at| == |ws|
    && (forall i :: 0 <= i < |ws| ==> Holds(s.mem, at[i], ws[i], Here(s.mem)))
    && (forall op: nat, j: nat :: LastOp(ws, op, j) ==> FindOpcode(s.mem, s.dictHead, op) == Found(at[j]))
    && (forall name, j: nat :: s.dictHead != 0 && LastName(ws, name, j) ==>
          WordNamed(s.mem, s.dictHead, Here(s.mem), name) == Found(at[j]))
    && (ws != [] ==> s.dictHead == at[|ws| - 1])
  }

  lemma {:induction false} AddMany(st: State, ws: seq<CoreWord>) returns (s: State, at: seq<cell>)
    requires Sane(st) && (forall i :: 0 <= i < |ws| ==> ShortName(ws[i]))
    requires Here(st.mem) + 24 * |ws| <= SPACE_TOP
    ensures AddAll(st, ws) == Next(s, Wrap(s.ip + 2)) && Booted(s, ws, at)
    ensures s == st.(mem := s.mem, dictHead := s.dictHead) && Here(s.mem) <= Here(st.mem) + 24 * |ws|
    ensures Fetch16(s.mem, LOC_STATE) == Fetch16(st.mem, LOC_STATE)
    decreases |ws|
  {
    hide Fetch16, AddCore, Sane, Holds, FindOpcode, WordNamed, LastOp, LastName, SameOn;
    if ws == [] {
      s, at := st, [];
      assert forall op: nat, j: nat :: !LastOp(ws, op, j) by { NoneLast(); }
      assert forall name, j: nat :: !LastName(ws, name, j) by { NoneLast(); }
    } else {
      var n := |ws| - 1;
      var t, xs := AddMany(st, ws[..n]);
      s := AddOne(t, ws[n]);
      at := xs + [s.dictHead];
      BootedMore(t, s, ws, xs);
    }
  }

  lemma NoneLast()
    ensures forall op: nat, j: nat :: !LastOp([], op, j)
    ensures forall name, j: nat :: !LastName([], name, j)
  {
  }

  lemma BootedMore(t: State, s: State, ws: seq<CoreWord>, xs: seq<cell>)
    requires ws != [] && Booted(t, ws[..|ws| - 1], xs) && Sane(s) && (forall i :: 0 <= i < |ws| ==> ShortName(ws[i]))
    requires s.dictHead == Here(t.mem) && Here(t.mem) <= Here(s.mem)
    requires Holds(s.mem, s.dictHead, ws[|ws| - 1], Here(s.mem)) && Previous(s.mem, s.dictHead) == t.dictHead
    requires SameOn(t.mem, s.mem, SYSTEM_END, Here(t.mem))
    ensures Booted(s, ws, xs + [s.dictHead])
  {
    hide Fetch16, CodeField, Previous, NameCount, FlagsByte, SameOn, Bytes, SameLetters, WordNamed, FindOpcode, Name;
    var n := |ws| - 1;
    var at := xs + [s.dictHead];
    forall i | 0 <= i < |ws| ensures Holds(s.mem, at[i], ws[i], Here(s.mem)) {
      if i < n {
        assert ws[..n][i] == ws[i];
        HoldsFrame(t.mem, s.mem, xs[i], ws[i], Here(t.mem), Here(s.mem));
      }
    }
    forall op: nat, j: nat | LastOp(ws, op, j) ensures FindOpcode(s.mem, s.dictHead, op) == Found(at[j]) {
      NewestOp(t, s, ws, xs, op, j);
    }
    forall name, j: nat | LastName(ws, name, j)
      ensures WordNamed(s.mem, s.dictHead, Here(s.mem), name) == Found(at[j])
    {
      NewestName(t, s, ws, xs, name, j);
    }
  }

  lemma NewestOp(t: State, s: State, ws: seq<CoreWord>, xs: seq<cell>, op: nat, j: nat)
    requires ws != [] && Booted(t, ws[..|ws| - 1], xs) && Sane(s) && LastOp(ws, op, j)
    requires s.dictHead == Here(t.mem) && CodeField(s.mem, s.dictHead) == ws[|ws| - 1].op
    requires Previous(s.mem, s.dictHead) == t.dictHead && SameOn(t.mem, s.mem, SYSTEM_END, Here(t.mem))
    ensures FindOpcode(s.mem, s.dictHead, op) == Found((xs + [s.dictHead])[j])
  {
    hide Fetch16, CodeField, Previous, NameCount, SameOn, WordNamed, Bytes, Name;
    var n := |ws| - 1;
    if j < n {
      assert ws[n].op != op;
      assert LastOp(ws[..n], op, j);
      FindOpcodeFrame(t.mem, s.mem, t.dictHead, Here(t.mem), op);
    }
  }

  lemma NewestName(t: State, s: State, ws: seq<CoreWord>, xs: seq<cell>, name: seq<byte>, j: nat)
    requires ws != [] && Booted(t, ws[..|ws| - 1], xs) && Sane(s) && LastName(ws, name, j) && s.dictHead != 0
    requires s.dictHead == Here(t.mem) && Holds(s.mem, s.dictHead, ws[|ws| - 1], Here(s.mem))
    requires Previous(s.mem, s.dictHead) == t.dictHead && SameOn(t.mem, s.mem, SYSTEM_END, Here(t.mem))
    ensures WordNamed(s.mem, s.dictHead, Here(s.mem), name) == Found((xs + [s.dictHead])[j])
  {
    hide Fetch16, CodeField, Previous, NameCount, SameOn, SameLetters, Bytes, Name, FlagsByte;
    var n := |ws| - 1;
    if j < n {
      assert !SameLetters(name, Bytes(ws[n].name));
      assert LastName(ws[..n], name, j);
      WordNamedFrame(t.mem, s.mem, t.dictHead, Here(t.mem), name);
    }
  }

  // The words bootstrap adds before it compiles INTERPRET.
  const CORE: seq<CoreWord> := [
    CoreWord("CREATE", OP_CREATE, 0), CoreWord("ALLOT", OP_ALLOT, 0), CoreWord("STATE", OP_STATE, 0),
    CoreWord(":", OP_COLON, 0), CoreWord(",", OP_COMMA, 0), CoreWord(".", OP_DOT, 0),
    CoreWord("@", OP_AT, 0), CoreWord("C@", OP_C_AT, 0), CoreWord("EMIT", OP_EMIT, 0),
    CoreWord("PASS", OP_PASS, 0), CoreWord("QUERY", OP_QUERY, 0), CoreWord("IMMEDIATE", OP_IMMEDIATE, 0),
    CoreWord("?IMMEDIATE", OP_QIMMEDIATE, 0), CoreWord("FIND", OP_FIND, 0), CoreWord("BYE", OP_BYE, 0),
    CoreWord("=", OP_EQUAL, 0), CoreWord("DUP", OP_DUP, 0), CoreWord("DROP", OP_DROP, 0),
    CoreWord("(NUMBER)", OP_BNUMBER, 0), CoreWord("EXIT", OP_EXIT, 0), CoreWord("EXECUTE", OP_EXECUTE, 0),
    CoreWord("WORDBUFFER", OP_WORDBUFFER, 0), CoreWord("(LITERAL)", OP_PLITERAL, 0), CoreWord("ABORT", OP_ABORT, 0),
    CoreWord(";", OP_SEMICOLON, NOW), CoreWord("BEGIN", OP_BEGIN, NOW), CoreWord("AGAIN", OP_AGAIN, NOW),
    CoreWord("IF", OP_IF, NOW), CoreWord("THEN", OP_THEN, NOW), CoreWord("ELSE", OP_ELSE, NOW),
    CoreWord("WHILE", OP_WHILE, NOW), CoreWord("REPEAT", OP_REPEAT, NOW), CoreWord("LITERAL", OP_LITERAL, NOW),
    CoreWord("DOES>", OP_DOES, NOW), CoreWord("(", OP_PAREN, EF_IMMEDIATE),
    CoreWord("PUSH", OP_PUSH, EF_HIDDEN), CoreWord("JUMP", OP_JUMP, EF_HIDDEN),
      CoreWord("JUMP_IF", OP_JUMP_IF, EF_HIDDEN),
    CoreWord("DOES_RT", OP_DOES_RT, EF_HIDDEN)]

  lemma CoreShort()
    ensures |CORE| == 39 && forall i :: 0 <= i < |CORE| ==> ShortName(CORE[i])
  {
  }

  lemma NewestCore()
    ensures LastOp(CORE, OP_PUSH, 35) && LastOp(CORE, OP_JUMP, 36) && LastOp(CORE, OP_JUMP_IF, 37)
    ensures LastOp(CORE, OP_EXIT, 19) && LastOp(CORE, OP_DOES_RT, 38)
  {
  }

  lemma KeywordsThere()
    ensures |CORE| == 39
    ensures CORE[27] == CoreWord("IF", OP_IF, NOW) && CORE[29] == CoreWord("ELSE", OP_ELSE, NOW)
    ensures CORE[28] == CoreWord("THEN", OP_THEN, NOW) && CORE[25] == CoreWord("BEGIN", OP_BEGIN, NOW)
    ensures CORE[26] == CoreWord("AGAIN", OP_AGAIN, NOW) && CORE[24] == CoreWord(";", OP_SEMICOLON, NOW)
  {
  }

  lemma DefinersThere()
    ensures |CORE| == 39
    ensures CORE[33] == CoreWord("DOES>", OP_DOES, NOW) && CORE[0] == CoreWord("CREATE", OP_CREATE, 0)
    ensures CORE[4] == CoreWord(",", OP_COMMA, 0)
  {
  }

  predicate WorksAtOnce(name: string) {
    name in {";", "BEGIN", "AGAIN", "IF", "THEN", "ELSE", "WHILE", "REPEAT", "LITERAL", "DOES>", "("}
  }

  lemma FirstFlags()
    ensures forall i :: 0 <= i < 24 <= |CORE| ==> CORE[i].flags == 0 && !WorksAtOnce(CORE[i].name)
  {
  }

  lemma LaterFlags()
    ensures forall i :: 24 <= i < |CORE| ==> (CORE[i].flags / 2 % 2 == 1 <==> WorksAtOnce(CORE[i].name))
  {
  }

  // The words of the bootstrapped dictionary that are performed while compiling.
  lemma CoreImmediates(s: State, at: seq<cell>, i: nat)
    requires Booted(s, CORE, at) && i < |CORE|
    ensures |at| == |CORE| && (IsImmediate(s.mem, at[i]) <==> WorksAtOnce(CORE[i].name))
  {
    hide CodeField, NameCount, FlagsByte, Name, Bytes, FindOpcode, WordNamed, LastOp, LastName, Sane, WorksAtOnce;
    FirstFlags();
    LaterFlags();
    assert Holds(s.mem, at[i], CORE[i], Here(s.mem));
  }

  // What ff_reset leaves: HERE behind the system variables, numbers in base ten, no
  // input; STATE is as it was found, so the bootstrap starts interpreting if and only if
  // memory held 0 there.
  lemma ResetStarts(m: Memory)
    ensures var n := ResetMemory(m);
            && Here(n) == 1166 && Fetch16(n, LOC_BASE) == 10 && Fetch16(n, LOC_INDEX) == 0 && Fetch16(n, LOC_COUNT) == 0
            && n[LOC_INPUT_BUFFER] == 0 && Previous(n, Here(n)) == 0
            && (Fetch16(n, LOC_STATE) == INTERPRETING <==> Fetch16(m, LOC_STATE) == 0)
  {
  }

  // From the reset state the core words give a dictionary ready for colon
  // definitions and defining words: every word compiling looks up is there.
  lemma Bootstrapped(st: State) returns (s: State, at: seq<cell>, c: Core, k: Keywords, d: Definers)
    requires StacksOk(st) && st.dictHead == 0 && Here(st.mem) == SYSTEM_END
    requires Fetch16(st.mem, LOC_STATE) == INTERPRETING
    ensures (forall i :: 0 <= i < |CORE| ==> ShortName(CORE[i])) && AddAll(st, CORE) == Next(s, Wrap(s.ip + 2))
    ensures Booted(s, CORE, at) && Ready(s, map[], c, k, d.semi) && DefinersOk(s.mem, s.dictHead, d, Here(s.mem))
    ensures s == st.(mem := s.mem, dictHead := s.dictHead) && Here(s.mem) <= 0x1000
  {
    hide Fetch16, AddAll, CodeField, FlagsByte, NameCount, Bytes, Name, WordNamed, FindOpcode, Chain, LastOp, LastName;
    hide CORE;
    CoreShort();
    NewestCore();
    KeywordsThere();
    DefinersThere();
    s, at := AddMany(st, CORE);
    c := Core(at[35], at[36], at[37], at[19]);
    k := Keywords(at[27], at[29], at[28], at[25], at[26]);
    d := Definers(at[0], at[4], at[33], at[38], at[24]);
    forall i | 0 <= i < |CORE| ensures Holds(s.mem, at[i], CORE[i], Here(s.mem)) {
    }
    assert IsImmediate(s.mem, at[27]) && IsImmediate(s.mem, at[29]) && IsImmediate(s.mem, at[28]);
    assert IsImmediate(s.mem, at[25]) && IsImmediate(s.mem, at[26]) && IsImmediate(s.mem, d.semi);
  }

  // INTERPRET, as the file interpret.fs spells it, over the entries of the core
  // words.

  function Line(ps: seq<Body>): Body {
    if ps == [] then Nothing else Both(ps[0], Line(ps[1..]))
  }

  predicate IsLeaf(p: Body) {
    p.Plain? || p.Number?
  }

  function OnNumber(at: seq<cell>): Body
    requires |at| == 39
  {
    Both(Line([Plain(at[17]), Plain(at[21]), Plain(at[18])]),
         IfElse(Both(Line([Plain(at[2]), Plain(at[6])]), IfElse(Line([Plain(at[22])]), Line([Plain(at[9])]))),
                Line([Plain(at[17]), Number(63), Plain(at[8]), Plain(at[23])])))
  }

  function OnWord(at: seq<cell>): Body
    requires |at| == 39
  {
    Both(Line([Plain(at[2]), Plain(at[6])]),
         IfElse(Both(Line([Plain(at[16]), Plain(at[12])]), IfElse(Line([Plain(at[20])]), Line([Plain(at[4])]))),
                Line([Plain(at[20])])))
  }

  function Turn(at: seq<cell>): Body
    requires |at| == 39
  {
    Both(Line([Plain(at[13]), Plain(at[21]), Plain(at[7]), Number(0), Plain(at[15])]),
         IfElse(Line([Plain(at[17]), Number(79), Plain(at[8]), Number(75), Plain(at[8]), Plain(at[10])]),
                Both(Line([Plain(at[16]), Number(0), Plain(at[15])]), IfElse(OnNumber(at), OnWord(at)))))
  }

  function Interpret(at: seq<cell>): Body
    requires |at| == 39
  {
    Loop(Turn(at))
  }

  // A body that may stand in the definition e, and what it takes.
  ghost predicate Small(m: Memory, e: cell, p: Body, size: nat, nesting: nat) {
    Nameable(m, e, p) && Size(p) <= size && Nesting(p) <= nesting
  }

  lemma {:induction false} LineSmall(m: Memory, e: cell, ps: seq<Body>)
    requires forall i :: 0 <= i < |ps| ==> IsLeaf(ps[i]) && Nameable(m, e, ps[i])
    ensures Small(m, e, Line(ps), 4 * |ps|, 0)
    decreases |ps|
  {
    if ps != [] {
      LineSmall(m, e, ps[1..]);
    }
  }

  lemma {:induction false} BothSmall(m: Memory, e: cell, p: Body, q: Body, s: nat, t: nat, n: nat)
    requires Small(m, e, p, s, n) && Small(m, e, q, t, n)
    ensures Small(m, e, Both(p, q), s + t, n)
  {
  }

  lemma {:induction false} IfElseSmall(m: Memory, e: cell, p: Body, q: Body, s: nat, t: nat, n: nat)
    requires Small(m, e, p, s, n) && Small(m, e, q, t, n)
    ensures Small(m, e, IfElse(p, q), 8 + s + t, n + 1)
  {
  }

  lemma {:induction false} LoopSmall(m: Memory, e: cell, p: Body, s: nat, n: nat)
    requires Small(m, e, p, s, n)
    ensures Small(m, e, Loop(p), s + 4, n + 1)
  {
  }

  lemma SmallMore(m: Memory, e: cell, p: Body, s: nat, n: nat, s': nat, n': nat)
    requires Small(m, e, p, s, n) && s <= s' && n <= n'
    ensures Small(m, e, p, s', n')
  {
  }

  // The core words but the immediate ones may be named.
  ghost predicate AllNameable(m: Memory, e: cell, at: seq<cell>) {
    |at| == 39 && forall i :: 0 <= i < 24 ==> Nameable(m, e, Plain(at[i]))
  }

  lemma NumbersNameable(m: Memory, e: cell)
    ensures forall n :: Nameable(m, e, Number(n))
  {
  }

  lemma OnNumberSmall(m: Memory, e: cell, at: seq<cell>)
    requires AllNameable(m, e, at)
    ensures Small(m, e, OnNumber(at), 60, 2)
  {
    hide Small, Nameable, Line;
    NumbersNameable(m, e);
    LineSmall(m, e, [Plain(at[17]), Plain(at[21]), Plain(at[18])]);
    LineSmall(m, e, [Plain(at[2]), Plain(at[6])]);
    LineSmall(m, e, [Plain(at[22])]);
    LineSmall(m, e, [Plain(at[9])]);
    LineSmall(m, e, [Plain(at[17]), Number(63), Plain(at[8]), Plain(at[23])]);
    IfElseSmall(m, e, Line([Plain(at[22])]), Line([Plain(at[9])]), 4, 4, 0);
    SmallMore(m, e, Line([Plain(at[2]), Plain(at[6])]), 8, 0, 8, 1);
    BothSmall(m, e, Line([Plain(at[2]), Plain(at[6])]), IfElse(Line([Plain(at[22])]), Line([Plain(at[9])])), 8, 16, 1);
    SmallMore(m, e, Line([Plain(at[17]), Number(63), Plain(at[8]), Plain(at[23])]), 16, 0, 16, 1);
    IfElseSmall(m, e, Both(Line([Plain(at[2]), Plain(at[6])]), IfElse(Line([Plain(at[22])]), Line([Plain(at[9])]))),
                Line([Plain(at[17]), Number(63), Plain(at[8]), Plain(at[23])]), 24, 16, 1);
    SmallMore(m, e, Line([Plain(at[17]), Plain(at[21]), Plain(at[18])]), 12, 0, 12, 2);
    BothSmall(m, e, Line([Plain(at[17]), Plain(at[21]), Plain(at[18])]),
              IfElse(Both(Line([Plain(at[2]), Plain(at[6])]), IfElse(Line([Plain(at[22])]), Line([Plain(at[9])]))),
                     Line([Plain(at[17]), Number(63), Plain(at[8]), Plain(at[23])])), 12, 48, 2);
  }

  lemma OnWordSmall(m: Memory, e: cell, at: seq<cell>)
    requires AllNameable(m, e, at)
    ensures Small(m, e, OnWord(at), 48, 2)
  {
    hide Small, Nameable, Line;
    LineSmall(m, e, [Plain(at[2]), Plain(at[6])]);
    LineSmall(m, e, [Plain(at[16]), Plain(at[12])]);
    LineSmall(m, e, [Plain(at[20])]);
    LineSmall(m, e, [Plain(at[4])]);
    var inner := IfElse(Line([Plain(at[20])]), Line([Plain(at[4])]));
    IfElseSmall(m, e, Line([Plain(at[20])]), Line([Plain(at[4])]), 4, 4, 0);
    SmallMore(m, e, Line([Plain(at[16]), Plain(at[12])]), 8, 0, 8, 1);
    BothSmall(m, e, Line([Plain(at[16]), Plain(at[12])]), inner, 8, 16, 1);
    SmallMore(m, e, Line([Plain(at[20])]), 4, 0, 4, 1);
    IfElseSmall(m, e, Both(Line([Plain(at[16]), Plain(at[12])]), inner), Line([Plain(at[20])]), 24, 4, 1);
    SmallMore(m, e, Line([Plain(at[2]), Plain(at[6])]), 8, 0, 8, 2);
    BothSmall(m, e, Line([Plain(at[2]), Plain(at[6])]),
      IfElse(Both(Line([Plain(at[16]), Plain(at[12])]), inner), Line([Plain(at[20])])), 8, 36, 2);
    SmallMore(m, e, OnWord(at), 44, 2, 48, 2);
  }

  lemma InterpretSmall(m: Memory, e: cell, at: seq<cell>)
    requires AllNameable(m, e, at)
    ensures Small(m, e, Interpret(at), 200, 5)
  {
    hide Small, Nameable, Line, OnNumber, OnWord;
    NumbersNameable(m, e);
    OnNumberSmall(m, e, at);
    OnWordSmall(m, e, at);
    var ask := Line([Plain(at[13]), Plain(at[21]), Plain(at[7]), Number(0), Plain(at[15])]);
    var refill := Line([Plain(at[17]), Number(79), Plain(at[8]), Number(75), Plain(at[8]), Plain(at[10])]);
    var test := Line([Plain(at[16]), Number(0), Plain(at[15])]);
    LineSmall(m, e, [Plain(at[13]), Plain(at[21]), Plain(at[7]), Number(0), Plain(at[15])]);
    LineSmall(m, e, [Plain(at[17]), Number(79), Plain(at[8]), Number(75), Plain(at[8]), Plain(at[10])]);
    LineSmall(m, e, [Plain(at[16]), Number(0), Plain(at[15])]);
    IfElseSmall(m, e, OnNumber(at), OnWord(at), 60, 48, 2);
    SmallMore(m, e, test, 12, 0, 12, 3);
    BothSmall(m, e, test, IfElse(OnNumber(at), OnWord(at)), 12, 116, 3);
    SmallMore(m, e, refill, 24, 0, 24, 3);
    IfElseSmall(m, e, refill, Both(test, IfElse(OnNumber(at), OnWord(at))), 24, 128, 3);
    SmallMore(m, e, ask, 20, 0, 20, 4);
    BothSmall(m, e, ask, IfElse(refill, Both(test, IfElse(OnNumber(at), OnWord(at)))), 20, 160, 4);
    LoopSmall(m, e, Both(ask, IfElse(refill, Both(test, IfElse(OnNumber(at), OnWord(at))))), 180, 4);
    SmallMore(m, e, Interpret(at), 184, 5, 200, 5);
  }

  // The words bootstrap adds after INTERPRET.

  const LATER: seq<CoreWord> := [
    CoreWord("BASE", OP_BASE, 0), CoreWord("!", OP_STORE, 0), CoreWord("DECOMPILE", OP_DECOMPILE, 0),
      CoreWord("+", OP_ADD, 0)]

  // Words the compiler does not look up by their opcode.
  predicate NotLookedUp(w: CoreWord) {
    ShortName(w) && w.op !in {OP_PUSH, OP_JUMP, OP_JUMP_IF, OP_EXIT, OP_DOES_RT}
  }

  ghost function Shadow(older: Lookup, name: seq<byte>, word: seq<byte>, e: cell): Lookup {
    if SameLetters(name, word) then Found(e) else older
  }

  // What a running system needs of its dictionary: definitions, defining words
  // and ABORT find the words they look up.
  ghost predicate Equipped(st: State, w: Words, c: Core, k: Keywords, d: Definers) {
    && Ready(st, w, c, k, d.semi) && DefinersOk(st.mem, st.dictHead, d, Here(st.mem)) && Lookups(st.mem, st.dictHead)
  }

  // A new head that the defining words do not look up.
  lemma HeadDefiners(m: Memory, n: Memory, head: cell, e: cell, b: int, d: Definers)
    requires DefinersOk(m, head, d, e) && SameOn(m, n, SYSTEM_END, e) && Chain(m, head, e)
    requires SYSTEM_END <= e && e + DE_SIZE_MIN <= b <= SPACE_TOP
    requires Previous(n, e) == head && CodeField(n, e) != OP_DOES_RT
    ensures DefinersOk(n, e, d, b)
  {
    hide SameOn, CodeField, Previous, IsImmediate, Chain;
    ChainBound(m, head, e);
    DefinersFrame(m, n, head, d, e);
  }

  lemma EquippedIs(st: State, w: Words, c: Core, k: Keywords, d: Definers)
    requires Ready(st, w, c, k, d.semi) && DefinersOk(st.mem, st.dictHead, d, Here(st.mem))
    ensures Equipped(st, w, c, k, d) && Chain(st.mem, st.dictHead, Here(st.mem))
  {
    hide FindOpcode, Chain, KeywordOk, Below, CodeField, IsImmediate;
  }

  // One more core word on a dictionary that is ready for definitions.
  lemma OneMore(st: State, w: Words, c: Core, k: Keywords, d: Definers, cw: CoreWord) returns (s: State)
    requires Equipped(st, w, c, k, d) && NotLookedUp(cw) && Here(st.mem) + 24 <= SPACE_TOP
    ensures AddCore(st, cw) == Next(s, Wrap(st.ip + 2)) && s == st.(mem := s.mem, dictHead := Here(st.mem))
    ensures Equipped(s, w, c, k, d) && Here(st.mem) <= Here(s.mem) <= Here(st.mem) + 24
    ensures Holds(s.mem, s.dictHead, cw, Here(s.mem)) && SameOn(st.mem, s.mem, SYSTEM_END, Here(st.mem))
    ensures Chain(s.mem, s.dictHead, Here(s.mem)) && Chain(st.mem, st.dictHead, Here(st.mem))
    ensures forall name :: WordNamed(s.mem, s.dictHead, Here(s.mem), name) ==
                           Shadow(WordNamed(st.mem, st.dictHead, Here(st.mem), name), name, Bytes(cw.name), s.dictHead)
  {
    hide Fetch16, SameOn, CodeField, Previous, NameCount, FlagsByte, Bytes, Name, FindOpcode, Chain, AddCore, Placed;
    hide SameLetters, IsImmediate, DefinersOk, Lookups;
    var e := Here(st.mem);
    assert Sane(st);
    s := AddOne(st, cw);
    var b := Here(s.mem);
    HeadDictionary(st.mem, s.mem, st.dictHead, e, b, c, k);
    HeadDefiners(st.mem, s.mem, st.dictHead, e, b, d);
    KeywordFrame(st.mem, s.mem, d.semi, OP_SEMICOLON, e);
    forall xt | xt in w ensures Placed(s.mem, w, c, xt, b) {
      PlacedFrame(st.mem, s.mem, w, w, c, xt, e, b);
    }
    EquippedIs(s, w, c, k, d);
    forall name ensures WordNamed(s.mem, s.dictHead, b, name) ==
                        Shadow(WordNamed(st.mem, st.dictHead, e, name), name, Bytes(cw.name), s.dictHead)
    {
      HeadNamed(st.mem, s.mem, st.dictHead, e, b, name, Bytes(cw.name));
    }
  }

  lemma HeadNamed(m: Memory, n: Memory, head: cell, e: cell, b: int, name: seq<byte>, word: seq<byte>)
    requires Chain(m, head, e) && Chain(n, e, b) && SameOn(m, n, SYSTEM_END, e) && Previous(n, e) == head
             && Name(n, e) == word
    ensures WordNamed(n, e, b, name) == Shadow(WordNamed(m, head, e, name), name, word, e)
  {
    hide SameOn, Previous, NameCount, SameLetters, Name;
    WordNamedFrame(m, n, head, e, name);
    ChainBound(m, head, e);
  }

  lemma LaterWords()
    ensures |LATER| == 4 && (forall i :: 0 <= i < 4 ==> NotLookedUp(LATER[i]))
            && (forall i :: 0 <= i < 4 ==> ShortName(LATER[i]))
    ensures LATER[0] == CoreWord("BASE", OP_BASE, 0) && LATER[1] == CoreWord("!", OP_STORE, 0)
    ensures LATER[2] == CoreWord("DECOMPILE", OP_DECOMPILE, 0) && LATER[3] == CoreWord("+", OP_ADD, 0)
    ensures LATER[..1] == [LATER[0]] && LATER[..2][..1] == LATER[..1] && LATER[..3][..2] == LATER[..2]
  {
  }

  lemma AddFour(st: State, s1: State, s2: State, s3: State, s4: State)
    requires (forall i :: 0 <= i < |LATER| ==> ShortName(LATER[i])) && |LATER| == 4
    requires AddCore(st, LATER[0]) == Next(s1, Wrap(st.ip + 2)) && AddCore(s1, LATER[1]) == Next(s2, Wrap(s1.ip + 2))
    requires AddCore(s2, LATER[2]) == Next(s3, Wrap(s2.ip + 2)) && AddCore(s3, LATER[3]) == Next(s4, Wrap(s3.ip + 2))
    ensures AddAll(st, LATER) == Next(s4, Wrap(s3.ip + 2))
  {
    hide AddCore;
    var a, b, c := LATER[..1], LATER[..2], LATER[..3];
    assert a[..0] == [] && b[..1] == a && c[..2] == b;
    assert AddAll(st, a) == AddCore(st, LATER[0]);
    assert AddAll(st, b) == AddCore(s1, LATER[1]);
    assert AddAll(st, c) == AddCore(s2, LATER[2]);
  }

  ghost predicate AddsCore(st: State, s: State) {
    (forall i :: 0 <= i < |CORE| ==> ShortName(CORE[i])) && AddAll(st, CORE) == Next(s, Wrap(s.ip + 2))
  }

  // The newer words are found at es, every other name is what it was.
  ghost predicate NewNames(s: State, s': State, es: seq<cell>)
    requires |es| == 5 && Chain(s.mem, s.dictHead, Here(s.mem)) && Chain(s'.mem, s'.dictHead, Here(s'.mem))
  {
    forall name :: WordNamed(s'.mem, s'.dictHead, Here(s'.mem), name) ==
                   var l := Shadow(WordNamed(s.mem, s.dictHead, Here(s.mem), name), name, Bytes("INTERPRET"), es[0]);
                   var l := Shadow(Shadow(l, name, Bytes("BASE"), es[1]), name, Bytes("!"), es[2]);
                   Shadow(Shadow(l, name, Bytes("DECOMPILE"), es[3]), name, Bytes("+"), es[4])
  }

  // INTERPRET becomes a word, and no other name changes.
  lemma InterpretNamed(st: State, w: Words, c: Core, k: Keywords, d: Definers, p: Body) returns (s: State)
    requires Equipped(st, w, c, k, d) && CanName(st) && Nameable(st.mem, Here(st.mem), p)
    requires NewField(st) + Size(p) + 2 <= SPACE_TOP
    requires st.control.where + 2 * Nesting(p) + 2 <= CONTROL_TOP
    ensures Define(st, k, d.semi, p) == Next(s, s.ip) && Equipped(s, w[Here(st.mem) := Threaded(p)], c, k, d)
    ensures Here(s.mem) == NewField(st) + Size(p) + 2 && Here(st.mem) <= Here(s.mem)
    ensures SameOn(st.mem, s.mem, SYSTEM_END, Here(st.mem))
    ensures Chain(s.mem, s.dictHead, Here(s.mem)) && Chain(st.mem, st.dictHead, Here(st.mem))
    ensures forall name :: WordNamed(s.mem, s.dictHead, Here(s.mem), name) ==
                           Shadow(WordNamed(st.mem, st.dictHead, Here(st.mem), name), name, NewName(st), Here(st.mem))
  {
    hide Fetch16, SameOn, CodeField, Previous, NameCount, FindOpcode, Chain, KeywordOk, Define, Named, WordNamed;
    hide SameLetters;
    hide Size, Nesting, Nameable, WordBuffer, ReadToken, DefinersOk, Lookups, NewField, ParameterField, Callable;
    FieldBounds(st);
    var e, w' := Here(st.mem), w[Here(st.mem) := Threaded(p)];
    s := DefineWord(st, w, c, k, d.semi, p);
    assert Placed(s.mem, w', c, e, Here(s.mem));
    HeadDefiners(st.mem, s.mem, st.dictHead, e, Here(s.mem), d);
    EquippedIs(s, w', c, k, d);
    forall name ensures WordNamed(s.mem, s.dictHead, Here(s.mem), name) ==
                        Shadow(WordNamed(st.mem, st.dictHead, Here(st.mem), name), name, NewName(st), Here(st.mem))
    {
      var t := DefinitionMeaning(st, w, c, k, d.semi, p, name);
    }
  }

  // The words after INTERPRET.
  lemma LaterAdded(st: State, w: Words, c: Core, k: Keywords, d: Definers) returns (s: State, es: seq<cell>)
    requires Equipped(st, w, c, k, d) && Here(st.mem) + 96 <= SPACE_TOP
    ensures (forall i :: 0 <= i < |LATER| ==> ShortName(LATER[i])) && AddAll(st, LATER) == Next(s, Wrap(s.ip + 2))
    ensures |es| == 4 && Equipped(s, w, c, k, d) && Here(st.mem) <= Here(s.mem)
    ensures SameOn(st.mem, s.mem, SYSTEM_END, Here(st.mem))
    ensures Chain(s.mem, s.dictHead, Here(s.mem)) && Chain(st.mem, st.dictHead, Here(st.mem))
    ensures forall name :: WordNamed(s.mem, s.dictHead, Here(s.mem), name) ==
                   var l := WordNamed(st.mem, st.dictHead, Here(st.mem), name);
                   var l := Shadow(Shadow(l, name, Bytes("BASE"), es[0]), name, Bytes("!"), es[1]);
                   Shadow(Shadow(l, name, Bytes("DECOMPILE"), es[2]), name, Bytes("+"), es[3])
  {
    hide Fetch16, Equipped, Bytes, Chain, AddCore, AddAll, WordNamed, Shadow, LATER, Holds, SameOn;
    LaterWords();
    var s1 := OneMore(st, w, c, k, d, LATER[0]);
    var s2 := OneMore(s1, w, c, k, d, LATER[1]);
    var s3 := OneMore(s2, w, c, k, d, LATER[2]);
    s := OneMore(s3, w, c, k, d, LATER[3]);
    es := [s1.dictHead, s2.dictHead, s3.dictHead, s.dictHead];
    AddFour(st, s1, s2, s3, s);
    SameUp(st.mem, s1.mem, s2.mem, s3.mem, s.mem, Here(st.mem), Here(s1.mem), Here(s2.mem), Here(s3.mem));
  }

  lemma SameUp(m: Memory, m1: Memory, m2: Memory, m3: Memory, m4: Memory, h: int, h1: int, h2: int, h3: int)
    requires h <= h1 <= h2 <= h3 <= SPACE_TOP && SameOn(m, m1, SYSTEM_END, h) && SameOn(m1, m2, SYSTEM_END, h1)
    requires SameOn(m2, m3, SYSTEM_END, h2) && SameOn(m3, m4, SYSTEM_END, h3)
    ensures SameOn(m, m4, SYSTEM_END, h)
  {
  }

  // The whole of `bootstrap`: INTERPRET is compiled by the compiler proved above;
  // the four words after it join the dictionary; every name means what it meant,
  // or the newer word.  m is the dataspace after INTERPRET's source was pasted and
  // its `:` was read.
  lemma Started(st: State, m: Memory)
    returns (s0: State, s1: State, s2: State, s: State, at: seq<cell>, es: seq<cell>, c: Core, k: Keywords, d: Definers)
    requires StacksOk(st) && st.dictHead == 0 && Here(st.mem) == SYSTEM_END && Empty(st.control)
    requires Fetch16(st.mem, LOC_STATE) == INTERPRETING
    requires forall t: State :: AddsCore(st, t) && StacksOk(t) ==> Pasted(t, m)
    ensures AddsCore(st, s0) && |at| == 39 && s1 == s0.(mem := m) && StacksOk(s1) && |es| == 5
    ensures Define(s1, k, d.semi, Interpret(at)) == Next(s2, s2.ip)
    ensures (forall i :: 0 <= i < |LATER| ==> ShortName(LATER[i])) && AddAll(s2, LATER) == Next(s, Wrap(s.ip + 2))
    ensures Chain(s0.mem, s0.dictHead, Here(s0.mem)) && Chain(s.mem, s.dictHead, Here(s.mem)) && NewNames(s0, s, es)
    ensures Equipped(s, map[es[0] := Threaded(Interpret(at))], c, k, d)
    ensures CoreAt(s.mem, at, es[0])
  {
    hide Fetch16, SameOn, CodeField, Previous, NameCount, FlagsByte, Bytes, Name, FindOpcode, Chain, AddCore, KeywordOk;
    hide Below;
    hide AddAll, Holds, Define, CORE, LATER, Named, SameLetters, CanName, Interpret, WordNamed, Shadow, NewField, Size;
    hide Nesting;
    hide DefinersOk, Lookups, Dictionary;
    CoreShort();
    s0, at, c, k, d := Bootstrapped(st);
    assert AddsCore(st, s0) && Pasted(s0, m);
    s1 := s0.(mem := m);
    var b := Here(s0.mem);
    ReadyFrame(s0, s1, map[], c, k, d.semi);
    EquippedIs(s0, map[], c, k, d);
    SamePart(s0.mem, m, SYSTEM_END, SPACE_TOP, SYSTEM_END, b);
    DefinersFrame(s0.mem, m, s0.dictHead, d, b);
    EquippedIs(s1, map[], c, k, d);
    var p := Interpret(at);
    assert AllNameable(s1.mem, b, at) by { CoreNameable(s0, s1, at, b); }
    InterpretSmall(s1.mem, b, at);
    PastedRoom(s0, s1, m);
    s2 := InterpretNamed(s1, map[], c, k, d, p);
    var fs: seq<cell>;
    s, fs := LaterAdded(s2, map[][b := Threaded(p)], c, k, d);
    es := [b] + fs;
    SameUp(s0.mem, m, s2.mem, s.mem, s.mem, b, b, Here(s2.mem), Here(s2.mem));
    CoreStays(s0, s.mem, at);
    forall name
      ensures WordNamed(s1.mem, s1.dictHead, Here(s1.mem), name) == WordNamed(s0.mem, s0.dictHead, Here(s0.mem), name) {
      PastedNamed(s0, s1, name);
    }
  }

  // The core words are still where they were added, below INTERPRET.
  ghost predicate CoreAt(m: Memory, at: seq<cell>, e: cell) {
    |at| == |CORE| && forall i :: 0 <= i < |CORE| ==> Holds(m, at[i], CORE[i], e)
  }

  lemma CoreStays(t: State, m: Memory, at: seq<cell>)
    requires Booted(t, CORE, at) && SameOn(t.mem, m, SYSTEM_END, Here(t.mem))
    ensures CoreAt(m, at, Here(t.mem))
  {
    hide Fetch16, SameOn, Holds, CORE, FindOpcode, WordNamed, LastOp, LastName, Bytes;
    CoreShort();
    forall i | 0 <= i < |CORE| ensures Holds(m, at[i], CORE[i], Here(t.mem)) {
      HoldsFrame(t.mem, m, at[i], CORE[i], Here(t.mem), Here(t.mem));
    }
  }

  // INTERPRET is the next name in the input, and the dictionary is as it was.
  ghost predicate Pasted(t: State, m: Memory)
    requires StacksOk(t)
  {
    var s := t.(mem := m);
    && SameOn(t.mem, m, 0, LOC_INDEX) && SameOn(t.mem, m, SYSTEM_END, SPACE_TOP)
    && CanName(s) && NewName(s) == Bytes("INTERPRET")
  }

  lemma PastedRoom(t: State, s: State, m: Memory)
    requires StacksOk(t) && Pasted(t, m) && s == t.(mem := m) && Here(m) <= 0x1000
    ensures NewField(s) <= 0x1020
  {
    hide SameOn, Fetch16, ReadToken, WordBuffer;
    FieldBounds(s);
  }

  lemma PastedNamed(t: State, s: State, name: seq<byte>)
    requires StacksOk(t) && Pasted(t, s.mem) && s.dictHead == t.dictHead && Chain(t.mem, t.dictHead, Here(t.mem))
             && Here(s.mem) == Here(t.mem)
    ensures Chain(s.mem, s.dictHead, Here(s.mem))
    ensures WordNamed(s.mem, s.dictHead, Here(s.mem), name) == WordNamed(t.mem, t.dictHead, Here(t.mem), name)
  {
    hide Fetch16, SameOn, CanName, SameLetters;
    ChainBound(t.mem, t.dictHead, Here(t.mem));
    SamePart(t.mem, s.mem, SYSTEM_END, SPACE_TOP, SYSTEM_END, Here(t.mem));
    WordNamedFrame(t.mem, s.mem, t.dictHead, Here(t.mem), name);
  }

  lemma CoreNameable(t: State, s: State, at: seq<cell>, e: cell)
    requires Booted(t, CORE, at) && SameOn(t.mem, s.mem, SYSTEM_END, SPACE_TOP) && e == Here(t.mem) && |CORE| == 39
    ensures AllNameable(s.mem, e, at)
  {
    hide Fetch16, SameOn, CodeField, NameCount, Bytes, Name, FindOpcode, WordNamed, LastOp, LastName, CORE, FlagsByte;
    forall i | 0 <= i < 24 ensures Nameable(s.mem, e, Plain(at[i])) {
      assert Holds(t.mem, at[i], CORE[i], e);
      assert CORE[i].flags == 0 by { PlainFlags(); }
      HeaderKept(t.mem, s.mem, SYSTEM_END, SPACE_TOP, at[i]);
    }
  }

  lemma PlainFlags()
    ensures |CORE| == 39 && forall i :: 0 <= i < 24 ==> CORE[i].flags == 0
  {
  }
}
