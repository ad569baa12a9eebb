// Colon definitions from `:` to `;`: each one adds a word that means its body
// and leaves every older word as it was.
module ForthDefine {
  import opened Dataspace
  import opened ForthState
  import opened ForthWords
  import opened ForthSource
  import opened ForthSemantics
  import opened ForthCompile

  // The bytes the tokeniser leaves alone: all but >IN and the word buffer with
  // its terminator.
  predicate TokenKept(i: int) {
    0 <= i < LOC_INDEX || LOC_COUNT <= i < LOC_WORD_BUFFER || LOC_INPUT_BUFFER < i < SIZE
  }

  lemma ReadTokenFrame(m: Memory, d: byte)
    ensures forall i :: TokenKept(i) ==> ReadToken(m, d).0[i] == m[i]
    ensures ReadToken(m, d).1 ==> Fetch8(ReadToken(m, d).0, LOC_WORD_BUFFER) < 0x80
  {
  }

  lemma BlitAt(m: Memory, e: cell, bytes: seq<byte>)
    requires e + |bytes| <= SIZE
    ensures var n := Blit(m, e, bytes);
            && (forall i :: e <= i < e + |bytes| ==> n[i] == bytes[i - e])
            && SameOn(m, n, 0, e) && SameOn(m, n, e + |bytes|, SIZE)
  {
  }

  lemma HeaderFields(n: Memory, e: cell, previous: cell, flags: byte, op: byte, does: cell, count: byte)
    requires e + DE_SIZE_MIN <= SPACE_TOP
    requires n[e..e + 11]
             == [LowByte(previous), HighByte(previous), flags, 0, op, 0, 0, 0, LowByte(does), HighByte(does), count]
    ensures Previous(n, e) == previous && CodeField(n, e) == op && DoesCode(n, e) == does
    ensures NameCount(n, e) == count && FlagsByte(n, e) == flags
  {
    hide Fetch16, LowByte, HighByte;
    var b := n[e..e + 11];
    assert n[e] == b[0] && n[e + 1] == b[1] && n[e + 2] == b[2];
    assert n[e + 4] == b[4] && n[e + 5] == b[5] && n[e + 6] == b[6] && n[e + 7] == b[7];
    assert n[e + 8] == b[8] && n[e + 9] == b[9] && n[e + 10] == b[10];
    assert Wrap(e + 4) == e + 4 && Wrap(e + 4 + 2) == e + 6 && Wrap(e + 8) == e + 8;
    FetchBytes(n, e, previous);
    assert LowByte(op) == op && HighByte(op) == 0 && LowByte(0) == 0 && HighByte(0) == 0 by { ByteCell(op); }
    FetchBytes(n, e + 4, op);
    FetchBytes(n, e + 6, 0);
    FetchBytes(n, e + 8, does);
  }

  lemma ByteCell(b: byte)
    ensures LowByte(b) == b && HighByte(b) == 0 && LowByte(0) == 0 && HighByte(0) == 0
  {
  }

  lemma FetchBytes(n: Memory, a: cell, v: cell)
    requires a < 0xFFFF && n[a] == LowByte(v) && n[a + 1] == HighByte(v)
    ensures Fetch16(n, a) == v
  {
  }

  // The header and name that add_dict_entry writes.
  lemma EntryWritten(m: Memory, e: cell, previous: cell, flags: byte, op: byte, does: cell, name: seq<byte>)
    returns (n: Memory)
    requires |name| < 0x80 && e + DE_SIZE_MIN + |name| + 1 <= SPACE_TOP
    ensures n == Blit(m, e, HeaderBytes(previous, flags, op, does, name))
    ensures Previous(n, e) == previous && CodeField(n, e) == op && DoesCode(n, e) == does
    ensures NameCount(n, e) == |name| && FlagsByte(n, e) == flags
    ensures n[e + DE_NAME + 1..e + DE_NAME + 1 + |name|] == name
    ensures SameOn(m, n, 0, e) && SameOn(m, n, e + DE_NAME + 1 + |name|, SIZE)
  {
    hide Blit, SameOn;
    var bytes := HeaderBytes(previous, flags, op, does, name);
    n := Blit(m, e, bytes);
    BlitAt(m, e, bytes);
    assert n[e..e + |bytes|] == bytes;
    assert n[e..e + 11] == bytes[..11];
    assert n[e + 11..e + |bytes|] == bytes[11..];
    hide Fetch16, CodeField, Previous, NameCount, FlagsByte, DoesCode;
    HeaderFields(n, e, previous, flags, op, does, |name|);
  }

  // The dataspace after `:` or CREATE has read the name that follows it.
  function Named(st: State): Memory
    requires StacksOk(st) && !Full(st.data)
  {
    Store16(ReadToken(Store16(st.mem, st.data.where, 32), 32).0, st.data.where, LOC_WORD_BUFFER)
  }

  function NewName(st: State): seq<byte>
    requires StacksOk(st) && !Full(st.data)
  {
    WordBuffer(Named(st))
  }

  // A name follows and there is room for its header.
  predicate CanName(st: State)
    requires StacksOk(st)
  {
    && !Full(st.data)
    && ReadToken(Store16(st.mem, st.data.where, 32), 32).1
    && NewName(st) != []
    && Here(st.mem) + DE_SIZE_MIN + |NewName(st)| + 1 <= SPACE_TOP
  }

  lemma NamedFrame(st: State)
    requires StacksOk(st) && CanName(st)
    ensures SameOn(st.mem, Named(st), SYSTEM_END, SPACE_TOP) && SameOn(st.mem, Named(st), 0, LOC_INDEX)
    ensures |NewName(st)| < 0x80
    ensures SameOn(st.mem, Named(st), SYSTEM_END, st.data.where) && SameOn(st.mem, Named(st), DATA_TOP, SIZE)
  {
    hide ReadToken;
    var m := Store16(st.mem, st.data.where, 32);
    ReadTokenFrame(m, 32);
    var n := ReadToken(m, 32).0;
    assert SameOn(m, n, SYSTEM_END, SIZE) && SameOn(m, n, 0, LOC_INDEX);
  }

  lemma WordNames(st: State)
    requires StacksOk(st) && CanName(st)
    ensures var o := Word(PushData(st, 32));
            o.Next? && StacksOk(o.st) && !Empty(o.st.data)
            && DropData(o.st) == st.(mem := Named(st))
  {
    hide ReadToken, Fetch16, Store16;
    FetchStored(st.mem, st.data.where, 32);
  }

  function NewField(st: State): cell
    requires StacksOk(st) && CanName(st)
  {
    Align(Wrap(Here(st.mem) + DE_SIZE_MIN + |NewName(st)|))
  }

  lemma FieldBounds(st: State)
    requires StacksOk(st) && CanName(st)
    ensures var e, n := Here(st.mem), |NewName(st)|;
            && Wrap(e + DE_SIZE_MIN + n) == e + DE_SIZE_MIN + n
            && e + DE_SIZE_MIN + n <= NewField(st) <= SPACE_TOP
            && NewField(st) == Align(e + DE_SIZE_MIN + n)
  {
    hide ReadToken, Fetch16, Store16;
  }

  // The new entry at HERE and everything `:` leaves as it was.
  ghost predicate Opened(st: State, s: State)
    requires StacksOk(st) && CanName(st)
  {
    var e, b := Here(st.mem), NewField(st);
    && s == st.(mem := s.mem, dictHead := e)
    && Here(s.mem) == b && e + DE_SIZE_MIN <= b <= SPACE_TOP && e + DE_NAME + 1 + |NewName(st)| <= b
    && Previous(s.mem, e) == st.dictHead && CodeField(s.mem, e) == OP_ENTER && ParameterField(s.mem, e) == b
    && NameCount(s.mem, e) == |NewName(st)| && |NewName(st)| < 0x80
    && s.mem[e + DE_NAME + 1..e + DE_NAME + 1 + |NewName(st)|] == NewName(st)
    && FlagsByte(s.mem, e) == 33 && !IsImmediate(s.mem, e)
    && Fetch16(s.mem, LOC_STATE) == COMPILING
    && SameOn(st.mem, s.mem, SYSTEM_END, e)
    && SameOn(st.mem, s.mem, b, st.data.where) && SameOn(st.mem, s.mem, DATA_TOP, SIZE)
  }

  lemma OpenedMemory(m2: Memory, m4: Memory, e: cell, b: cell, count: byte, previous: cell)
    requires SYSTEM_END <= e && e + DE_SIZE_MIN <= b <= SPACE_TOP && count < 0x80
    requires m4 == Store16(Store16(m2, LOC_HERE, b), LOC_STATE, COMPILING)
    requires Previous(m2, e) == previous && CodeField(m2, e) == OP_ENTER && NameCount(m2, e) == count
    requires FlagsByte(m2, e) == 33 && b == Align(Wrap(e + DE_SIZE_MIN + count))
    ensures Here(m4) == b && Fetch16(m4, LOC_STATE) == COMPILING
    ensures Previous(m4, e) == previous && CodeField(m4, e) == OP_ENTER && NameCount(m4, e) == count
    ensures FlagsByte(m4, e) == 33 && !IsImmediate(m4, e) && ParameterField(m4, e) == b
    ensures SameOn(m2, m4, SYSTEM_END, SIZE)
  {
    hide Fetch16, Store16, Previous, CodeField, NameCount, FlagsByte, Align, ParameterField, IsImmediate;
    var m3 := Store16(m2, LOC_HERE, b);
    FetchStored(m2, LOC_HERE, b);
    FetchElsewhere(m3, LOC_STATE, COMPILING, LOC_HERE);
    FetchStored(m3, LOC_STATE, COMPILING);
    StoreOutside(m2, LOC_HERE, b, SYSTEM_END, SIZE);
    StoreOutside(m3, LOC_STATE, COMPILING, SYSTEM_END, SIZE);
    SamePart(m2, m4, SYSTEM_END, SIZE, SYSTEM_END, SPACE_TOP);
    NewHeader(m2, m4, e, b, count, previous);
  }

  lemma NewHeader(m2: Memory, m4: Memory, e: cell, b: cell, count: byte, previous: cell)
    requires SYSTEM_END <= e && e + DE_SIZE_MIN <= b <= SPACE_TOP && count < 0x80
    requires Previous(m2, e) == previous && CodeField(m2, e) == OP_ENTER && NameCount(m2, e) == count
    requires FlagsByte(m2, e) == 33 && b == Align(Wrap(e + DE_SIZE_MIN + count))
    requires SameOn(m2, m4, SYSTEM_END, SPACE_TOP)
    ensures Previous(m4, e) == previous && CodeField(m4, e) == OP_ENTER && NameCount(m4, e) == count
    ensures FlagsByte(m4, e) == 33 && !IsImmediate(m4, e) && ParameterField(m4, e) == b
  {
    hide SameOn, Previous, CodeField, NameCount, FlagsByte, DoesCode, Align;
    HeaderKept(m2, m4, SYSTEM_END, SPACE_TOP, e);
  }

  lemma ColonOpens(st: State) returns (s: State)
    requires StacksOk(st) && CanName(st) && SYSTEM_END <= Here(st.mem)
    ensures Colon(st) == Next(s, Wrap(st.ip + 2)) && Opened(st, s)
  {
    hide ReadToken, Fetch16, Store16, Blit, Word, HeaderBytes, Named, SameOn, CodeField, Previous, DoesCode, FlagsByte;
    hide AbortState;
    hide ParameterField, IsImmediate, NameCount, Align, Wrap, NewField;
    FieldBounds(st);
    var e, b, name := Here(st.mem), NewField(st), NewName(st);
    NamedFrame(st);
    WordNames(st);
    FetchSame(st.mem, Named(st), 0, LOC_INDEX, LOC_HERE);
    var m1 := Named(st);
    var m2 := EntryWritten(m1, e, st.dictHead, 33, OP_ENTER, 0, name);
    var m4 := Store16(Store16(m2, LOC_HERE, b), LOC_STATE, COMPILING);
    s := st.(mem := m4, dictHead := e);
    assert Colon(st) == Next(s, Wrap(st.ip + 2));
    OpenedMemory(m2, m4, e, b, |name|, st.dictHead);
    assert SameOn(st.mem, m4, SYSTEM_END, e) && SameOn(st.mem, m4, b, st.data.where)
      && SameOn(st.mem, m4, DATA_TOP, SIZE)
           && m4[e + DE_NAME + 1..e + DE_NAME + 1 + |name|] == m2[e + DE_NAME + 1..e + DE_NAME + 1 + |name|] by {
      OpenedFrame(st.mem, m1, m2, m4, e, b, |name|, st.data.where);
    }
  }

  lemma OpenedFrame(m: Memory, m1: Memory, m2: Memory, m4: Memory, e: cell, b: cell, count: nat, data: cell)
    requires SYSTEM_END <= e && e + DE_NAME + 1 + count <= b <= SPACE_TOP && DATA_BOTTOM <= data <= DATA_TOP
    requires SameOn(m, m1, SYSTEM_END, data) && SameOn(m, m1, DATA_TOP, SIZE)
    requires SameOn(m1, m2, 0, e) && SameOn(m1, m2, e + DE_NAME + 1 + count, SIZE)
    requires SameOn(m2, m4, SYSTEM_END, SIZE)
    ensures SameOn(m, m4, SYSTEM_END, e) && SameOn(m, m4, b, data) && SameOn(m, m4, DATA_TOP, SIZE)
    ensures m4[e + DE_NAME + 1..e + DE_NAME + 1 + count] == m2[e + DE_NAME + 1..e + DE_NAME + 1 + count]
  {
  }

  // `;` at a touches nothing above the system variables but the cell it
  // appends, the flags of the head entry and free stack space.
  ghost predicate Closed(m: Memory, n: Memory, a: int, head: int, data: int) {
    forall i :: SYSTEM_END <= i < SIZE && i != head + DE_FLAGS && !(a <= i < a + 2) && !(data <= i < DATA_TOP) ==>
      m[i] == n[i]
  }

  // The dirty flag, worth 32, is off in g, and the other flags are those of f.
  ghost predicate Clean(f: byte, g: byte) {
    g / 32 % 2 == 0 && g % 32 == f % 32 && g / 64 == f / 64
  }

  // `;` after the body.
  lemma SemicolonToken(st: State, c: Core, k: Keywords, base: int, semi: cell) returns (s: State)
    requires Compiling(st, c, k, base) && Room(st, 2) && KeywordOk(st.mem, semi, OP_SEMICOLON, base)
    requires SYSTEM_END <= st.dictHead && st.dictHead + DE_SIZE_MIN <= base
    ensures CompileToken(st, Entry(semi)).Next? && CompileToken(st, Entry(semi)).st == s
    ensures s == st.(mem := s.mem) && CodeAt(s.mem, Here(st.mem), [c.exit])
    ensures Here(s.mem) == Here(st.mem) + 2 && Fetch16(s.mem, LOC_STATE) == INTERPRETING
    ensures Closed(st.mem, s.mem, Here(st.mem), st.dictHead, st.data.where)
    ensures IsImmediate(s.mem, st.dictHead) == IsImmediate(st.mem, st.dictHead)
    ensures Clean(FlagsByte(st.mem, st.dictHead), FlagsByte(s.mem, st.dictHead))
  {
    hide Fetch16, Store16, AbortState, FindOpcode, Chain, KeywordOk, SameOn, Execute, Comma, CodeField, Closed;
    hide FlagsByte, IsImmediate;
    var a, d, h := Here(st.mem), st.data.where, st.dictHead;
    var s1 := KeywordToken(st, c, k, base, semi, OP_SEMICOLON);
    var m1 := s1.mem;
    var m2 := Store16(m1, a, c.exit);
    var m3 := Store16(m2, LOC_HERE, a + 2);
    var m4 := Store16(m3, LOC_STATE, INTERPRETING);
    var f := Fetch8(m4, h + DE_FLAGS);
    var m5 := Store8(m4, h + DE_FLAGS, if f / 32 % 2 == 1 then f - 32 else f);
    s := st.(mem := m5);
    assert Semicolon(s1) == Continue(s);
    FetchStored(m1, a, c.exit);
    FetchElsewhere(m2, LOC_HERE, a + 2, a);
    FetchElsewhere(m3, LOC_STATE, INTERPRETING, a);
    FetchStored(m2, LOC_HERE, a + 2);
    FetchElsewhere(m3, LOC_STATE, INTERPRETING, LOC_HERE);
    FetchStored(m3, LOC_STATE, INTERPRETING);
    ByteStored(m4, h + DE_FLAGS, if f / 32 % 2 == 1 then f - 32 else f, a);
    ByteStored(m4, h + DE_FLAGS, if f / 32 % 2 == 1 then f - 32 else f, LOC_HERE);
    ByteStored(m4, h + DE_FLAGS, if f / 32 % 2 == 1 then f - 32 else f, LOC_STATE);
    CloseFrame(st.mem, m1, m2, m3, m4, m5, a, d, h, semi, c.exit);
  }

  lemma ByteStored(m: Memory, a: cell, v: byte, b: cell)
    requires b < 0xFFFF && a != b && a != b + 1
    ensures Fetch16(Store8(m, a, v), b) == Fetch16(m, b)
  {
  }

  lemma CloseFrame(m: Memory, m1: Memory, m2: Memory, m3: Memory, m4: Memory, m5: Memory, a: cell, d: cell, h: cell,
      x: cell, y: cell)
    requires SYSTEM_END <= h && h + DE_SIZE_MIN <= a && a + 2 <= SPACE_TOP && DATA_BOTTOM <= d < DATA_TOP - 2
    requires m1 == Store16(m, d, x) && m2 == Store16(m1, a, y)
    requires m3 == Store16(m2, LOC_HERE, a + 2) && m4 == Store16(m3, LOC_STATE, INTERPRETING)
    requires var f := Fetch8(m4, h + DE_FLAGS); m5 == Store8(m4, h + DE_FLAGS, if f / 32 % 2 == 1 then f - 32 else f)
    ensures Closed(m, m5, a, h, d)
    ensures IsImmediate(m5, h) == IsImmediate(m, h) && Clean(FlagsByte(m, h), FlagsByte(m5, h))
  {
    hide Closed, Clean, IsImmediate;
    assert m4[h + DE_FLAGS] == m[h + DE_FLAGS];
    FlagCleared(m[h + DE_FLAGS], m5[h + DE_FLAGS], m, m5, h);
    assert Closed(m, m5, a, h, d) by { ClosedFrame(m, m1, m2, m3, m4, m5, a, d, h, x, y); }
  }

  lemma FlagCleared(f: byte, g: byte, m: Memory, n: Memory, h: cell)
    requires h + DE_SIZE_MIN <= SPACE_TOP && f == FlagsByte(m, h) && g == FlagsByte(n, h)
    requires g == if f / 32 % 2 == 1 then f - 32 else f
    ensures Clean(f, g) && IsImmediate(n, h) == IsImmediate(m, h)
  {
    WithoutDirty(f, g);
  }

  lemma WithoutDirty(f: byte, g: byte)
    requires g == if f / 32 % 2 == 1 then f - 32 else f
    ensures g / 32 % 2 == 0 && g % 32 == f % 32 && g / 64 == f / 64 && g / 2 % 2 == f / 2 % 2
  {
    assert f == f / 32 * 32 + f % 32;
    assert f / 32 % 2 == 1 ==> g / 32 == f / 32 - 1;
  }

  lemma ClosedFrame(m: Memory, m1: Memory, m2: Memory, m3: Memory, m4: Memory, m5: Memory, a: cell, d: cell, h: cell,
      x: cell, y: cell)
    requires SYSTEM_END <= h && h + DE_SIZE_MIN <= a && a + 2 <= SPACE_TOP && DATA_BOTTOM <= d < DATA_TOP - 2
    requires m1 == Store16(m, d, x) && m2 == Store16(m1, a, y)
    requires m3 == Store16(m2, LOC_HERE, a + 2) && m4 == Store16(m3, LOC_STATE, INTERPRETING)
    requires m5 == Store8(m4, h + DE_FLAGS, m5[h + DE_FLAGS])
    ensures Closed(m, m5, a, h, d)
  {
  }

  // Between definitions: interpreting, with a sound dictionary below HERE.
  ghost predicate Ready(st: State, w: Words, c: Core, k: Keywords, semi: cell) {
    && StacksOk(st) && Fetch16(st.mem, LOC_STATE) == INTERPRETING
    && SYSTEM_END <= Here(st.mem) <= SPACE_TOP
    && Dictionary(st.mem, st.dictHead, c, k, Here(st.mem))
    && KeywordOk(st.mem, semi, OP_SEMICOLON, Here(st.mem))
    && Below(st.mem, w, c, Here(st.mem))
  }

  // New input does not disturb the dictionary.
  lemma ReadyFrame(st: State, s: State, w: Words, c: Core, k: Keywords, semi: cell)
    requires Ready(st, w, c, k, semi) && s == st.(mem := s.mem)
    requires SameOn(st.mem, s.mem, 0, LOC_INDEX) && SameOn(st.mem, s.mem, SYSTEM_END, SPACE_TOP)
    ensures Ready(s, w, c, k, semi) && Here(s.mem) == Here(st.mem)
  {
    hide Fetch16, SameOn, Below, Dictionary;
    var h := Here(st.mem);
    FetchSame(st.mem, s.mem, 0, LOC_INDEX, LOC_HERE);
    FetchSame(st.mem, s.mem, 0, LOC_INDEX, LOC_STATE);
    SamePart(st.mem, s.mem, SYSTEM_END, SPACE_TOP, SYSTEM_END, h);
    DictionaryFrame(st.mem, s.mem, st.dictHead, c, k, h);
    KeywordFrame(st.mem, s.mem, semi, OP_SEMICOLON, h);
    BelowFrame(st.mem, s.mem, w, c, h);
  }

  // The words of a body are entries below e, or the one being defined, and not
  // immediate.  They need not have a meaning of their own.
  ghost predicate Nameable(m: Memory, e: cell, p: Body) {
    match p
    case Nothing => true
    case Plain(xt) => xt == e || (SYSTEM_END <= xt && xt + DE_SIZE_MIN <= e && !IsImmediate(m, xt))
    case Number(_) => true
    case Both(p, q) => Nameable(m, e, p) && Nameable(m, e, q)
    case IfThen(p) => Nameable(m, e, p)
    case IfElse(p, q) => Nameable(m, e, p) && Nameable(m, e, q)
    case Loop(p) => Nameable(m, e, p)
  }

  lemma {:induction false} NameableOk(m: Memory, n: Memory, e: cell, p: Body, bound: nat)
    requires SameOn(m, n, SYSTEM_END, e) && Nameable(m, e, p) && e <= SPACE_TOP
    requires SYSTEM_END <= e && e + DE_SIZE_MIN <= bound <= SPACE_TOP && !IsImmediate(n, e)
    ensures WordsOk(n, p, bound)
    decreases p
  {
    hide SameOn, IsImmediate;
    match p
    case Nothing =>
    case Plain(xt) =>
      if xt != e {
        HeaderKept(m, n, SYSTEM_END, e, xt);
      }
    case Number(_) =>
    case Both(p, q) => NameableOk(m, n, e, p, bound); NameableOk(m, n, e, q, bound);
    case IfThen(p) => NameableOk(m, n, e, p, bound);
    case IfElse(p, q) => NameableOk(m, n, e, p, bound); NameableOk(m, n, e, q, bound);
    case Loop(p) => NameableOk(m, n, e, p, bound);
  }

  // `: name body ;` from the first token to the last.
  function Define(st: State, k: Keywords, semi: cell, p: Body): Outcome
    requires StacksOk(st)
  {
    match Colon(st)
    case Stop(why) => Stop(why)
    case Next(s, _) => CompileTokens(s, Tokens(k, p) + [Entry(semi)])
  }

  // A new head on a sound dictionary.
  lemma HeadDictionary(m: Memory, n: Memory, head: cell, e: cell, b: int, c: Core, k: Keywords)
    requires Dictionary(m, head, c, k, e) && SameOn(m, n, SYSTEM_END, e)
    requires SYSTEM_END <= e && e + DE_SIZE_MIN <= b <= SPACE_TOP
    requires Previous(n, e) == head && CodeField(n, e) !in {OP_PUSH, OP_JUMP, OP_JUMP_IF, OP_EXIT}
    requires NameCount(n, e) < 0x80 && e + DE_NAME + 1 + NameCount(n, e) <= b
    ensures Dictionary(n, e, c, k, b)
  {
    hide Fetch16, SameOn, CodeField, Previous, NameCount, IsImmediate;
    DictionaryFrame(m, n, head, c, k, e);
    assert Chain(n, e, b);
    assert FindOpcode(n, e, OP_PUSH) == FindOpcode(n, head, OP_PUSH);
    assert FindOpcode(n, e, OP_JUMP) == FindOpcode(n, head, OP_JUMP);
    assert FindOpcode(n, e, OP_JUMP_IF) == FindOpcode(n, head, OP_JUMP_IF);
    assert FindOpcode(n, e, OP_EXIT) == FindOpcode(n, head, OP_EXIT);
  }

  lemma ClosedHeader(m: Memory, n: Memory, a: int, e: cell, data: int)
    requires Closed(m, n, a, e, data) && SYSTEM_END <= e && e + DE_SIZE_MIN <= a <= SPACE_TOP && DATA_BOTTOM <= data
    ensures Previous(n, e) == Previous(m, e) && CodeField(n, e) == CodeField(m, e)
    ensures NameCount(n, e) == NameCount(m, e) && ParameterField(n, e) == ParameterField(m, e)
    ensures SameOn(m, n, SYSTEM_END, e) && SameOn(m, n, e + DE_SIZE_MIN, a)
    ensures SameOn(m, n, e + DE_NAME, a)
  {
    hide Fetch16, Align;
    assert SameOn(m, n, e, e + 2) && SameOn(m, n, e + 3, a);
    FetchSame(m, n, e, e + 2, e);
    FetchSame(m, n, e + 3, a, e + DE_CODE_FIELD);
    FetchSame(m, n, e + 3, a, e + DE_CODE_FIELD + 2);
  }

  // The state after `:` is ready to compile.
  lemma OpenCompiles(st: State, s: State, w: Words, c: Core, k: Keywords, semi: cell, p: Body)
    requires Ready(st, w, c, k, semi) && CanName(st) && Opened(st, s) && Nameable(st.mem, Here(st.mem), p)
    ensures Compiling(s, c, k, NewField(st)) && WordsOk(s.mem, p, NewField(st))
    ensures KeywordOk(s.mem, semi, OP_SEMICOLON, NewField(st))
  {
    hide Fetch16, SameOn, CodeField, Previous, NameCount, IsImmediate, Named, ParameterField, Below, Nameable, WordsOk;
    hide Dictionary;
    var e, b := Here(st.mem), NewField(st);
    HeadDictionary(st.mem, s.mem, st.dictHead, e, b, c, k);
    NameableOk(st.mem, s.mem, e, p, b);
    KeywordFrame(st.mem, s.mem, semi, OP_SEMICOLON, e);
  }

  // The new word and the old ones, after `;`.
  lemma DefinedBelow(st: State, s1: State, s2: State, s: State, w: Words, c: Core, p: Body)
    requires StacksOk(st) && CanName(st) && Opened(st, s1) && SYSTEM_END <= Here(st.mem)
    requires Below(st.mem, w, c, Here(st.mem))
    requires SameOn(s1.mem, s2.mem, SYSTEM_END, NewField(st))
    requires NewField(st) + Size(p) + 2 <= SPACE_TOP && CodeAt(s2.mem, NewField(st), Code(c, p, NewField(st)))
    requires Closed(s2.mem, s.mem, NewField(st) + Size(p), Here(st.mem), st.data.where) && StacksOk(s2)
    requires CodeAt(s.mem, NewField(st) + Size(p), [c.exit])
    ensures Below(s.mem, w[Here(st.mem) := Threaded(p)], c, NewField(st) + Size(p) + 2)
    ensures SameOn(st.mem, s.mem, SYSTEM_END, Here(st.mem))
    ensures Previous(s.mem, Here(st.mem)) == st.dictHead && CodeField(s.mem, Here(st.mem)) == OP_ENTER
    ensures NameCount(s.mem, Here(st.mem)) == |NewName(st)|
  {
    hide Fetch16, CodeField, Previous, NameCount, IsImmediate, Named, ParameterField, Code, Size, Closed, SameOn;
    hide CodeAt, DoesCode;
    var e, b, a := Here(st.mem), NewField(st), NewField(st) + Size(p);
    var w' := w[e := Threaded(p)];
    ClosedHeader(s2.mem, s.mem, a, e, st.data.where);
    HeaderKept(s1.mem, s2.mem, SYSTEM_END, b, e);
    SameTrans(st.mem, s1.mem, s2.mem, s.mem, SYSTEM_END, e, b);
    SamePart(s2.mem, s.mem, e + DE_SIZE_MIN, a, b, a);
    CodeFrame(s2.mem, s.mem, b, Code(c, p, b));
    CodeSplit(s.mem, b, Code(c, p, b), [c.exit]);
    forall xt | xt in w' ensures Placed(s.mem, w', c, xt, a + 2) {
      if xt != e {
        PlacedFrame(st.mem, s.mem, w, w', c, xt, e, a + 2);
      }
    }
  }

  lemma SameTrans(m: Memory, m1: Memory, m2: Memory, n: Memory, lo: int, hi: int, bound: int)
    requires SameOn(m, m1, lo, hi) && SameOn(m1, m2, lo, bound) && SameOn(m2, n, lo, hi) && hi <= bound <= SIZE
    ensures SameOn(m, n, lo, hi)
  {
  }

  // The name is not written over.
  lemma NameStays(m1: Memory, m2: Memory, m: Memory, e: cell, b: cell, a: nat, count: nat, data: cell)
    requires SYSTEM_END <= e && e + DE_NAME + 1 + count <= b <= a && a + 2 <= SPACE_TOP && DATA_BOTTOM <= data
    requires SameOn(m1, m2, SYSTEM_END, b) && Closed(m2, m, a, e, data)
    ensures m[e + DE_NAME + 1..e + DE_NAME + 1 + count] == m1[e + DE_NAME + 1..e + DE_NAME + 1 + count]
  {
  }

  lemma CleanFlags(m1: Memory, m2: Memory, n: Memory, e: cell, b: int)
    requires FlagsByte(m1, e) == 33 && SameOn(m1, m2, SYSTEM_END, b) && SYSTEM_END <= e && e + DE_SIZE_MIN <= b <= SIZE
    requires Clean(FlagsByte(m2, e), FlagsByte(n, e))
    ensures FlagsByte(n, e) == EF_MACHINE_CODE
  {
  }

  // The states after `:`, after the body and after `;`.
  lemma DefineTurns(st: State, w: Words, c: Core, k: Keywords, semi: cell, p: Body)
    returns (s1: State, s2: State, s: State)
    requires Ready(st, w, c, k, semi) && CanName(st) && Nameable(st.mem, Here(st.mem), p)
    requires NewField(st) + Size(p) + 2 <= SPACE_TOP
    requires st.control.where + 2 * Nesting(p) + 2 <= CONTROL_TOP
    ensures CodeAt(s2.mem, NewField(st), Code(c, p, NewField(st)))
    ensures CodeAt(s.mem, NewField(st) + Size(p), [c.exit]) && Here(s.mem) == NewField(st) + Size(p) + 2
    ensures Define(st, k, semi, p) == Next(s, s.ip) && StacksOk(s1) && StacksOk(s2) && Opened(st, s1)
    ensures SameOn(s1.mem, s2.mem, SYSTEM_END, NewField(st)) && StacksOk(s) && s.dictHead == Here(st.mem)
    ensures Closed(s2.mem, s.mem, NewField(st) + Size(p), Here(st.mem), st.data.where)
    ensures Fetch16(s.mem, LOC_STATE) == INTERPRETING && FlagsByte(s.mem, Here(st.mem)) == EF_MACHINE_CODE
    ensures s.data == st.data && s.control == st.control && s.ret == st.ret && s.recover == st.recover
  {
    hide Fetch16, Store16, SameOn, CodeField, Previous, NameCount, IsImmediate, Named, ParameterField, Below, Nameable;
    hide WordsOk, Dictionary;
    hide Code, Size, Nesting, Closed, CodeAt, CompileTokens, CompileToken, Tokens, SameBut, Colon;
    hide ReadToken, WordBuffer, AbortState, Chain, FindOpcode, FlagsByte, Clean;
    var b := NewField(st);
    s1 := ColonOpens(st);
    OpenCompiles(st, s1, w, c, k, semi, p);
    s2 := CompileBody(s1, c, k, b, p);
    Protected(s1.mem, s2.mem, b, b + Size(p), s1.data.where, s1.control.where, b);
    KeywordFrame(s1.mem, s2.mem, semi, OP_SEMICOLON, b);
    s := SemicolonToken(s2, c, k, b, semi);
    OneToken(s2, Entry(semi));
    CompileAppend(s1, Tokens(k, p), [Entry(semi)]);
    CleanFlags(s1.mem, s2.mem, s.mem, s.dictHead, b);
  }

  // One whole colon definition: the dictionary gains a word that means its
  // body, recursion included, and keeps every other word; the stacks and the
  // mode are as before.
  lemma DefineWord(st: State, w: Words, c: Core, k: Keywords, semi: cell, p: Body) returns (s: State)
    requires Ready(st, w, c, k, semi) && CanName(st) && Nameable(st.mem, Here(st.mem), p)
    requires NewField(st) + Size(p) + 2 <= SPACE_TOP
    requires st.control.where + 2 * Nesting(p) + 2 <= CONTROL_TOP
    ensures Define(st, k, semi, p) == Next(s, s.ip) && s.dictHead == Here(st.mem)
    ensures Ready(s, w[Here(st.mem) := Threaded(p)], c, k, semi) && Here(s.mem) == NewField(st) + Size(p) + 2
    ensures NameCount(s.mem, s.dictHead) == |NewName(st)| < 0x80
    ensures s.dictHead + DE_NAME + 1 + |NewName(st)| <= Here(s.mem)
    ensures s.mem[s.dictHead + DE_NAME + 1..s.dictHead + DE_NAME + 1 + |NewName(st)|] == NewName(st)
    ensures SameOn(st.mem, s.mem, SYSTEM_END, Here(st.mem)) && Previous(s.mem, s.dictHead) == st.dictHead
    ensures FlagsByte(s.mem, s.dictHead) == EF_MACHINE_CODE
    ensures s.data == st.data && s.control == st.control && s.ret == st.ret && s.recover == st.recover
  {
    hide Fetch16, Store16, SameOn, CodeField, Previous, NameCount, IsImmediate, Named, ParameterField, Below, Nameable;
    hide WordsOk, Dictionary;
    hide Code, Size, Nesting, Closed, CodeAt, Colon, Define, FlagsByte, Clean;
    var e, b := Here(st.mem), NewField(st);
    var s1, s2, s' := DefineTurns(st, w, c, k, semi, p);
    s := s';
    DefinedBelow(st, s1, s2, s, w, c, p);
    HeadDictionary(st.mem, s.mem, st.dictHead, e, b + Size(p) + 2, c, k);
    KeywordFrame(st.mem, s.mem, semi, OP_SEMICOLON, e);
    NameStays(s1.mem, s2.mem, s.mem, e, b, b + Size(p), |NewName(st)|, st.data.where);
  }
}
