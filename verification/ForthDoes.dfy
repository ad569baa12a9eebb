// Defining words: `: d CREATE , DOES> body ;` compiled, run to make a new word,
// and the new word run.
module ForthDoes {
  import opened Dataspace
  import opened ForthState
  import opened ForthWords
  import opened ForthSource
  import opened ForthSemantics
  import opened ForthCompile
  import opened ForthRun
  import opened ForthMeaning
  import opened ForthDefine
  import opened ForthTheorem

  // The words `: d CREATE , DOES> body ;` is spelled with, besides the body's.
  datatype Definers = Definers(create: cell, comma: cell, does: cell, doesRt: cell, semi: cell)

  ghost predicate DefinersOk(m: Memory, head: cell, d: Definers, bound: int) {
    && FindOpcode(m, head, OP_DOES_RT) == Found(d.doesRt)
    && KeywordOk(m, d.does, OP_DOES, bound) && KeywordOk(m, d.semi, OP_SEMICOLON, bound)
    && SYSTEM_END <= d.create && d.create + DE_SIZE_MIN <= bound && !IsImmediate(m, d.create)
    && CodeField(m, d.create) == OP_CREATE
    && SYSTEM_END <= d.comma && d.comma + DE_SIZE_MIN <= bound && !IsImmediate(m, d.comma)
    && CodeField(m, d.comma) == OP_COMMA
  }

  lemma DefinersFrame(m: Memory, n: Memory, head: cell, d: Definers, bound: int)
    requires DefinersOk(m, head, d, bound) && SameOn(m, n, SYSTEM_END, bound) && Chain(m, head, bound)
    ensures DefinersOk(n, head, d, bound)
  {
    hide SameOn, CodeField, IsImmediate, Chain, FindOpcode;
    ChainBound(m, head, bound);
    FindOpcodeFrame(m, n, head, bound, OP_DOES_RT);
    KeywordFrame(m, n, d.does, OP_DOES, bound);
    KeywordFrame(m, n, d.semi, OP_SEMICOLON, bound);
    HeaderKept(m, n, SYSTEM_END, bound, d.create);
    HeaderKept(m, n, SYSTEM_END, bound, d.comma);
  }

  // DOES> lays DOES_RT and EXIT and records where the code after them starts.
  lemma DoesToken(st: State, c: Core, k: Keywords, base: int, d: Definers) returns (s: State)
    requires Compiling(st, c, k, base) && Room(st, 4)
    requires KeywordOk(st.mem, d.does, OP_DOES, base) && FindOpcode(st.mem, st.dictHead, OP_DOES_RT) == Found(d.doesRt)
    requires SYSTEM_END <= st.dictHead && st.dictHead + DE_SIZE_MIN <= base
    ensures var a := Here(st.mem);
            && CompileToken(st, Entry(d.does)).Next? && CompileToken(st, Entry(d.does)).st == s
            && s == st.(mem := s.mem) && CodeAt(s.mem, a, [d.doesRt, c.exit]) && Here(s.mem) == a + 4
            && DoesCode(s.mem, st.dictHead) == a + 4 && Fetch16(s.mem, LOC_STATE) == COMPILING
            && DoesSame(st.mem, s.mem, a, st.dictHead, st.data.where)
  {
    hide Fetch16, Store16, AbortState, FindOpcode, Chain, KeywordOk, SameOn, SameBut, Execute, Comma, CodeField;
    hide DoesSame;
    var a, w, e := Here(st.mem), st.data.where, st.dictHead;
    var s1 := KeywordToken(st, c, k, base, d.does, OP_DOES);
    var m1 := s1.mem;
    var m2 := Store16(m1, a, d.doesRt);
    var m3 := Store16(m2, a + 2, c.exit);
    var m4 := Store16(m3, LOC_HERE, a + 4);
    var m5 := Store16(m4, e + DE_DOES_CODE, a + 4);
    s := st.(mem := m5);
    LookupAfter(st, m1, c, base, OP_DOES_RT, d.does);
    LookupAfter(s1, m2, c, base, OP_EXIT, d.doesRt);
    assert Does(s1) == Continue(s);
    FetchStored(m1, a, d.doesRt);
    FetchElsewhere(m2, a + 2, c.exit, a);
    FetchElsewhere(m3, LOC_HERE, a + 4, a);
    FetchElsewhere(m4, e + DE_DOES_CODE, a + 4, a);
    FetchStored(m2, a + 2, c.exit);
    FetchElsewhere(m3, LOC_HERE, a + 4, a + 2);
    FetchElsewhere(m4, e + DE_DOES_CODE, a + 4, a + 2);
    FetchStored(m3, LOC_HERE, a + 4);
    FetchElsewhere(m4, e + DE_DOES_CODE, a + 4, LOC_HERE);
    FetchStored(m4, e + DE_DOES_CODE, a + 4);
    FetchElsewhere(m1, a, d.doesRt, LOC_STATE);
    FetchElsewhere(m2, a + 2, c.exit, LOC_STATE);
    FetchElsewhere(m3, LOC_HERE, a + 4, LOC_STATE);
    FetchElsewhere(m4, e + DE_DOES_CODE, a + 4, LOC_STATE);
    DoesFrame(st.mem, m1, m2, m3, m4, m5, a, w, e, d.does, d.doesRt, c.exit);
  }

  // A write at or above base does not change a search of the chain below it.
  lemma LookupAfter(st: State, n: Memory, c: Core, base: int, op: nat, v: cell)
    requires StacksOk(st) && Chain(st.mem, st.dictHead, base) && base <= Here(st.mem) && Here(st.mem) + 4 <= SPACE_TOP
    requires n == Store16(st.mem, st.data.where, v) || n == Store16(st.mem, Here(st.mem), v)
    ensures FindOpcode(n, st.dictHead, op) == FindOpcode(st.mem, st.dictHead, op)
  {
    hide Fetch16, Store16, FindOpcode, Chain, SameOn;
    var x := if n == Store16(st.mem, Here(st.mem), v) then Here(st.mem) else st.data.where;
    ChainBound(st.mem, st.dictHead, base);
    StoreOutside(st.mem, x, v, SYSTEM_END, base);
    FindOpcodeFrame(st.mem, n, st.dictHead, base, op);
  }

  // What DOES> at a leaves alone above the system variables.
  predicate DoesKept(i: int, a: int, head: int, data: int) {
    && SYSTEM_END <= i < SIZE && !(head + DE_DOES_CODE <= i < head + DE_DOES_CODE + 2)
    && !(a <= i < a + 4) && !(data <= i < DATA_TOP)
  }

  ghost predicate DoesSame(m: Memory, n: Memory, a: int, head: int, data: int) {
    forall i :: DoesKept(i, a, head, data) ==> m[i] == n[i]
  }

  lemma DoesFrame(m: Memory, m1: Memory, m2: Memory, m3: Memory, m4: Memory, m5: Memory, a: cell, w: cell, e: cell,
      x: cell, y: cell, z: cell)
    requires SYSTEM_END <= e && e + DE_SIZE_MIN <= a && a + 4 <= SPACE_TOP && DATA_BOTTOM <= w < DATA_TOP - 2
    requires m1 == Store16(m, w, x) && m2 == Store16(m1, a, y) && m3 == Store16(m2, a + 2, z)
    requires m4 == Store16(m3, LOC_HERE, a + 4) && m5 == Store16(m4, e + DE_DOES_CODE, a + 4)
    ensures DoesSame(m, m5, a, e, w)
  {
  }

  // The code of a defining word: make an entry, store a cell, hand over the
  // address of the does part, which the header of the defining word records.
  ghost predicate Definer(m: Memory, c: Core, d: Definers, e: cell, b: nat, body: Body, bound: int) {
    && SYSTEM_END <= e && e + DE_SIZE_MIN <= b && b + 10 + Size(body) <= bound <= SPACE_TOP
    && CodeField(m, e) == OP_ENTER && ParameterField(m, e) == b && DoesCode(m, e) == b + 8
    && CodeAt(m, b, [d.create, d.comma, d.doesRt, c.exit])
    && CodeAt(m, b + 8, Code(c, body, b + 8) + [c.exit])
  }

  lemma DoesHeader(m: Memory, n: Memory, a: int, e: cell, data: int)
    requires DoesSame(m, n, a, e, data) && SYSTEM_END <= e && e + DE_SIZE_MIN <= a && a + 4 <= SPACE_TOP
             && DATA_BOTTOM <= data
    ensures Previous(n, e) == Previous(m, e) && CodeField(n, e) == CodeField(m, e)
    ensures NameCount(n, e) == NameCount(m, e) && ParameterField(n, e) == ParameterField(m, e)
    ensures IsImmediate(n, e) == IsImmediate(m, e)
    ensures SameOn(m, n, SYSTEM_END, e) && SameOn(m, n, e + DE_NAME, a)
  {
    hide Fetch16, Align;
    assert SameOn(m, n, e, e + DE_DOES_CODE);
    FetchSame(m, n, e, e + DE_DOES_CODE, e);
    FetchSame(m, n, e, e + DE_DOES_CODE, e + DE_CODE_FIELD);
    FetchSame(m, n, e, e + DE_DOES_CODE, e + DE_CODE_FIELD + 2);
  }

  // The compiler goes on in the does part.
  lemma AfterDoes(st: State, s1: State, s2: State, s3: State, w: Words, c: Core, k: Keywords, d: Definers, body: Body)
    requires Ready(st, w, c, k, d.semi) && CanName(st) && Opened(st, s1) && Nameable(st.mem, Here(st.mem), body)
    requires Compiling(s1, c, k, NewField(st)) && Emitted(s1, s2, NewField(st), NewField(st) + 4)
             && s2.control == s1.control
    requires NewField(st) + 8 <= SPACE_TOP
    requires s3 == s2.(mem := s3.mem) && Here(s3.mem) == NewField(st) + 8 && Fetch16(s3.mem, LOC_STATE) == COMPILING
    requires DoesSame(s2.mem, s3.mem, NewField(st) + 4, Here(st.mem), st.data.where)
    ensures Compiling(s3, c, k, NewField(st)) && WordsOk(s3.mem, body, NewField(st))
    ensures KeywordOk(s3.mem, d.semi, OP_SEMICOLON, NewField(st))
    ensures SameOn(st.mem, s3.mem, SYSTEM_END, Here(st.mem))
    ensures var e := Here(st.mem);
            && Previous(s3.mem, e) == st.dictHead && CodeField(s3.mem, e) == OP_ENTER
            && NameCount(s3.mem, e) == |NewName(st)| && ParameterField(s3.mem, e) == NewField(st)
  {
    hide Fetch16, SameOn, CodeField, Previous, NameCount, IsImmediate, Named, ParameterField, Below, Nameable, WordsOk;
    hide Dictionary, DoesSame, SameBut;
    var e, b := Here(st.mem), NewField(st);
    Protected(s1.mem, s2.mem, b, b + 4, s1.data.where, s1.control.where, b);
    HeaderKept(s1.mem, s2.mem, SYSTEM_END, b, e);
    DoesHeader(s2.mem, s3.mem, b + 4, e, st.data.where);
    SameTrans(st.mem, s1.mem, s2.mem, s3.mem, SYSTEM_END, e, b);
    HeadDictionary(st.mem, s3.mem, st.dictHead, e, b, c, k);
    NameableOk(st.mem, s3.mem, e, body, b);
    KeywordFrame(st.mem, s3.mem, d.semi, OP_SEMICOLON, e);
  }

  // The tokens after the name: CREATE , DOES> body ;
  function DefinerTokens(k: Keywords, d: Definers, body: Body): seq<Token> {
    [Entry(d.create), Entry(d.comma)] + [Entry(d.does)] + Tokens(k, body) + [Entry(d.semi)]
  }

  function Prefix(d: Definers): Body {
    Both(Plain(d.create), Plain(d.comma))
  }

  lemma PrefixFacts(c: Core, k: Keywords, d: Definers, a: nat)
    ensures Tokens(k, Prefix(d)) == [Entry(d.create), Entry(d.comma)] && Size(Prefix(d)) == 4 && Nesting(Prefix(d)) == 0
    ensures Code(c, Prefix(d), a) == [d.create, d.comma]
  {
  }

  lemma PrefixWords(m: Memory, n: Memory, head: cell, d: Definers, e: cell, b: cell)
    requires DefinersOk(m, head, d, e) && SameOn(m, n, SYSTEM_END, e) && e <= b <= SPACE_TOP
    ensures WordsOk(n, Prefix(d), b)
  {
    hide SameOn, CodeField, Previous, NameCount, FindOpcode, KeywordOk, IsImmediate;
    HeaderKept(m, n, SYSTEM_END, e, d.create);
    HeaderKept(m, n, SYSTEM_END, e, d.comma);
  }

  lemma DefinerRun(s1: State, s2: State, s3: State, s4: State, s5: State, k: Keywords, d: Definers, body: Body)
    requires StacksOk(s1) && StacksOk(s2) && StacksOk(s3) && StacksOk(s4)
    requires Fetch16(s2.mem, LOC_STATE) == Fetch16(s4.mem, LOC_STATE) == COMPILING
    requires CompileTokens(s1, [Entry(d.create), Entry(d.comma)]) == Next(s2, s2.ip)
    requires CompileToken(s2, Entry(d.does)).Next? && s3 == CompileToken(s2, Entry(d.does)).st
    requires CompileTokens(s3, Tokens(k, body)) == Next(s4, s4.ip)
    requires CompileToken(s4, Entry(d.semi)).Next? && s5 == CompileToken(s4, Entry(d.semi)).st
    ensures CompileTokens(s1, DefinerTokens(k, d, body)) == Next(s5, s5.ip)
  {
    hide Fetch16, CompileTokens, CompileToken, Tokens;
    var xs, ys := [Entry(d.create), Entry(d.comma)], Tokens(k, body);
    OneToken(s2, Entry(d.does));
    CompileAppend(s1, xs, [Entry(d.does)]);
    CompileAppend(s1, xs + [Entry(d.does)], ys);
    OneToken(s4, Entry(d.semi));
    CompileAppend(s1, xs + [Entry(d.does)] + ys, [Entry(d.semi)]);
  }

  // Where everything of the defining word is once `;` has run.
  lemma DefinerPlaced(st: State, s3: State, s4: State, s5: State, c: Core, d: Definers, body: Body)
    requires StacksOk(st) && CanName(st) && SYSTEM_END <= Here(st.mem) && Here(st.mem) + DE_SIZE_MIN <= NewField(st)
    requires StacksOk(s4) && NewField(st) + 10 + Size(body) <= SPACE_TOP
    requires var e, b := Here(st.mem), NewField(st);
             && CodeAt(s3.mem, b, [d.create, d.comma]) && CodeAt(s3.mem, b + 4, [d.doesRt, c.exit])
             && CodeField(s3.mem, e) == OP_ENTER && ParameterField(s3.mem, e) == b && DoesCode(s3.mem, e) == b + 8
             && Previous(s3.mem, e) == st.dictHead && NameCount(s3.mem, e) == |NewName(st)|
             && SameOn(s3.mem, s4.mem, SYSTEM_END, b + 8) && CodeAt(s4.mem, b + 8, Code(c, body, b + 8))
             && Closed(s4.mem, s5.mem, b + 8 + Size(body), e, st.data.where)
             && CodeAt(s5.mem, b + 8 + Size(body), [c.exit])
             && SameOn(st.mem, s3.mem, SYSTEM_END, e)
    ensures var e, b := Here(st.mem), NewField(st);
            && Definer(s5.mem, c, d, e, b, body, b + 10 + Size(body))
            && Previous(s5.mem, e) == st.dictHead && NameCount(s5.mem, e) == |NewName(st)|
            && SameOn(st.mem, s5.mem, SYSTEM_END, e)
  {
    hide Fetch16, SameOn, CodeField, Previous, NameCount, IsImmediate, Named, ParameterField, DoesCode, CodeAt, Code;
    hide Size, Closed;
    var e, b, z := Here(st.mem), NewField(st), NewField(st) + 8 + Size(body);
    var m3, m4, m5 := s3.mem, s4.mem, s5.mem;
    HeaderKept(m3, m4, SYSTEM_END, b + 8, e);
    ClosedHeader(m4, m5, z, e, st.data.where);
    ClosedDoes(m4, m5, z, e, st.data.where);
    SameTrans(st.mem, m3, m4, m5, SYSTEM_END, e, b + 8);
    SamePart(m3, m4, SYSTEM_END, b + 8, b, b + 4);
    SamePart(m3, m4, SYSTEM_END, b + 8, b + 4, b + 8);
    CodeFrame(m3, m4, b, [d.create, d.comma]);
    CodeFrame(m3, m4, b + 4, [d.doesRt, c.exit]);
    CodeSplit(m4, b, [d.create, d.comma], [d.doesRt, c.exit]);
    assert [d.create, d.comma, d.doesRt, c.exit] == [d.create, d.comma] + [d.doesRt, c.exit];
    SamePart(m4, m5, e + DE_SIZE_MIN, z, b, b + 8);
    SamePart(m4, m5, e + DE_SIZE_MIN, z, b + 8, z);
    CodeFrame(m4, m5, b, [d.create, d.comma, d.doesRt, c.exit]);
    CodeFrame(m4, m5, b + 8, Code(c, body, b + 8));
    CodeSplit(m5, b + 8, Code(c, body, b + 8), [c.exit]);
  }

  lemma ClosedDoes(m: Memory, n: Memory, a: int, e: cell, data: int)
    requires Closed(m, n, a, e, data) && SYSTEM_END <= e && e + DE_SIZE_MIN <= a <= SPACE_TOP && DATA_BOTTOM <= data
    ensures DoesCode(n, e) == DoesCode(m, e)
  {
    hide Fetch16;
    assert SameOn(m, n, e + DE_DOES_CODE, a);
    FetchSame(m, n, e + DE_DOES_CODE, a, e + DE_DOES_CODE);
  }

  // `: name CREATE , DOES> body ;`
  lemma DefineDefiner(st: State, w: Words, c: Core, k: Keywords, d: Definers, body: Body) returns (s: State)
    requires Ready(st, w, c, k, d.semi) && CanName(st) && Nameable(st.mem, Here(st.mem), body)
    requires DefinersOk(st.mem, st.dictHead, d, Here(st.mem))
    requires NewField(st) + 10 + Size(body) <= SPACE_TOP
    requires st.control.where + 2 * Nesting(body) + 2 <= CONTROL_TOP
    ensures Colon(st).Next? && StacksOk(Colon(st).st)
    ensures CompileTokens(Colon(st).st, DefinerTokens(k, d, body)) == Next(s, s.ip)
    ensures s.dictHead == Here(st.mem) && Ready(s, w, c, k, d.semi) && DefinersOk(s.mem, s.dictHead, d, Here(s.mem))
    ensures Definer(s.mem, c, d, Here(st.mem), NewField(st), body, Here(s.mem))
    ensures s.data == st.data && s.control == st.control && s.ret == st.ret && s.recover == st.recover
  {
    hide Fetch16, Store16, SameOn, CodeField, Previous, NameCount, IsImmediate, Named, ParameterField, Below, Nameable;
    hide WordsOk, Dictionary;
    hide Code, Size, Nesting, Closed, CodeAt, CompileTokens, CompileToken, Tokens, SameBut, Colon, DefinersOk, DoesCode;
    hide DoesSame, FindOpcode, Prefix;
    var e, b := Here(st.mem), NewField(st);
    var s1 := ColonOpens(st);
    OpenCompiles(st, s1, w, c, k, d.semi, body);
    PrefixFacts(c, k, d, b);
    PrefixWords(st.mem, s1.mem, st.dictHead, d, e, b);
    var s2 := CompileBody(s1, c, k, b, Prefix(d));
    DoesReady(st, s1, s2, c, k, d);
    var s3 := DoesToken(s2, c, k, b, d);
    AfterDoes(st, s1, s2, s3, w, c, k, d, body);
    var s4 := CompileBody(s3, c, k, b, body);
    Protected(s3.mem, s4.mem, b + 8, b + 8 + Size(body), s3.data.where, s3.control.where, b + 8);
    SamePart(s3.mem, s4.mem, SYSTEM_END, b + 8, SYSTEM_END, b);
    KeywordFrame(s3.mem, s4.mem, d.semi, OP_SEMICOLON, b);
    s := SemicolonToken(s4, c, k, b, d.semi);
    DefinerRun(s1, s2, s3, s4, s, k, d, body);
    DoesCodeKept(s2.mem, s3.mem, b, e, st.data.where, [d.create, d.comma]);
    DefinerPlaced(st, s3, s4, s, c, d, body);
    AfterDefiner(st, s, w, c, k, d, body);
  }

  lemma DoesReady(st: State, s1: State, s2: State, c: Core, k: Keywords, d: Definers)
    requires StacksOk(st) && CanName(st) && Opened(st, s1) && SYSTEM_END <= Here(st.mem)
    requires Dictionary(st.mem, st.dictHead, c, k, Here(st.mem)) && DefinersOk(st.mem, st.dictHead, d, Here(st.mem))
    requires StacksOk(s2) && SameBut(s1.mem, s2.mem, NewField(st), NewField(st) + 4, s1.data.where, s1.control.where)
    ensures KeywordOk(s2.mem, d.does, OP_DOES, NewField(st))
    ensures FindOpcode(s2.mem, Here(st.mem), OP_DOES_RT) == Found(d.doesRt)
  {
    hide Fetch16, SameOn, CodeField, Previous, NameCount, IsImmediate, Named, ParameterField, SameBut, KeywordOk;
    var e, b := Here(st.mem), NewField(st);
    KeywordFrame(st.mem, s1.mem, d.does, OP_DOES, e);
    KeywordHigher(s1.mem, d.does, OP_DOES, e, b);
    Protected(s1.mem, s2.mem, b, b + 4, s1.data.where, s1.control.where, b);
    KeywordFrame(s1.mem, s2.mem, d.does, OP_DOES, b);
    FindOpcodeFrame(st.mem, s1.mem, st.dictHead, e, OP_DOES_RT);
    ChainFrame(st.mem, s1.mem, st.dictHead, e);
    assert Chain(s1.mem, e, b);
    assert FindOpcode(s1.mem, e, OP_DOES_RT) == FindOpcode(s1.mem, st.dictHead, OP_DOES_RT);
    FindOpcodeFrame(s1.mem, s2.mem, e, b, OP_DOES_RT);
  }

  lemma KeywordHigher(m: Memory, xt: cell, op: nat, bound: int, bound': int)
    requires KeywordOk(m, xt, op, bound) && bound <= bound'
    ensures KeywordOk(m, xt, op, bound')
  {
  }

  lemma DoesCodeKept(m: Memory, n: Memory, b: nat, e: cell, data: int, code: seq<nat>)
    requires DoesSame(m, n, b + 4, e, data) && CodeAt(m, b, code) && |code| == 2
    requires SYSTEM_END <= e && e + DE_SIZE_MIN <= b && b + 4 <= SPACE_TOP && DATA_BOTTOM <= data
    ensures CodeAt(n, b, code)
  {
    assert SameOn(m, n, b, b + 4);
    CodeFrame(m, n, b, code);
  }

  // Ready for the next definition.
  lemma AfterDefiner(st: State, s: State, w: Words, c: Core, k: Keywords, d: Definers, body: Body)
    requires Ready(st, w, c, k, d.semi) && CanName(st) && DefinersOk(st.mem, st.dictHead, d, Here(st.mem))
    requires StacksOk(s) && s.dictHead == Here(st.mem) && Here(s.mem) == NewField(st) + 10 + Size(body) <= SPACE_TOP
    requires Here(st.mem) + DE_SIZE_MIN <= NewField(st) && Here(st.mem) + DE_NAME + 1 + |NewName(st)| <= NewField(st)
    requires Definer(s.mem, c, d, Here(st.mem), NewField(st), body, Here(s.mem))
             && Fetch16(s.mem, LOC_STATE) == INTERPRETING
    requires Previous(s.mem, Here(st.mem)) == st.dictHead && NameCount(s.mem, Here(st.mem)) == |NewName(st)| < 0x80
    requires SameOn(st.mem, s.mem, SYSTEM_END, Here(st.mem))
    ensures Ready(s, w, c, k, d.semi) && DefinersOk(s.mem, s.dictHead, d, Here(s.mem))
  {
    hide Fetch16, SameOn, CodeField, Previous, NameCount, IsImmediate, Named, ParameterField, DoesCode, CodeAt, Code;
    hide Size, Placed;
    var e, z := Here(st.mem), Here(s.mem);
    HeadDictionary(st.mem, s.mem, st.dictHead, e, z, c, k);
    KeywordFrame(st.mem, s.mem, d.semi, OP_SEMICOLON, e);
    DefinersFrame(st.mem, s.mem, st.dictHead, d, e);
    assert FindOpcode(s.mem, e, OP_DOES_RT) == FindOpcode(s.mem, st.dictHead, OP_DOES_RT);
    forall xt | xt in w ensures Placed(s.mem, w, c, xt, z) {
      assert Placed(st.mem, w, c, xt, e);
      PlacedFrame(st.mem, s.mem, w, w, c, xt, e, z);
    }
  }

  // CREATE: the new entry at HERE and everything it leaves as it was.
  ghost predicate Made(st: State, s: State)
    requires StacksOk(st) && CanName(st)
  {
    var e, b := Here(st.mem), NewField(st);
    && s == st.(mem := s.mem, dictHead := e)
    && Here(s.mem) == b && e + DE_SIZE_MIN <= b <= SPACE_TOP && e + DE_NAME + 1 + |NewName(st)| <= b
    && Previous(s.mem, e) == st.dictHead && CodeField(s.mem, e) == OP_CREATE_ENTER && ParameterField(s.mem, e) == b
    && NameCount(s.mem, e) == |NewName(st)| && |NewName(st)| < 0x80
    && FlagsByte(s.mem, e) == EF_MACHINE_CODE && !IsImmediate(s.mem, e)
    && s.mem[e + DE_NAME + 1..e + DE_NAME + 1 + |NewName(st)|] == NewName(st)
    && Fetch16(s.mem, LOC_STATE) == Fetch16(st.mem, LOC_STATE)
    && SameOn(st.mem, s.mem, SYSTEM_END, e)
    && SameOn(st.mem, s.mem, b, st.data.where) && SameOn(st.mem, s.mem, DATA_TOP, SIZE)
  }

  // CREATE, once it has read its name, adds an entry.
  lemma CreateAdds(st: State, word: cell) returns (does: cell)
    requires StacksOk(st) && CanName(st)
    ensures |NewName(st)| < 0x80
    ensures Create(st, word) ==
            AddEntry(st.(mem := Named(st)), NewName(st), EF_MACHINE_CODE, OP_CREATE_ENTER, does)
  {
    hide ReadToken, Fetch16, Store16, Blit, Word, HeaderBytes, Named, SameOn, DoesCode, AbortState, AddEntryUpTo;
    NamedFrame(st);
    WordNames(st);
    does := DoesCode(Word(PushData(st, 32)).st.mem, word);
  }

  lemma CreateMakes(st: State, word: cell) returns (s: State)
    requires StacksOk(st) && CanName(st) && SYSTEM_END <= Here(st.mem)
    ensures Create(st, word) == Next(s, Wrap(st.ip + 2)) && Made(st, s)
  {
    hide ReadToken, Fetch16, Store16, Blit, Word, HeaderBytes, Named, SameOn, CodeField, Previous, DoesCode, FlagsByte;
    hide AbortState;
    hide ParameterField, IsImmediate, NameCount, Align, Wrap, NewField;
    FieldBounds(st);
    var e, b, name := Here(st.mem), NewField(st), NewName(st);
    NamedFrame(st);
    WordNames(st);
    var does := CreateAdds(st, word);
    hide Create;
    FetchSame(st.mem, Named(st), 0, LOC_INDEX, LOC_HERE);
    FetchSame(st.mem, Named(st), 0, LOC_INDEX, LOC_STATE);
    var m1 := Named(st);
    var m2 := EntryWritten(m1, e, st.dictHead, EF_MACHINE_CODE, OP_CREATE_ENTER, does, name);
    var m3 := Store16(m2, LOC_HERE, b);
    s := st.(mem := m3, dictHead := e);
    assert Create(st, word) == Next(s, Wrap(st.ip + 2));
    MadeMemory(m1, m2, m3, e, b, |name|);
    MadeHeader(m2, m3, e, b, |name|, st.dictHead);
    MadeFrame(st.mem, m1, m2, m3, e, b, |name|, st.data.where);
    NameSame(m2, m3, SYSTEM_END, SIZE, e, |name|);
  }

  // A name is the same where its bytes are.
  lemma NameSame(m: Memory, n: Memory, lo: int, hi: int, e: cell, count: nat)
    requires SameOn(m, n, lo, hi) && 0 <= lo <= e + DE_NAME + 1 && e + DE_NAME + 1 + count <= hi <= SIZE
    ensures n[e + DE_NAME + 1..e + DE_NAME + 1 + count] == m[e + DE_NAME + 1..e + DE_NAME + 1 + count]
  {
  }

  lemma MadeMemory(m1: Memory, m2: Memory, m3: Memory, e: cell, b: cell, count: nat)
    requires SYSTEM_END <= e && m3 == Store16(m2, LOC_HERE, b) && SameOn(m1, m2, 0, e)
    ensures Here(m3) == b && Fetch16(m3, LOC_STATE) == Fetch16(m1, LOC_STATE) && SameOn(m2, m3, SYSTEM_END, SIZE)
  {
    hide Fetch16;
    FetchStored(m2, LOC_HERE, b);
    FetchElsewhere(m2, LOC_HERE, b, LOC_STATE);
    FetchSame(m1, m2, 0, e, LOC_STATE);
    StoreOutside(m2, LOC_HERE, b, SYSTEM_END, SIZE);
  }

  lemma MadeHeader(m2: Memory, m3: Memory, e: cell, b: cell, count: byte, previous: cell)
    requires SYSTEM_END <= e && e + DE_SIZE_MIN <= b <= SPACE_TOP && count < 0x80
    requires Previous(m2, e) == previous && CodeField(m2, e) == OP_CREATE_ENTER && NameCount(m2, e) == count
    requires FlagsByte(m2, e) == EF_MACHINE_CODE && b == Align(Wrap(e + DE_SIZE_MIN + count))
    requires SameOn(m2, m3, SYSTEM_END, SIZE)
    ensures Previous(m3, e) == previous && CodeField(m3, e) == OP_CREATE_ENTER && NameCount(m3, e) == count
    ensures FlagsByte(m3, e) == EF_MACHINE_CODE && !IsImmediate(m3, e) && ParameterField(m3, e) == b
  {
    hide SameOn, Previous, CodeField, NameCount, FlagsByte, DoesCode, Align;
    HeaderKept(m2, m3, SYSTEM_END, SIZE, e);
  }

  lemma MadeFrame(m: Memory, m1: Memory, m2: Memory, m3: Memory, e: cell, b: cell, count: nat, data: cell)
    requires SYSTEM_END <= e && e + DE_NAME + 1 + count <= b <= SPACE_TOP && DATA_BOTTOM <= data <= DATA_TOP
    requires SameOn(m, m1, SYSTEM_END, data) && SameOn(m, m1, DATA_TOP, SIZE)
    requires SameOn(m1, m2, 0, e) && SameOn(m1, m2, e + DE_NAME + 1 + count, SIZE)
    requires SameOn(m2, m3, SYSTEM_END, SIZE)
    ensures SameOn(m, m3, SYSTEM_END, e) && SameOn(m, m3, b, data) && SameOn(m, m3, DATA_TOP, SIZE)
  {
  }

  // What `,` and DOES_RT make of the entry x that CREATE made: its parameter
  // field at f holds n, and it runs the code at `code`.
  lemma FinishEntry(m2: Memory, x: cell, f: cell, n: cell, code: cell) returns (m4: Memory)
    requires SYSTEM_END <= x && x + DE_SIZE_MIN <= f && f + 2 <= SPACE_TOP && Here(m2) == f
    requires ParameterField(m2, x) == f
    ensures var m3 := Store16(Store16(m2, f, n), LOC_HERE, f + 2);
            && CodeField(m3, x) == CodeField(m2, x)
            && m4 == Store16(SetCodeField(m3, x, OP_DOES_ENTER), x + DE_DOES_CODE, code)
    ensures CodeField(m4, x) == OP_DOES_ENTER && DoesCode(m4, x) == code && ParameterField(m4, x) == f
    ensures Previous(m4, x) == Previous(m2, x) && NameCount(m4, x) == NameCount(m2, x)
    ensures Fetch16(m4, f) == n && Here(m4) == f + 2 && Fetch16(m4, LOC_STATE) == Fetch16(m2, LOC_STATE)
    ensures SameOn(m2, m4, SYSTEM_END, x) && SameOn(m2, m4, f + 2, SIZE) && SameOn(m2, m4, x + DE_NAME, f)
  {
    hide Fetch16, Store16, Align;
    var p := Store16(m2, f, n);
    var m3 := Store16(p, LOC_HERE, f + 2);
    var q := Store16(m3, x + DE_CODE_FIELD, OP_DOES_ENTER);
    var u := Store16(q, x + DE_CODE_FIELD + 2, 0);
    m4 := Store16(u, x + DE_DOES_CODE, code);
    FinishFields(m2, p, m3, q, u, m4, x, f, n, code);
    StoreOutside(m2, f, n, SYSTEM_END, f);
    StoreOutside(p, LOC_HERE, f + 2, SYSTEM_END, SIZE);
    SamePart(p, m3, SYSTEM_END, SIZE, SYSTEM_END, f);
    HeaderTwice(m2, p, m3, x, f);
    FinishFrame(m2, p, m3, q, u, m4, x, f, n, code);
  }

  lemma HeaderTwice(m: Memory, n: Memory, o: Memory, x: cell, f: int)
    requires SameOn(m, n, SYSTEM_END, f) && SameOn(n, o, SYSTEM_END, f) && SYSTEM_END <= x
             && x + DE_SIZE_MIN <= f <= SIZE
    ensures CodeField(o, x) == CodeField(m, x) && Previous(o, x) == Previous(m, x)
    ensures NameCount(o, x) == NameCount(m, x) && ParameterField(o, x) == ParameterField(m, x)
  {
    hide CodeField, Previous, NameCount, ParameterField, SameOn;
    HeaderKept(m, n, SYSTEM_END, f, x);
    HeaderKept(n, o, SYSTEM_END, f, x);
  }

  lemma FinishFields(m2: Memory, p: Memory, m3: Memory, q: Memory, u: Memory, m4: Memory, x: cell, f: cell, n: cell,
      code: cell)
    requires SYSTEM_END <= x && x + DE_SIZE_MIN <= f && f + 2 <= SPACE_TOP
    requires p == Store16(m2, f, n) && m3 == Store16(p, LOC_HERE, f + 2)
    requires q == Store16(m3, x + DE_CODE_FIELD, OP_DOES_ENTER) && u == Store16(q, x + DE_CODE_FIELD + 2, 0)
    requires m4 == Store16(u, x + DE_DOES_CODE, code)
    ensures CodeField(m4, x) == OP_DOES_ENTER && DoesCode(m4, x) == code
    ensures Fetch16(m4, f) == n && Here(m4) == f + 2 && Fetch16(m4, LOC_STATE) == Fetch16(m2, LOC_STATE)
  {
    hide Fetch16, Store16;
    FetchStored(m3, x + DE_CODE_FIELD, OP_DOES_ENTER);
    FetchElsewhere(q, x + DE_CODE_FIELD + 2, 0, x + DE_CODE_FIELD);
    FetchElsewhere(u, x + DE_DOES_CODE, code, x + DE_CODE_FIELD);
    FetchStored(q, x + DE_CODE_FIELD + 2, 0);
    FetchElsewhere(u, x + DE_DOES_CODE, code, x + DE_CODE_FIELD + 2);
    FetchStored(u, x + DE_DOES_CODE, code);
    FetchStored(m2, f, n);
    FetchElsewhere(p, LOC_HERE, f + 2, f);
    FetchElsewhere(m3, x + DE_CODE_FIELD, OP_DOES_ENTER, f);
    FetchElsewhere(q, x + DE_CODE_FIELD + 2, 0, f);
    FetchElsewhere(u, x + DE_DOES_CODE, code, f);
    FetchStored(p, LOC_HERE, f + 2);
    FetchElsewhere(m3, x + DE_CODE_FIELD, OP_DOES_ENTER, LOC_HERE);
    FetchElsewhere(q, x + DE_CODE_FIELD + 2, 0, LOC_HERE);
    FetchElsewhere(u, x + DE_DOES_CODE, code, LOC_HERE);
    FetchElsewhere(m2, f, n, LOC_STATE);
    FetchElsewhere(p, LOC_HERE, f + 2, LOC_STATE);
    FetchElsewhere(m3, x + DE_CODE_FIELD, OP_DOES_ENTER, LOC_STATE);
    FetchElsewhere(q, x + DE_CODE_FIELD + 2, 0, LOC_STATE);
    FetchElsewhere(u, x + DE_DOES_CODE, code, LOC_STATE);
  }

  lemma FinishFrame(m2: Memory, p: Memory, m3: Memory, q: Memory, u: Memory, m4: Memory, x: cell, f: cell, n: cell,
      code: cell)
    requires SYSTEM_END <= x && x + DE_SIZE_MIN <= f && f + 2 <= SPACE_TOP
    requires p == Store16(m2, f, n) && m3 == Store16(p, LOC_HERE, f + 2)
    requires q == Store16(m3, x + DE_CODE_FIELD, OP_DOES_ENTER) && u == Store16(q, x + DE_CODE_FIELD + 2, 0)
    requires m4 == Store16(u, x + DE_DOES_CODE, code)
    ensures SameOn(m2, m4, SYSTEM_END, x) && SameOn(m2, m4, f + 2, SIZE) && SameOn(m2, m4, x + DE_NAME, f)
    ensures Previous(m4, x) == Previous(m3, x) && NameCount(m4, x) == NameCount(m3, x)
    ensures ParameterField(m4, x) == ParameterField(m3, x)
  {
    hide Fetch16, Align;
    StoreOutside(m3, x + DE_CODE_FIELD, OP_DOES_ENTER, x, x + 2);
    StoreOutside(q, x + DE_CODE_FIELD + 2, 0, x, x + 2);
    StoreOutside(u, x + DE_DOES_CODE, code, x, x + 2);
    FetchSame(m3, m4, x, x + 2, x);
  }

  // The three words of a defining word's own code, one step each.

  lemma StepCreate(st: State, word: cell) returns (s: State)
    requires StacksOk(st) && st.run && st.ip + 2 <= SPACE_TOP && Fetch16(st.mem, st.ip) == word
             && word + DE_SIZE_MIN <= SPACE_TOP
    requires CodeField(st.mem, word) == OP_CREATE && CanName(st) && SYSTEM_END <= Here(st.mem)
    ensures Made(st, s.(ip := st.ip)) && s.ip == st.ip + 2 && Step(st) == Next(s, s.ip)
  {
    hide Fetch16, SameOn, AbortState, StackWord, FlowWord, CompilerWord, CodeField, Made, Create, CanName;
    DirectStep(st, word);
    var o := CreateMakes(st, word);
    s := o.(ip := st.ip + 2);
    assert s.(ip := st.ip) == o by { MadeIp(st, o); }
  }

  lemma MadeIp(st: State, o: State)
    requires StacksOk(st) && CanName(st) && Made(st, o)
    ensures o.ip == st.ip
  {
  }

  lemma StepComma(st: State, word: cell) returns (s: State)
    requires StacksOk(st) && st.run && st.ip + 2 <= SPACE_TOP && Fetch16(st.mem, st.ip) == word
             && word + DE_SIZE_MIN <= SPACE_TOP
    requires CodeField(st.mem, word) == OP_COMMA && !Empty(st.data) && Room(st, 2)
    ensures var f, n := Here(st.mem), TopData(st);
            && s == DropData(st).(mem := Store16(Store16(st.mem, f, n), LOC_HERE, f + 2), ip := st.ip + 2)
            && Step(st) == Next(s, s.ip)
  {
    hide Fetch16, Store16, SameOn, AbortState, StackWord, FlowWord, InputWord, CodeField;
    DirectStep(st, word);
    var f := Here(st.mem);
    s := DropData(st).(mem := Store16(Store16(st.mem, f, TopData(st)), LOC_HERE, f + 2), ip := st.ip + 2);
  }

  lemma StepDoesRt(st: State, word: cell) returns (s: State)
    requires StacksOk(st) && st.run && st.ip + 4 <= SPACE_TOP && Fetch16(st.mem, st.ip) == word
             && word + DE_SIZE_MIN <= SPACE_TOP
    requires CodeField(st.mem, word) == OP_DOES_RT && CodeField(st.mem, st.dictHead) == OP_CREATE_ENTER
    requires st.dictHead + DE_SIZE_MIN <= SPACE_TOP
    ensures var m := SetCodeField(st.mem, st.dictHead, OP_DOES_ENTER);
            s == st.(mem := Store16(m, st.dictHead + DE_DOES_CODE, st.ip + 4), ip := st.ip + 2)
    ensures Step(st) == Next(s, s.ip)
  {
    hide Fetch16, Store16, SameOn, AbortState, StackWord, FlowWord, InputWord, CodeField;
    DirectStep(st, word);
    s := st.(mem := Store16(SetCodeField(st.mem, st.dictHead, OP_DOES_ENTER), st.dictHead + DE_DOES_CODE, st.ip + 4),
             ip := st.ip + 2);
  }

  // A caller about to run the defining word e: a value on the data stack, room
  // on the others, a name in the input, space for the new entry.
  ghost predicate CanMake(r: State, e: cell)
    requires StacksOk(r)
  {
    && r.run && r.ip + 2 <= SPACE_TOP && Fetch16(r.mem, r.ip) == e && !Empty(r.data) && !Full(r.ret)
    && CanName(PushReturn(r, Wrap(r.ip + 2)))
    && NewField(PushReturn(r, Wrap(r.ip + 2))) + 2 <= SPACE_TOP
  }

  // Enter the defining word, make the entry.
  lemma MakeFirst(r: State, c: Core, d: Definers, e: cell, b: cell, body: Body) returns (r1: State, r2: State)
    requires StacksOk(r) && SYSTEM_END <= Here(r.mem) && Definer(r.mem, c, d, e, b, body, Here(r.mem))
    requires DefinersOk(r.mem, r.dictHead, d, Here(r.mem)) && CanMake(r, e)
    ensures Called(r, r1, b) && CanName(r1) && NewField(r1) + 2 <= SPACE_TOP && Here(r1.mem) == Here(r.mem)
    ensures r1 == PushReturn(r, Wrap(r.ip + 2)).(ip := b) && r1.data == r.data
    ensures Made(r1, r2.(ip := b)) && r2.ip == b + 2 && Step(r1) == Next(r2, r2.ip)
  {
    hide Fetch16, SameOn, Cells, AbortState, StackWord, FlowWord, CompilerWord, InputWord, CodeField, ParameterField;
    hide Named, Previous, NameCount, IsImmediate, Step, Store16, CodeAt, DoesCode, Made, Code, Size, ReadToken;
    hide NewField;
    r1 := EnterCalls(r, e);
    Prologue(r.mem, c, d, b);
    FetchSame(r.mem, r1.mem, 0, SPACE_TOP, b);
    FetchSame(r.mem, r1.mem, 0, SPACE_TOP, LOC_HERE);
    HeaderSame(r.mem, r1.mem, d.create);
    CanNameIp(PushReturn(r, Wrap(r.ip + 2)), r1);
    r2 := StepCreate(r1, d.create);
  }

  lemma CanNameIp(s: State, t: State)
    requires StacksOk(s) && CanName(s) && t == s.(ip := t.ip)
    ensures CanName(t) && NewField(t) == NewField(s)
  {
    hide ReadToken, Fetch16, Store16, WordBuffer, Align;
    assert Named(t) == Named(s);
  }

  lemma Prologue(m: Memory, c: Core, d: Definers, b: cell)
    requires CodeAt(m, b, [d.create, d.comma, d.doesRt, c.exit])
    ensures b + 8 <= SPACE_TOP && Fetch16(m, b) == d.create && Fetch16(m, b + 2) == d.comma
    ensures Fetch16(m, b + 4) == d.doesRt && Fetch16(m, b + 6) == c.exit
  {
    hide Fetch16;
    var code := [d.create, d.comma, d.doesRt, c.exit];
    assert code[0] == Fetch16(m, b + 2 * 0) && code[1] == Fetch16(m, b + 2 * 1);
    assert code[2] == Fetch16(m, b + 2 * 2) && code[3] == Fetch16(m, b + 2 * 3);
  }

  // Store the value, hand over the does part, return to the caller.
  lemma MakeRest(r: State, r1: State, r2: State, c: Core, d: Definers, e: cell, b: cell, body: Body)
    returns (r4: State, r5: State)
    requires StacksOk(r) && SYSTEM_END <= Here(r.mem) && Definer(r.mem, c, d, e, b, body, Here(r.mem))
    requires DefinersOk(r.mem, r.dictHead, d, Here(r.mem)) && Chain(r.mem, r.dictHead, Here(r.mem))
    requires SYSTEM_END <= c.exit && c.exit + DE_SIZE_MIN <= Here(r.mem) && CodeField(r.mem, c.exit) == OP_EXIT
    requires Called(r, r1, b) && CanName(r1) && NewField(r1) + 2 <= SPACE_TOP && Here(r1.mem) == Here(r.mem)
    requires Made(r1, r2.(ip := b)) && r2.ip == b + 2 && !Empty(r.data) && r1.data == r.data
    ensures Run(r2, 3) == Next(r5, r5.ip) && StacksOk(r2)
    ensures var x, f := Here(r.mem), NewField(r1);
            && CodeField(r5.mem, x) == OP_DOES_ENTER && DoesCode(r5.mem, x) == b + 8 && ParameterField(r5.mem, x) == f
            && Previous(r5.mem, x) == r.dictHead && NameCount(r5.mem, x) == |NewName(r1)| && |NewName(r1)| < 0x80
            && x + DE_SIZE_MIN <= f && x + DE_NAME + 1 + |NewName(r1)| <= f
            && r5.mem[x + DE_NAME + 1..x + DE_NAME + 1 + |NewName(r1)|] == NewName(r1)
            && Fetch16(r5.mem, f) == TopData(r) && Here(r5.mem) == f + 2
            && Fetch16(r5.mem, LOC_STATE) == Fetch16(r.mem, LOC_STATE)
            && SameOn(r.mem, r5.mem, SYSTEM_END, x)
    ensures r5.ip == Wrap(r.ip + 2) && r5.dictHead == Here(r.mem) && StacksOk(r5) && r5.recover == r.recover
    ensures DataOf(r) != [] && DataOf(r5) == Front(DataOf(r)) && ReturnOf(r5) == ReturnOf(r)
            && ControlOf(r5) == ControlOf(r)
  {
    hide Fetch16, SameOn, Cells, AbortState, CodeField, ParameterField, Named, Previous, NameCount, IsImmediate, Step;
    hide Store16, CodeAt, DoesCode, Code, Size, ReadToken, NewField, NewName, CanName, FindOpcode, KeywordOk, Chain;
    hide SetCodeField;
    var x, f, z := Here(r.mem), NewField(r1), Here(r.mem);
    var m2 := r2.mem;
    SamePart(r.mem, r1.mem, 0, SPACE_TOP, SYSTEM_END, x);
    SameBoth(r.mem, r1.mem, m2, SYSTEM_END, x);
    CodeHere(r.mem, m2, x, c, d, e, b, body);
    DefinersHere(r.mem, m2, r.dictHead, x, d, c);
    TopKept(r, r1, m2, f);
    var r3 := StepComma(r2, d.comma);
    r4, r5 := MakeEnd(r, r1, r2, r3, c, d, b, x, f);
  }

  lemma CodeHere(m: Memory, n: Memory, x: cell, c: Core, d: Definers, e: cell, b: cell, body: Body)
    requires Definer(m, c, d, e, b, body, x) && SameOn(m, n, SYSTEM_END, x)
    ensures b + 10 <= x && Fetch16(n, b + 2) == d.comma && Fetch16(n, b + 4) == d.doesRt && Fetch16(n, b + 6) == c.exit
  {
    hide Fetch16, SameOn, CodeField, ParameterField, DoesCode, Code, Size;
    SamePart(m, n, SYSTEM_END, x, b, b + 8);
    CodeFrame(m, n, b, [d.create, d.comma, d.doesRt, c.exit]);
    Prologue(n, c, d, b);
  }

  lemma DefinersHere(m: Memory, n: Memory, head: cell, x: cell, d: Definers, c: Core)
    requires DefinersOk(m, head, d, x) && Chain(m, head, x) && SameOn(m, n, SYSTEM_END, x)
    requires c.exit + DE_SIZE_MIN <= x && CodeField(m, c.exit) == OP_EXIT && SYSTEM_END <= c.exit
    ensures CodeField(n, d.comma) == OP_COMMA && d.comma + DE_SIZE_MIN <= x <= SPACE_TOP
    ensures CodeField(n, d.doesRt) == OP_DOES_RT && d.doesRt + DE_SIZE_MIN <= x && SYSTEM_END <= d.doesRt
    ensures CodeField(n, c.exit) == OP_EXIT
  {
    hide Fetch16, SameOn, CodeField, IsImmediate;
    ChainBound(m, head, x);
    FoundInChain(m, head, x, OP_DOES_RT, d.doesRt);
    HeaderKept(m, n, SYSTEM_END, x, d.comma);
    HeaderKept(m, n, SYSTEM_END, x, d.doesRt);
    HeaderKept(m, n, SYSTEM_END, x, c.exit);
  }

  lemma TopKept(r: State, r1: State, m2: Memory, f: cell)
    requires StacksOk(r) && StacksOk(r1) && !Empty(r.data) && r1.data == r.data && f <= DATA_BOTTOM
    requires DataOf(r1) == DataOf(r) && SameOn(r1.mem, m2, f, r.data.where)
    ensures Fetch16(m2, r.data.where - 2) == TopData(r)
    ensures Cells(m2, DATA_BOTTOM, r.data.where) == DataOf(r)
  {
    hide Fetch16, SameOn, Cells;
    SamePart(r1.mem, m2, f, r.data.where, DATA_BOTTOM, r.data.where);
    CellsFrame(r1.mem, m2, DATA_BOTTOM, r.data.where);
    FetchSame(r1.mem, m2, DATA_BOTTOM, r.data.where, r.data.where - 2);
    CellsPop(r.mem, DATA_BOTTOM, r.data.where);
    CellsPop(r1.mem, DATA_BOTTOM, r.data.where);
    var xs, ys := Cells(r.mem, DATA_BOTTOM, r.data.where), Cells(r1.mem, DATA_BOTTOM, r.data.where);
    assert xs[|xs| - 1] == ys[|ys| - 1];
  }

  lemma MakeEnd(r: State, r1: State, r2: State, r3: State, c: Core, d: Definers, b: cell, x: cell, f: cell)
    returns (r4: State, r5: State)
    requires StacksOk(r) && StacksOk(r1) && StacksOk(r2) && StacksOk(r3) && !Empty(r.data) && r1.data == r.data
    requires Called(r, r1, b) && CanName(r1) && f == NewField(r1) && f + 2 <= SPACE_TOP && x == Here(r1.mem)
    requires Made(r1, r2.(ip := b)) && r2.ip == b + 2 && SYSTEM_END <= x
    requires SameOn(r.mem, r2.mem, SYSTEM_END, x)
    requires Fetch16(r2.mem, r.data.where - 2) == TopData(r) && Cells(r2.mem, DATA_BOTTOM, r.data.where) == DataOf(r)
    requires SYSTEM_END <= b && b + 10 <= x && Fetch16(r2.mem, b + 4) == d.doesRt && Fetch16(r2.mem, b + 6) == c.exit
    requires d.doesRt + DE_SIZE_MIN <= x && CodeField(r2.mem, d.doesRt) == OP_DOES_RT && SYSTEM_END <= d.doesRt
    requires c.exit + DE_SIZE_MIN <= x && CodeField(r2.mem, c.exit) == OP_EXIT && SYSTEM_END <= c.exit
    requires r3 == DropData(r2).(mem := Store16(Store16(r2.mem, f, TopData(r)), LOC_HERE, f + 2), ip := b + 4)
    requires Step(r2) == Next(r3, r3.ip)
    ensures Run(r2, 3) == Next(r5, r5.ip)
    ensures CodeField(r5.mem, x) == OP_DOES_ENTER && DoesCode(r5.mem, x) == b + 8 && ParameterField(r5.mem, x) == f
    ensures Previous(r5.mem, x) == r.dictHead && NameCount(r5.mem, x) == |NewName(r1)|
            && x + DE_NAME + 1 + |NewName(r1)| <= f
    ensures r5.mem[x + DE_NAME + 1..x + DE_NAME + 1 + |NewName(r1)|] == NewName(r1)
    ensures Fetch16(r5.mem, f) == TopData(r) && Here(r5.mem) == f + 2
    ensures Fetch16(r5.mem, LOC_STATE) == Fetch16(r.mem, LOC_STATE) && SameOn(r.mem, r5.mem, SYSTEM_END, x)
    ensures r5.ip == Wrap(r.ip + 2) && r5.dictHead == x && StacksOk(r5) && r5.recover == r.recover
    ensures DataOf(r) != [] && DataOf(r5) == Front(DataOf(r)) && ReturnOf(r5) == ReturnOf(r)
            && ControlOf(r5) == ControlOf(r)
  {
    hide Fetch16, SameOn, Cells, AbortState, CodeField, ParameterField, Named, Previous, NameCount, IsImmediate, Step;
    hide Store16, CodeAt, DoesCode, ReadToken, NewField, NewName, CanName, SetCodeField;
    var m2, n, w := r2.mem, TopData(r), r.data.where;
    var m4 := FinishEntry(m2, x, f, n, b + 8);
    StoreLow(m2, f, n, x);
    FetchSame(m2, r3.mem, SYSTEM_END, x, b + 4);
    HeaderKept(m2, r3.mem, SYSTEM_END, x, d.doesRt);
    r4 := StepDoesRt(r3, d.doesRt);
    assert r4.mem == m4;
    HeaderKept(m2, m4, SYSTEM_END, x, c.exit);
    FetchSame(m2, m4, SYSTEM_END, x, b + 6);
    StackKept(r, r1, m2, m4, f);
    StackDepth(r4);
    r5 := ExitReturns(r4, c.exit);
    assert Run(r2, 3) == Next(r5, r5.ip) by { ThreeSteps(r2, r3, r4, r5); }
    FetchSame(r.mem, r1.mem, 0, SPACE_TOP, LOC_STATE);
    SameBoth(r.mem, m2, m4, SYSTEM_END, x);
    NameRoom(r1);
    NameSame(m2, m4, x + DE_NAME, f, x, |NewName(r1)|);
  }

  lemma ThreeSteps(r2: State, r3: State, r4: State, r5: State)
    requires StacksOk(r2) && StacksOk(r3) && StacksOk(r4)
    requires Step(r2) == Next(r3, r3.ip) && Step(r3) == Next(r4, r4.ip) && Step(r4) == Next(r5, r5.ip)
    ensures Run(r2, 3) == Next(r5, r5.ip)
  {
    hide Step;
    assert Run(r5, 0) == Next(r5, r5.ip);
    assert Run(r4, 1) == Run(r5, 0);
    assert Run(r3, 2) == Run(r4, 1);
  }

  lemma StoreLow(m: Memory, f: cell, n: cell, x: cell)
    requires SYSTEM_END <= x <= f <= SPACE_TOP
    ensures SameOn(m, Store16(Store16(m, f, n), LOC_HERE, f + 2), SYSTEM_END, x)
  {
    hide Store16, SameOn;
    var p := Store16(m, f, n);
    StoreOutside(m, f, n, SYSTEM_END, x);
    StoreOutside(p, LOC_HERE, f + 2, SYSTEM_END, x);
    SameBoth(m, p, Store16(p, LOC_HERE, f + 2), SYSTEM_END, x);
  }

  // The stacks in m4 are the caller's, one value shorter, with its return
  // address on top.
  lemma StackKept(r: State, r1: State, m2: Memory, m4: Memory, f: cell)
    requires StacksOk(r) && StacksOk(r1) && !Empty(r.data) && f + 2 <= SPACE_TOP
    requires Called(r, r1, r1.ip) && r1.data == r.data
    requires SameOn(r1.mem, m2, DATA_TOP, SIZE) && SameOn(m2, m4, f + 2, SIZE)
    requires Cells(m2, DATA_BOTTOM, r.data.where) == DataOf(r)
    ensures DataOf(r) != [] && Cells(m4, DATA_BOTTOM, r.data.where - 2) == Front(DataOf(r))
    ensures Cells(m4, RETURN_BOTTOM, r1.ret.where) == ReturnOf(r) + [Wrap(r.ip + 2)]
    ensures Cells(m4, CONTROL_BOTTOM, r.control.where) == ControlOf(r)
  {
    hide Fetch16, SameOn, Cells, Step;
    var w := r.data.where;
    SamePart(m2, m4, f + 2, SIZE, DATA_BOTTOM, w);
    CellsFrame(m2, m4, DATA_BOTTOM, w);
    CellsPop(m4, DATA_BOTTOM, w);
    SamePart(r1.mem, m2, DATA_TOP, SIZE, RETURN_BOTTOM, r1.ret.where);
    SamePart(m2, m4, f + 2, SIZE, RETURN_BOTTOM, r1.ret.where);
    CellsFrame(r1.mem, m2, RETURN_BOTTOM, r1.ret.where);
    CellsFrame(m2, m4, RETURN_BOTTOM, r1.ret.where);
    SamePart(r1.mem, m2, DATA_TOP, SIZE, CONTROL_BOTTOM, r.control.where);
    SamePart(m2, m4, f + 2, SIZE, CONTROL_BOTTOM, r.control.where);
    CellsFrame(r1.mem, m2, CONTROL_BOTTOM, r.control.where);
    CellsFrame(m2, m4, CONTROL_BOTTOM, r.control.where);
  }

  // Running `name-of-definer new-name` with n on the stack: five steps later
  // the caller goes on at its next cell, n is gone from the data stack, and the
  // dictionary has a new word with n in its parameter field that means: push
  // the address of that field and run the does part, at the very address the
  // compiler had recorded in the header of the defining word.
  lemma MakeWord(r: State, w: Words, c: Core, k: Keywords, d: Definers, e: cell, b: cell, body: Body)
    returns (r1: State, r5: State)
    requires Ready(r, w, c, k, d.semi) && DefinersOk(r.mem, r.dictHead, d, Here(r.mem))
    requires Definer(r.mem, c, d, e, b, body, Here(r.mem)) && CanMake(r, e)
    ensures r1 == PushReturn(r, Wrap(r.ip + 2)).(ip := b) && StacksOk(r1) && CanName(r1)
    ensures Run(r, 5) == Next(r5, r5.ip) && StacksOk(r5) && r5.ip == Wrap(r.ip + 2)
    ensures DataOf(r) != [] && DataOf(r5) == Front(DataOf(r)) && ReturnOf(r5) == ReturnOf(r)
            && ControlOf(r5) == ControlOf(r)
    ensures r5.dictHead == Here(r.mem) && Fetch16(r5.mem, NewField(r1)) == Last(DataOf(r))
    ensures DoesCode(r5.mem, r5.dictHead) == DoesCode(r.mem, e)
    ensures NameCount(r5.mem, r5.dictHead) == |NewName(r1)| < 0x80 && Previous(r5.mem, r5.dictHead) == r.dictHead
    ensures r5.dictHead + DE_NAME + 1 + |NewName(r1)| <= Here(r5.mem)
    ensures r5.mem[r5.dictHead + DE_NAME + 1..r5.dictHead + DE_NAME + 1 + |NewName(r1)|] == NewName(r1)
    ensures Ready(r5, w[r5.dictHead := Defined(NewField(r1), DoesCode(r.mem, e), body)], c, k, d.semi)
    ensures SameOn(r.mem, r5.mem, SYSTEM_END, Here(r.mem))
  {
    hide Fetch16, SameOn, Cells, AbortState, CodeField, ParameterField, Named, Previous, NameCount, IsImmediate, Step;
    hide Store16, CodeAt, DoesCode, Code, Size, ReadToken, NewField, NewName, CanName, FindOpcode, KeywordOk;
    hide SetCodeField, Placed, Below, Made, DefinersOk, Chain;
    var x := Here(r.mem);
    DictionaryExit(r.mem, r.dictHead, c, k, x);
    var r2;
    r1, r2 := MakeFirst(r, c, d, e, b, body);
    TopIsLast(r);
    var r4;
    r4, r5 := MakeRest(r, r1, r2, c, d, e, b, body);
    assert Run(r, 5) == Next(r5, r5.ip) by { FiveSteps(r, r1, r2, r5); }
    assert !Full(r1.data) by { NameRoom(r1); }
    MadeReady(r, r5, w, c, k, d, e, b, body, NewField(r1), |NewName(r1)|);
  }

  lemma DictionaryExit(m: Memory, head: cell, c: Core, k: Keywords, x: int)
    requires Dictionary(m, head, c, k, x)
    ensures c.exit + DE_SIZE_MIN <= x && CodeField(m, c.exit) == OP_EXIT && SYSTEM_END <= c.exit && Chain(m, head, x)
  {
    hide Chain, FindOpcode, CodeField, KeywordOk;
    FoundInChain(m, head, x, OP_EXIT, c.exit);
  }

  lemma NameRoom(st: State)
    requires StacksOk(st) && CanName(st)
    ensures !Full(st.data)
  {
  }

  lemma TopIsLast(r: State)
    requires StacksOk(r) && !Empty(r.data)
    ensures DataOf(r) != [] && TopData(r) == Last(DataOf(r))
  {
    SelfRunning(r);
    PopEffect(r, r.mem);
  }

  lemma FiveSteps(r: State, r1: State, r2: State, r5: State)
    requires StacksOk(r) && StacksOk(r1) && StacksOk(r2)
    requires Step(r) == Next(r1, r1.ip) && Step(r1) == Next(r2, r2.ip) && Run(r2, 3) == Next(r5, r5.ip)
    ensures Run(r, 5) == Next(r5, r5.ip)
  {
    hide Step;
    assert Run(r1, 4) == Run(r2, 3);
    assert Run(r, 5) == Run(r1, 4);
  }

  // The entry x of r5 runs `code` with parameter field f; r5 is r but for it.
  ghost predicate Finished(r: State, r5: State, x: cell, f: cell, code: cell, count: nat) {
    && CodeField(r5.mem, x) == OP_DOES_ENTER && DoesCode(r5.mem, x) == code && ParameterField(r5.mem, x) == f
    && Previous(r5.mem, x) == r.dictHead && NameCount(r5.mem, x) == count && count < 0x80
    && x + DE_SIZE_MIN <= f && x + DE_NAME + 1 + count <= f && f + 2 <= SPACE_TOP
    && Here(r5.mem) == f + 2 && Fetch16(r5.mem, LOC_STATE) == Fetch16(r.mem, LOC_STATE)
    && SameOn(r.mem, r5.mem, SYSTEM_END, x) && r5.dictHead == x
  }

  lemma MadeReady(r: State, r5: State, w: Words, c: Core, k: Keywords, d: Definers, e: cell, b: cell, body: Body,
      f: cell, count: nat)
    requires Ready(r, w, c, k, d.semi) && Definer(r.mem, c, d, e, b, body, Here(r.mem)) && StacksOk(r5)
    requires Finished(r, r5, Here(r.mem), f, b + 8, count)
    ensures Ready(r5, w[r5.dictHead := Defined(f, b + 8, body)], c, k, d.semi)
  {
    hide Fetch16, SameOn, CodeField, ParameterField, Previous, NameCount, IsImmediate, DoesCode, Code, Size, CodeAt;
    hide FindOpcode, Chain;
    var x := Here(r.mem);
    var w' := w[x := Defined(f, b + 8, body)];
    HeadDictionary(r.mem, r5.mem, r.dictHead, x, f + 2, c, k);
    KeywordFrame(r.mem, r5.mem, d.semi, OP_SEMICOLON, x);
    SamePart(r.mem, r5.mem, SYSTEM_END, x, b + 8, b + 10 + Size(body));
    CodeFrame(r.mem, r5.mem, b + 8, Code(c, body, b + 8) + [c.exit]);
    forall xt | xt in w' ensures Placed(r5.mem, w', c, xt, f + 2) {
      if xt != x {
        assert Placed(r.mem, w, c, xt, x);
        PlacedFrame(r.mem, r5.mem, w, w', c, xt, x, f + 2);
      }
    }
  }

  // Running a word so made, in any state q that holds that dictionary: it pushes
  // its own parameter field, runs the does part and goes on at the next cell.
  lemma MadeWordMeans(r5: State, w: Words, c: Core, k: Keywords, semi: cell, x: cell, q: State, fuel: nat)
    returns (n: nat)
    requires Ready(r5, w, c, k, semi) && x in w && w[x].Defined?
    requires Live(q) && Intact(r5.mem, Here(r5.mem), q) && AtWord(q, x)
    ensures Full(q.data) ==> Realises(q, n, Recover(r5.mem, Here(r5.mem), q), fuel, q.ip, q.ip + 2)
    ensures !Full(q.data) && !Full(q.ret) ==>
              var s := PushReturn(PushData(q, ParameterField(r5.mem, x)), Wrap(q.ip + 2)).(ip := DoesCode(r5.mem, x));
              && Intact(r5.mem, Here(r5.mem), s)
              && Realises(q, n, MeanCall(r5.mem, Here(r5.mem), w, w[x].does, q, s, fuel), fuel, q.ip, q.ip + 2)
  {
    hide Fetch16, SameOn, AbortState, CodeField, ParameterField, Step, Store16, DoesCode, Dictionary, KeywordOk;
    hide Realises;
    hide MeanCall, AtWord, Callable;
    var m, b := r5.mem, Here(r5.mem);
    ReadyVocabulary(r5, w, c, k, semi);
    assert Placed(m, w, c, x, b);
    n := RunWord(q, m, b, w, c, x, fuel);
    var f := w[x].field;
    PushIntact(m, b, q, f);
    if !Full(q.data) {
      PushIntact(m, b, PushData(q, f), Wrap(q.ip + 2));
    }
  }
}
