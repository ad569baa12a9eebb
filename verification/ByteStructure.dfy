// The compiling words of the first system on well-nested source: one pass, with
// every jump filled in behind, leaves exactly the code of the structure.
module ByteStructure {
  import opened Dataspace
  import opened ByteState
  import opened ByteWords
  import opened ByteCompile
  import opened ByteSource

  // Between m and n nothing changed but the `size` bytes at `here`, WHERE, the free
  // cell of the data stack at d and the free cells of the control stack from c on.
  ghost predicate Changes(m: Memory, n: Memory, here: int, size: nat, d: int, c: int) {
    forall x :: 0 <= x < SIZE && Spared(x, here, size, d, c) ==> n[x] == m[x]
  }

  predicate Spared(x: int, here: int, size: nat, d: int, c: int) {
    && !(LOC_WHERE <= x < LOC_WHERE + 2) && !(here <= x < here + size) && !(d <= x < d + 2)
    && !(c <= x < CONTROL_TOP)
  }

  lemma ChangesJoin(m: Memory, n: Memory, o: Memory, here: int, a: nat, b: nat, d: int, c: int, c': int)
    requires Changes(m, n, here, a, d, c) && Changes(n, o, here + a, b, d, c') && c <= c'
    ensures Changes(m, o, here, a + b, d, c)
  {
    forall x | 0 <= x < SIZE && Spared(x, here, a + b, d, c) ensures o[x] == m[x] {
      assert Spared(x, here, a, d, c) && Spared(x, here + a, b, d, c');
    }
  }

  // What stands below the new code stays.
  lemma ChangesBelow(m: Memory, n: Memory, here: int, size: nat, d: int, c: int, lo: int, hi: int)
    requires Changes(m, n, here, size, d, c) && LOC_WHERE + 2 <= lo && hi <= here && hi <= d && hi <= c
    ensures SameOn(m, n, lo, hi)
  {
    forall x | 0 <= lo <= x < hi <= SIZE ensures m[x] == n[x] {
      assert Spared(x, here, size, d, c);
    }
  }

  // There is room for `size` bytes of code, one cell of data and the jumps of `nest`
  // structures.
  predicate Roomy(st: State, size: nat, nest: nat) {
    && StacksOk(st) && DICTIONARY_START <= Where(st.mem) && Where(st.mem) + size <= SPACE_TOP
    && st.data + 2 < DATA_TOP && st.control + 2 * nest + 2 <= CONTROL_TOP
  }

  // What compiling p, which is code of `size` bytes, does to st.
  ghost predicate Compiled(st: State, s: State, code: seq<byte>) {
    && s == st.(mem := s.mem) && Changes(st.mem, s.mem, Where(st.mem), |code|, st.data, st.control)
    && Where(s.mem) == Where(st.mem) + |code| && CodeAt(s.mem, Where(st.mem), code)
  }

  // Memory byte by byte after a cell was stored.
  lemma Stored(m: Memory, a: cell, v: int)
    requires a < 0xFFFF
    ensures var n := Store16(m, a, Wrap(v));
            && n[a] == Low(v) && n[a + 1] == High(v) && Fetch16(n, a) == Wrap(v)
            && forall x :: 0 <= x < SIZE && x != a && x != a + 1 ==> n[x] == m[x]
  {
  }

  lemma FetchBytes(m: Memory, n: Memory, a: cell)
    requires a < 0xFFFF && n[a] == m[a] && n[a + 1] == m[a + 1]
    ensures Fetch16(n, a) == Fetch16(m, a)
  {
  }

  // A byte code laid at HERE, alone or with an operand.

  lemma ByteLaid(m: Memory, here: cell, op: byte)
    requires DICTIONARY_START <= here < SPACE_TOP
    ensures var n := Store16(Store8(m, here, op), LOC_WHERE, Wrap(here + 1));
            && Where(n) == here + 1 && CodeAt(n, here, [op])
            && forall d, c :: Changes(m, n, here, 1, d, c)
  {
    hide Fetch16, Store16, Low, High;
    Stored(Store8(m, here, op), LOC_WHERE, here + 1);
  }

  lemma CellLaid(m: Memory, here: cell, op: byte, x: cell)
    requires DICTIONARY_START <= here && here + 3 <= SPACE_TOP
    ensures var n := Store16(Store16(Store8(m, here, op), Wrap(here + 1), x), LOC_WHERE, Wrap(here + 3));
            && Where(n) == here + 3 && CodeAt(n, here, Operand(op, x))
            && forall d, c :: Changes(m, n, here, 3, d, c)
  {
    hide Fetch16, Store16, Low, High;
    var m1 := Store8(m, here, op);
    var m2 := Store16(m1, here + 1, x);
    Stored(m1, here + 1, x);
    Stored(m2, LOC_WHERE, here + 3);
    OperandAt(Store16(m2, LOC_WHERE, here + 3), here, op, x);
  }

  lemma OperandAt(m: Memory, a: nat, op: byte, v: int)
    requires a + 3 <= SPACE_TOP && m[a] == op && m[a + 1] == Low(v) && m[a + 2] == High(v)
    ensures CodeAt(m, a, Operand(op, v))
  {
  }

  // Words and numbers.

  lemma Pushed(m: Memory, d: cell, v: cell)
    requires DATA_BOTTOM <= d < DATA_TOP - 2
    ensures Fetch16(Store16(m, d, v), d) == v && Where(Store16(m, d, v)) == Where(m)
    ensures forall here, c :: Changes(m, Store16(m, d, v), here, 0, d, c)
  {
  }

  lemma UseLays(st: State, xt: cell, bound: int)
    requires Roomy(st, UseSize(st.mem, xt), 0)
    requires DICTIONARY_START <= xt && xt + H_SIZE <= bound <= Where(st.mem)
    ensures CompileToken(st, Word(xt)).Next?
    ensures Compiled(st, CompileToken(st, Word(xt)).st, Code(st.mem, Use(xt), Where(st.mem)))
  {
    hide Fetch16, Store16, SameOn, CodeStart, IsInstruction, Changes;
    var here, m1 := Where(st.mem), Store16(st.mem, st.data, xt);
    Pushed(st.mem, st.data, xt);
    StoreOutside(st.mem, st.data, xt, DICTIONARY_START, here);
    SamePart(st.mem, m1, DICTIONARY_START, here, DICTIONARY_START, bound);
    SameWord(st.mem, m1, bound, xt);
    var n := CompileToken(st, Word(xt)).st.mem;
    if IsInstruction(st.mem, xt) {
      ByteLaid(m1, here, Named(st.mem, xt));
    } else {
      CellLaid(m1, here, ENTER, Called(st.mem, xt));
    }
    ChangesJoin(st.mem, m1, n, here, 0, UseSize(st.mem, xt), st.data, st.control, st.control);
  }

  lemma ValueLays(st: State, v: cell)
    requires Roomy(st, 3, 0)
    ensures CompileToken(st, Number(v)).Next?
    ensures Compiled(st, CompileToken(st, Number(v)).st, Code(st.mem, Value(v), Where(st.mem)))
  {
    hide Fetch16, Store16, SameOn, Changes;
    var here, m1 := Where(st.mem), Store16(st.mem, st.data, v);
    Pushed(st.mem, st.data, v);
    CellLaid(m1, here, LDN, v);
    ChangesJoin(st.mem, m1, CompileToken(st, Number(v)).st.mem, here, 0, 3, st.data, st.control, st.control);
  }

  // The control words.

  // A jump laid at HERE, open, with the place of its operand at c.
  lemma OpenLaid(m: Memory, here: cell, op: byte, c: cell)
    requires DICTIONARY_START <= here && here + 3 <= SPACE_TOP && CONTROL_BOTTOM <= c < CONTROL_TOP - 2
    ensures var n := Store16(Store16(Store16(Store8(m, here, op), Wrap(here + 1), 0xDEAD), c, Wrap(here + 1)),
                             LOC_WHERE, Wrap(here + 3));
            && Where(n) == here + 3 && n[here] == op && Fetch16(n, c) == here + 1
            && forall d :: Changes(m, n, here, 3, d, c)
  {
    hide Fetch16, Store16, Low, High;
    var m1 := Store8(m, here, op);
    var m2 := Store16(m1, here + 1, 0xDEAD);
    var m3 := Store16(m2, c, here + 1);
    Stored(m1, here + 1, 0xDEAD);
    Stored(m2, c, here + 1);
    Stored(m3, LOC_WHERE, here + 3);
    FetchBytes(m3, Store16(m3, LOC_WHERE, here + 3), c);
  }

  lemma IfLays(st: State)
    requires Roomy(st, 3, 1)
    ensures If(st).Next?
    ensures var s, here := If(st).st, Where(st.mem);
            && s == st.(mem := s.mem, control := st.control + 2) && Where(s.mem) == here + 3
            && Fetch16(s.mem, st.control) == here + 1 && s.mem[here] == JMP_FALSE
            && Changes(st.mem, s.mem, here, 3, st.data, st.control)
  {
    hide Fetch16, Store16, Changes;
    OpenLaid(st.mem, Where(st.mem), JMP_FALSE, st.control);
  }

  lemma BeginLays(st: State)
    requires Roomy(st, 1, 1)
    ensures Begin(st).Next?
    ensures var s, here := Begin(st).st, Where(st.mem);
            && s == st.(mem := s.mem, control := st.control + 2) && Where(s.mem) == here + 1
            && Fetch16(s.mem, st.control) == here && s.mem[here] == NOP
            && Changes(st.mem, s.mem, here, 1, st.data, st.control)
  {
    hide Fetch16, Store16, Low, High;
    var here := Where(st.mem);
    var m1 := Store16(st.mem, st.control, here);
    var m2 := Store8(m1, here, NOP);
    Stored(st.mem, st.control, here);
    Stored(m2, LOC_WHERE, here + 1);
    FetchBytes(m1, Store16(m2, LOC_WHERE, here + 1), st.control);
  }

  // The jump at a gets v as its operand.
  ghost predicate Patched(m: Memory, n: Memory, a: int, v: int, here: int, size: nat, c: int) {
    && 0 <= a && a + 2 <= here <= SIZE && n[a] == Low(v) && n[a + 1] == High(v)
    && forall x :: 0 <= x < SIZE && !(a <= x < a + 2) && Spared(x, here, size, CONTROL_TOP - 2, c) ==> n[x] == m[x]
  }

  lemma ThenLays(st: State, a: cell)
    requires Roomy(st, 1, 0) && st.control != CONTROL_BOTTOM && Fetch16(st.mem, st.control - 2) == a
    requires DICTIONARY_START <= a && a + 2 <= Where(st.mem)
    ensures Then(st).Next?
    ensures var s, here := Then(st).st, Where(st.mem);
            && s == st.(mem := s.mem, control := st.control - 2) && Where(s.mem) == here + 1 && s.mem[here] == NOP
            && Patched(st.mem, s.mem, a, here, here, 1, CONTROL_TOP)
  {
    hide Fetch16, Store16, Low, High;
    var here := Where(st.mem);
    var m1 := Store16(st.mem, a, here);
    Stored(st.mem, a, here);
    Stored(Store8(m1, here, NOP), LOC_WHERE, here + 1);
  }

  lemma ElseLays(st: State, a: cell)
    requires Roomy(st, 3, 0) && st.control != CONTROL_BOTTOM && Fetch16(st.mem, st.control - 2) == a
    requires DICTIONARY_START <= a && a + 2 <= Where(st.mem)
    ensures Else(st).Next?
    ensures var s, here := Else(st).st, Where(st.mem);
            && s == st.(mem := s.mem) && Where(s.mem) == here + 3 && s.mem[here] == JMP
            && Fetch16(s.mem, st.control - 2) == here + 1
            && Patched(st.mem, s.mem, a, here + 3, here, 3, st.control - 2)
  {
    hide Fetch16, Store16, Low, High;
    var here := Where(st.mem);
    var m1 := Store16(st.mem, a, Wrap(here + 3));
    Stored(st.mem, a, here + 3);
    OpenLaid(m1, here, JMP, st.control - 2);
    assert Changes(m1, Else(st).st.mem, here, 3, CONTROL_TOP - 2, st.control - 2);
    forall x | 0 <= x < SIZE && !(a <= x < a + 2) && Spared(x, here, 3, CONTROL_TOP - 2, st.control - 2)
      ensures Else(st).st.mem[x] == st.mem[x]
    {
      assert Spared(x, here, 3, CONTROL_TOP - 2, st.control - 2);
    }
    forall x | a <= x < a + 2 ensures Else(st).st.mem[x] == m1[x] {
      assert Spared(x, here, 3, CONTROL_TOP - 2, st.control - 2);
    }
  }

  lemma AgainLays(st: State, a: cell)
    requires Roomy(st, 3, 0) && st.control != CONTROL_BOTTOM && Fetch16(st.mem, st.control - 2) == a
    ensures Again(st).Next?
    ensures var s, here := Again(st).st, Where(st.mem);
            && s == st.(mem := s.mem, control := st.control - 2) && Where(s.mem) == here + 3
            && CodeAt(s.mem, here, Operand(JMP, a)) && Changes(st.mem, s.mem, here, 3, st.data, st.control)
  {
    hide Fetch16, Store16, Changes;
    CellLaid(st.mem, Where(st.mem), JMP, a);
  }

  // Tokens one after another.

  lemma {:induction false} TokensJoin(st: State, xs: seq<Token>, ys: seq<Token>)
    requires StacksOk(st) && CompileTokens(st, xs).Next?
    ensures CompileTokens(st, xs + ys) == CompileTokens(CompileTokens(st, xs).st, ys)
    decreases |xs|
  {
    hide CompileToken;
    if xs == [] {
      assert xs + ys == ys;
    } else {
      assert (xs + ys)[1..] == xs[1..] + ys;
      TokensJoin(CompileToken(st, xs[0]).st, xs[1..], ys);
    }
  }

  lemma OneToken(st: State, t: Token)
    requires StacksOk(st)
    ensures CompileTokens(st, [t]) == CompileToken(st, t)
  {
    hide CompileToken;
    assert [t][1..] == [];
    match CompileToken(st, t)
    case Stop(_) =>
    case Next(s) => assert CompileTokens(s, []) == Next(s);
  }

  // Code and jumps put together.

  lemma KeptCode(m: Memory, n: Memory, a: int, code: seq<byte>)
    requires CodeAt(m, a, code) && forall x :: a <= x < a + |code| ==> n[x] == m[x]
    ensures CodeAt(n, a, code)
  {
  }

  // What later code leaves of a jump laid before it.
  lemma JumpKept(m: Memory, n: Memory, a: nat, here: nat, size: nat, d: cell, c: cell)
    requires Changes(m, n, here, size, d, c + 2) && DICTIONARY_START <= a && a < here && here + size <= d
    requires SPACE_TOP <= d && d + 2 <= c && here + size <= SPACE_TOP && c + 2 < SIZE
    ensures n[a] == m[a] && Fetch16(n, c) == Fetch16(m, c)
  {
    assert Spared(a, here, size, d, c + 2) && Spared(c, here, size, d, c + 2) && Spared(c + 1, here, size, d, c + 2);
  }

  lemma ThenCode(m: Memory, m1: Memory, m2: Memory, m3: Memory, here: nat, code: seq<byte>, d: cell, c: cell)
    requires DICTIONARY_START <= here && here + 4 + |code| <= SPACE_TOP <= d
             && d + 2 <= CONTROL_BOTTOM <= c < CONTROL_TOP - 2
    requires Changes(m, m1, here, 3, d, c) && m1[here] == JMP_FALSE
    requires Changes(m1, m2, here + 3, |code|, d, c + 2) && CodeAt(m2, here + 3, code)
    requires var z := here + 3 + |code|; Patched(m2, m3, here + 1, z, z, 1, CONTROL_TOP) && m3[z] == NOP
    ensures Changes(m, m3, here, 4 + |code|, d, c)
    ensures CodeAt(m3, here, Operand(JMP_FALSE, here + 3 + |code|) + code + [NOP])
  {
    var z := here + 3 + |code|;
    forall x | 0 <= x < SIZE && Spared(x, here, 4 + |code|, d, c) ensures m3[x] == m[x] {
      assert Spared(x, here, 3, d, c) && Spared(x, here + 3, |code|, d, c + 2)
        && Spared(x, z, 1, CONTROL_TOP - 2, CONTROL_TOP);
    }
    assert m3[here] == JMP_FALSE by {
      assert Spared(here, here + 3, |code|, d, c + 2) && Spared(here, z, 1, CONTROL_TOP - 2, CONTROL_TOP);
    }
    OperandAt(m3, here, JMP_FALSE, z);
    forall x | here + 3 <= x < z ensures m3[x] == m2[x] {
      assert Spared(x, z, 1, CONTROL_TOP - 2, CONTROL_TOP);
    }
    KeptCode(m2, m3, here + 3, code);
    assert CodeAt(m3, z, [NOP]);
    CodeSplit(m3, here, Operand(JMP_FALSE, z), code);
    CodeSplit(m3, here, Operand(JMP_FALSE, z) + code, [NOP]);
  }

  lemma LoopCode(m: Memory, m1: Memory, m2: Memory, m3: Memory, here: nat, code: seq<byte>, d: cell, c: cell)
    requires DICTIONARY_START <= here && here + 4 + |code| <= SPACE_TOP <= d
             && d + 2 <= CONTROL_BOTTOM <= c < CONTROL_TOP
    requires Changes(m, m1, here, 1, d, c) && m1[here] == NOP
    requires Changes(m1, m2, here + 1, |code|, d, c + 2) && CodeAt(m2, here + 1, code)
    requires var z := here + 1 + |code|; Changes(m2, m3, z, 3, d, c + 2) && CodeAt(m3, z, Operand(JMP, here))
    ensures Changes(m, m3, here, 4 + |code|, d, c)
    ensures CodeAt(m3, here, [NOP] + code + Operand(JMP, here))
  {
    var z := here + 1 + |code|;
    forall x | 0 <= x < SIZE && Spared(x, here, 4 + |code|, d, c) ensures m3[x] == m[x] {
      assert Spared(x, here, 1, d, c) && Spared(x, here + 1, |code|, d, c + 2) && Spared(x, z, 3, d, c + 2);
    }
    forall x | here <= x < z ensures m3[x] == m2[x] {
      assert Spared(x, z, 3, d, c + 2);
    }
    assert Spared(here, here + 1, |code|, d, c + 2);
    KeptCode(m2, m3, here + 1, code);
    assert CodeAt(m3, here, [NOP]);
    CodeSplit(m3, here, [NOP], code);
    CodeSplit(m3, here, [NOP] + code, Operand(JMP, here));
  }

  // The second half of IF ... ELSE ... THEN, from the ELSE on: the first half, with
  // its jump filled in, is the code x.
  lemma ElseCode(m2: Memory, m3: Memory, m4: Memory, m5: Memory, here: nat, y: nat, code: seq<byte>, d: cell, c: cell)
    requires DICTIONARY_START <= here && here + 3 <= y && y + 4 + |code| <= SPACE_TOP <= d
    requires d + 2 <= CONTROL_BOTTOM <= c < CONTROL_TOP - 2
    requires Patched(m2, m3, here + 1, y + 3, y, 3, c) && m3[y] == JMP
    requires Changes(m3, m4, y + 3, |code|, d, c + 2) && CodeAt(m4, y + 3, code)
    requires var z := y + 3 + |code|; Patched(m4, m5, y + 1, z, z, 1, CONTROL_TOP) && m5[z] == NOP
    ensures forall x :: 0 <= x < SIZE && !(here + 1 <= x < here + 3) && Spared(x, y, 4 + |code|, d, c) ==>
            m5[x] == m2[x]
    ensures m5[here + 1] == Low(y + 3) && m5[here + 2] == High(y + 3)
    ensures CodeAt(m5, y, Operand(JMP, y + 3 + |code|) + code + [NOP])
  {
    var z := y + 3 + |code|;
    forall x | 0 <= x < SIZE && !(here + 1 <= x < here + 3) && Spared(x, y, 4 + |code|, d, c) ensures m5[x] == m2[x] {
      assert Spared(x, y, 3, CONTROL_TOP - 2, c) && Spared(x, y + 3, |code|, d, c + 2);
      assert Spared(x, z, 1, CONTROL_TOP - 2, CONTROL_TOP);
    }
    forall x | here + 1 <= x < here + 3 || x == y ensures m5[x] == m3[x] {
      assert Spared(x, y + 3, |code|, d, c + 2) && Spared(x, z, 1, CONTROL_TOP - 2, CONTROL_TOP);
    }
    OperandAt(m5, y, JMP, z);
    forall x | y + 3 <= x < z ensures m5[x] == m4[x] {
      assert Spared(x, z, 1, CONTROL_TOP - 2, CONTROL_TOP);
    }
    KeptCode(m4, m5, y + 3, code);
    assert CodeAt(m5, z, [NOP]);
    CodeSplit(m5, y, Operand(JMP, z), code);
    CodeSplit(m5, y, Operand(JMP, z) + code, [NOP]);
  }

  // And the first half.

  lemma ForkChanges(m: Memory, m1: Memory, m2: Memory, m5: Memory, here: nat, k: nat, size: nat, d: cell, c: cell)
    requires Changes(m, m1, here, 3, d, c) && Changes(m1, m2, here + 3, k, d, c + 2)
    requires var y := here + 3 + k;
             forall i :: 0 <= i < SIZE && !(here + 1 <= i < here + 3) && Spared(i, y, size, d, c) ==> m5[i] == m2[i]
    ensures Changes(m, m5, here, 3 + k + size, d, c)
  {
    forall i | 0 <= i < SIZE && Spared(i, here, 3 + k + size, d, c) ensures m5[i] == m[i] {
      assert Spared(i, here, 3, d, c) && Spared(i, here + 3, k, d, c + 2) && Spared(i, here + 3 + k, size, d, c);
    }
  }

  // What is left of the first half at the end.
  lemma ForkKept(m1: Memory, m2: Memory, m5: Memory, here: nat, k: nat, size: nat, d: cell, c: cell)
    requires DICTIONARY_START <= here && here + 3 + k + size <= SPACE_TOP <= d && d + 2 <= CONTROL_BOTTOM <= c
    requires Changes(m1, m2, here + 3, k, d, c + 2)
    requires var y := here + 3 + k;
             forall i :: 0 <= i < SIZE && !(here + 1 <= i < here + 3) && Spared(i, y, size, d, c) ==> m5[i] == m2[i]
    ensures m5[here] == m1[here] && forall i :: here + 3 <= i < here + 3 + k ==> m5[i] == m2[i]
  {
    var y := here + 3 + k;
    assert Spared(here, here + 3, k, d, c + 2) && Spared(here, y, size, d, c);
    forall i | here + 3 <= i < y ensures m5[i] == m2[i] {
      assert Spared(i, y, size, d, c);
    }
  }

  lemma ForkCode(m: Memory, m1: Memory, m2: Memory, m5: Memory, here: nat, x: seq<byte>, x2: seq<byte>, d: cell,
      c: cell)
    requires DICTIONARY_START <= here && here + 7 + |x| + |x2| <= SPACE_TOP <= d && d + 2 <= CONTROL_BOTTOM <= c
    requires Changes(m, m1, here, 3, d, c) && m1[here] == JMP_FALSE
    requires Changes(m1, m2, here + 3, |x|, d, c + 2) && CodeAt(m2, here + 3, x)
    requires var y := here + 3 + |x|;
             && (forall i :: 0 <= i < SIZE && !(here + 1 <= i < here + 3) && Spared(i, y, 4 + |x2|, d, c) ==>
                m5[i] == m2[i])
             && m5[here + 1] == Low(y + 3) && m5[here + 2] == High(y + 3)
             && CodeAt(m5, y, Operand(JMP, y + 3 + |x2|) + x2 + [NOP])
    ensures Changes(m, m5, here, 7 + |x| + |x2|, d, c)
    ensures var no := here + 6 + |x|;
            CodeAt(m5, here, Operand(JMP_FALSE, no) + x + Operand(JMP, no + |x2|) + x2 + [NOP])
  {
    hide Changes, Spared, Low, High;
    var y := here + 3 + |x|;
    var no, over := Operand(JMP_FALSE, y + 3), Operand(JMP, y + 3 + |x2|);
    ForkChanges(m, m1, m2, m5, here, |x|, 4 + |x2|, d, c);
    ForkKept(m1, m2, m5, here, |x|, 4 + |x2|, d, c);
    OperandAt(m5, here, JMP_FALSE, y + 3);
    KeptCode(m2, m5, here + 3, x);
    CodeSplit(m5, here, no, x);
    CodeSplit(m5, here, no + x, over + x2 + [NOP]);
    ForkJoins(no, x, over, x2);
  }

  // The theorem: the tokens of p, compiled in one pass, leave exactly the code of p
  // at HERE and change nothing else but free cells of the stacks.
  lemma {:induction false} CompileBody(st: State, p: Body, bound: int) returns (s: State)
    requires Roomy(st, Size(st.mem, p), Nest(p)) && Known(st.mem, bound, p) && bound <= Where(st.mem)
    ensures CompileTokens(st, Tokens(p)) == Next(s)
    ensures Compiled(st, s, Code(st.mem, p, Where(st.mem)))
    decreases p
  {
    hide Fetch16, CompileToken, Size, Code, SameOn, Changes, CodeAt, CompileTokens;
    match p
    case Nothing => s := st; NothingCompiled(st);
    case Use(xt) =>
      OneToken(st, Word(xt));
      LeafSize(st.mem, p);
      UseLays(st, xt, bound);
      s := CompileToken(st, Word(xt)).st;
    case Value(v) =>
      OneToken(st, Number(v));
      LeafSize(st.mem, p);
      ValueLays(st, v);
      s := CompileToken(st, Number(v)).st;
    case Both(p1, p2) => s := CompileBoth(st, p1, p2, bound);
    case IfThen(p1) => s := CompileIfThen(st, p1, bound);
    case IfElse(p1, p2) => s := CompileIfElse(st, p1, p2, bound);
    case Loop(p1) => s := CompileLoop(st, p1, bound);
  }

  lemma LeafSize(m: Memory, p: Body)
    ensures p.Use? ==> Size(m, p) == UseSize(m, p.xt)
    ensures p.Value? ==> Size(m, p) == 3
  {
  }

  lemma NothingCompiled(st: State)
    requires Roomy(st, Size(st.mem, Nothing), 0)
    ensures CompileTokens(st, []) == Next(st) && Compiled(st, st, Code(st.mem, Nothing, Where(st.mem)))
  {
  }

  // The same dictionary, and so the same code, after some of it was laid.
  lemma Still(st: State, s: State, size: nat, p: Body, bound: int, a: nat)
    requires StacksOk(st) && Changes(st.mem, s.mem, Where(st.mem), size, st.data, st.control)
    requires Known(st.mem, bound, p) && bound <= Where(st.mem) <= SPACE_TOP
    ensures Known(s.mem, bound, p) && Size(s.mem, p) == Size(st.mem, p) && Code(s.mem, p, a) == Code(st.mem, p, a)
  {
    hide Fetch16, Changes, Size, Code;
    ChangesBelow(st.mem, s.mem, Where(st.mem), size, st.data, st.control, DICTIONARY_START, bound);
    SameCode(st.mem, s.mem, bound, p, a);
  }

  lemma {:induction false} CompileBoth(st: State, p1: Body, p2: Body, bound: int) returns (s: State)
    requires Roomy(st, Size(st.mem, Both(p1, p2)), Nest(Both(p1, p2))) && Known(st.mem, bound, Both(p1, p2))
    requires bound <= Where(st.mem)
    ensures CompileTokens(st, Tokens(Both(p1, p2))) == Next(s)
    ensures Compiled(st, s, Code(st.mem, Both(p1, p2), Where(st.mem)))
    decreases Both(p1, p2), 0
  {
    hide Fetch16, CompileToken, Size, Code, SameOn, Changes, CodeAt, CompileTokens;
    var here := Where(st.mem);
    BothShape(st.mem, p1, p2, here);
    var x, y := Code(st.mem, p1, here), Code(st.mem, p2, here + Size(st.mem, p1));
    var s1 := CompileBody(st, p1, bound);
    Still(st, s1, |x|, p2, bound, here + |x|);
    s := CompileBody(s1, p2, bound);
    TokensJoin(st, Tokens(p1), Tokens(p2));
    ChangesJoin(st.mem, s1.mem, s.mem, here, |x|, |y|, st.data, st.control, st.control);
    CodeKept(s1.mem, s.mem, here, x, |y|, st.data, st.control);
    CodeSplit(s.mem, here, x, y);
  }

  lemma CodeKept(m: Memory, n: Memory, here: nat, x: seq<byte>, size: nat, d: cell, c: cell)
    requires Changes(m, n, here + |x|, size, d, c) && CodeAt(m, here, x)
    requires DICTIONARY_START <= here && DATA_BOTTOM <= d && CONTROL_BOTTOM <= c
    ensures CodeAt(n, here, x)
  {
    forall i | here <= i < here + |x| ensures n[i] == m[i] {
      assert Spared(i, here + |x|, size, d, c);
    }
    KeptCode(m, n, here, x);
  }

  lemma {:induction false} CompileIfThen(st: State, p1: Body, bound: int) returns (s: State)
    requires Roomy(st, Size(st.mem, IfThen(p1)), Nest(IfThen(p1))) && Known(st.mem, bound, IfThen(p1))
    requires bound <= Where(st.mem)
    ensures CompileTokens(st, Tokens(IfThen(p1))) == Next(s)
    ensures Compiled(st, s, Code(st.mem, IfThen(p1), Where(st.mem)))
    decreases IfThen(p1), 0
  {
    hide Fetch16, If, Then, Size, Code, SameOn, Changes, CodeAt, CompileTokens, Patched, Low, High;
    var here := Where(st.mem);
    IfThenShape(st.mem, p1, here);
    var x := Code(st.mem, p1, here + 3);
    IfLays(st);
    var s1 := If(st).st;
    Still(st, s1, 3, p1, bound, here + 3);
    var s2 := CompileBody(s1, p1, bound);
    JumpKept(s1.mem, s2.mem, here, here + 3, |x|, st.data, st.control);
    ThenLays(s2, here + 1);
    s := Then(s2).st;
    ThenCode(st.mem, s1.mem, s2.mem, s.mem, here, x, st.data, st.control);
    OneToken(st, TokIf);
    OneToken(s2, TokThen);
    TokensJoin(st, [TokIf], Tokens(p1));
    TokensJoin(st, [TokIf] + Tokens(p1), [TokThen]);
  }

  lemma {:induction false} CompileLoop(st: State, p1: Body, bound: int) returns (s: State)
    requires Roomy(st, Size(st.mem, Loop(p1)), Nest(Loop(p1))) && Known(st.mem, bound, Loop(p1))
    requires bound <= Where(st.mem)
    ensures CompileTokens(st, Tokens(Loop(p1))) == Next(s)
    ensures Compiled(st, s, Code(st.mem, Loop(p1), Where(st.mem)))
    decreases Loop(p1), 0
  {
    hide Fetch16, Begin, Again, Size, Code, SameOn, Changes, CodeAt, CompileTokens, Low, High;
    var here := Where(st.mem);
    LoopShape(st.mem, p1, here);
    var x := Code(st.mem, p1, here + 1);
    BeginLays(st);
    var s1 := Begin(st).st;
    Still(st, s1, 1, p1, bound, here + 1);
    var s2 := CompileBody(s1, p1, bound);
    JumpKept(s1.mem, s2.mem, here, here + 1, |x|, st.data, st.control);
    AgainLays(s2, here);
    s := Again(s2).st;
    LoopCode(st.mem, s1.mem, s2.mem, s.mem, here, x, st.data, st.control);
    OneToken(st, TokBegin);
    OneToken(s2, TokAgain);
    TokensJoin(st, [TokBegin], Tokens(p1));
    TokensJoin(st, [TokBegin] + Tokens(p1), [TokAgain]);
  }

  lemma {:induction false} CompileIfElse(st: State, p1: Body, p2: Body, bound: int) returns (s: State)
    requires Roomy(st, Size(st.mem, IfElse(p1, p2)), Nest(IfElse(p1, p2))) && Known(st.mem, bound, IfElse(p1, p2))
    requires bound <= Where(st.mem)
    ensures CompileTokens(st, Tokens(IfElse(p1, p2))) == Next(s)
    ensures Compiled(st, s, Code(st.mem, IfElse(p1, p2), Where(st.mem)))
    decreases IfElse(p1, p2), 1
  {
    hide Fetch16, If, Then, Else, Size, Code, SameOn, Changes, CodeAt, CompileTokens, Low, High, Spared;
    var here, d, c := Where(st.mem), st.data, st.control;
    IfElseShape(st.mem, p1, p2, here);
    var y := here + 3 + Size(st.mem, p1);
    var x1, x2 := Code(st.mem, p1, here + 3), Code(st.mem, p2, y + 3);
    var s1, s2 := CompileFirst(st, p1, p2, bound);
    var s3, s4;
    s3, s4, s := CompileElse(s2, here, p1, p2, bound);
    ForkCode(st.mem, s1.mem, s2.mem, s.mem, here, x1, x2, d, c);
    ElseTokens(st, s1, s2, s3, s4, p1, p2);
  }

  // Up to the ELSE.
  lemma {:induction false} CompileFirst(st: State, p1: Body, p2: Body, bound: int) returns (s1: State, s2: State)
    requires Roomy(st, 3 + Size(st.mem, p1), 1 + Nest(p1)) && Known(st.mem, bound, p1) && Known(st.mem, bound, p2)
    requires bound <= Where(st.mem)
    ensures If(st) == Next(s1) && s1 == st.(mem := s1.mem, control := st.control + 2)
    ensures Changes(st.mem, s1.mem, Where(st.mem), 3, st.data, st.control) && s1.mem[Where(st.mem)] == JMP_FALSE
    ensures CompileTokens(s1, Tokens(p1)) == Next(s2) && s2 == s1.(mem := s2.mem)
    ensures var here, x := Where(st.mem) as int, Code(st.mem, p1, Where(st.mem) + 3);
            && Where(s2.mem) == here + 3 + |x| && CodeAt(s2.mem, here + 3, x)
            && Changes(s1.mem, s2.mem, here + 3, |x|, st.data, st.control + 2)
            && Fetch16(s2.mem, st.control) == here + 1
    ensures Known(s2.mem, bound, p2) && Size(s2.mem, p2) == Size(st.mem, p2)
    ensures forall a: nat :: Code(s2.mem, p2, a) == Code(st.mem, p2, a)
    decreases IfElse(p1, p2), 0
  {
    hide Fetch16, If, Size, Code, SameOn, Changes, CodeAt, CompileTokens, Low, High, Spared;
    var here := Where(st.mem);
    var x := Code(st.mem, p1, here + 3);
    IfLays(st);
    s1 := If(st).st;
    Still(st, s1, 3, p1, bound, here + 3);
    s2 := CompileBody(s1, p1, bound);
    JumpKept(s1.mem, s2.mem, here, here + 3, |x|, st.data, st.control);
    forall a: nat ensures Known(s2.mem, bound, p2) && Size(s2.mem, p2) == Size(st.mem, p2)
                          && Code(s2.mem, p2, a) == Code(st.mem, p2, a)
    {
      Still(st, s1, 3, p2, bound, a);
      Still(s1, s2, |x|, p2, bound, a);
    }
    assert Code(s2.mem, p2, 0) == Code(st.mem, p2, 0);
  }

  // From the ELSE on.
  lemma {:induction false} CompileElse(s2: State, here: nat, p1: Body, p2: Body, bound: int)
    returns (s3: State, s4: State, s: State)
    requires Roomy(s2, 4 + Size(s2.mem, p2), Nest(p2)) && Known(s2.mem, bound, p2)
    requires DICTIONARY_START <= here && here + 3 <= Where(s2.mem) && bound <= here
    requires s2.control != CONTROL_BOTTOM && Fetch16(s2.mem, s2.control - 2) == here + 1
    ensures Else(s2) == Next(s3) && CompileTokens(s3, Tokens(p2)) == Next(s4) && Then(s4) == Next(s)
    ensures var y, x2 := Where(s2.mem), Code(s2.mem, p2, Where(s2.mem) + 3);
            && s == s2.(mem := s.mem, control := s2.control - 2) && Where(s.mem) == y + 4 + |x2|
            && (forall x :: (0 <= x < SIZE && !(here + 1 <= x < here + 3)
                             && Spared(x, y, 4 + |x2|, s2.data, s2.control - 2)) ==> s.mem[x] == s2.mem[x])
            && s.mem[here + 1] == Low(y + 3) && s.mem[here + 2] == High(y + 3)
            && CodeAt(s.mem, y, Operand(JMP, y + 3 + |x2|) + x2 + [NOP])
    decreases IfElse(p1, p2), 0
  {
    hide Fetch16, If, Then, Else, Size, Code, SameOn, Changes, CodeAt, CompileTokens, Patched, Low, High, Spared;
    var y, d, c := Where(s2.mem), s2.data, s2.control - 2;
    var x2 := Code(s2.mem, p2, y + 3);
    ElseLays(s2, here + 1);
    s3 := Else(s2).st;
    StillElse(s2, s3, here + 1, p2, bound, y + 3);
    s4 := CompileBody(s3, p2, bound);
    JumpKept(s3.mem, s4.mem, y, y + 3, |x2|, d, c);
    ThenLays(s4, y + 1);
    s := Then(s4).st;
    ElseCode(s2.mem, s3.mem, s4.mem, s.mem, here, y, x2, d, c);
  }

  lemma ForkJoins(a: seq<byte>, x: seq<byte>, b: seq<byte>, y: seq<byte>)
    ensures a + x + (b + y + [NOP]) == a + x + b + y + [NOP]
  {
  }

  lemma ElseTokens(st: State, s1: State, s2: State, s3: State, s4: State, p1: Body, p2: Body)
    requires StacksOk(st) && If(st) == Next(s1) && CompileTokens(s1, Tokens(p1)) == Next(s2)
    requires Else(s2) == Next(s3) && CompileTokens(s3, Tokens(p2)) == Next(s4)
    ensures CompileTokens(st, Tokens(IfElse(p1, p2))) == Then(s4)
  {
    hide If, Then, Else, CompileTokens;
    OneToken(st, TokIf);
    OneToken(s2, TokElse);
    OneToken(s4, TokThen);
    var ts := [TokIf] + Tokens(p1);
    TokensJoin(st, [TokIf], Tokens(p1));
    TokensJoin(st, ts, [TokElse]);
    TokensJoin(st, ts + [TokElse], Tokens(p2));
    TokensJoin(st, ts + [TokElse] + Tokens(p2), [TokThen]);
  }

  // ELSE writes nothing below the jump it fills in.
  lemma StillElse(s2: State, s3: State, a: int, p: Body, bound: int, b: nat)
    requires StacksOk(s2) && Known(s2.mem, bound, p) && bound <= a && Where(s2.mem) <= SPACE_TOP
    requires Patched(s2.mem, s3.mem, a, Where(s2.mem) + 3, Where(s2.mem), 3, s2.control - 2)
    ensures Known(s3.mem, bound, p) && Size(s3.mem, p) == Size(s2.mem, p) && Code(s3.mem, p, b) == Code(s2.mem, p, b)
  {
    hide Fetch16, Size, Code, Low, High;
    forall x | DICTIONARY_START <= x < bound ensures s2.mem[x] == s3.mem[x] {
      assert Spared(x, Where(s2.mem), 3, CONTROL_TOP - 2, s2.control - 2);
    }
    SameCode(s2.mem, s3.mem, bound, p, b);
  }
}
