// What the words of the first system that read and write memory and input do, by the
// values they take and leave and the text they read.
module ByteStorage {
  import opened Dataspace
  import opened ByteState
  import opened ByteWords
  import opened ByteProgram
  import opened ByteEffect

  // `!` takes the value from the top and the address from below it, stores the value
  // and changes nothing else below the stacks; @ then shows it.
  lemma StoreShown(st: State, s: seq<cell>, a: cell, v: cell, ans: Answers)
    requires StacksOk(st) && DataOf(st) == s + [a, v] && a + 2 <= SPACE_TOP
    ensures Store(st).Next?
    ensures var r := Store(st).st;
            && StacksOk(r) && r == st.(mem := r.mem, data := r.data) && DataOf(r) == s && Fetch16(r.mem, a) == v
            && (forall x :: 0 <= x < SIZE && x != a && x != a + 1 ==> r.mem[x] == st.mem[x])
            && CodeEffect(r.mem, FETCH, s + [a], 0) == Gives(s + [v])
  {
    hide Fetch16, Store16, SameOn, Cells;
    Depths(st);
    assert s + [a, v] == s + [a] + [v];
    assert Last(s + [a] + [v]) == v && Front(s + [a] + [v]) == s + [a];
    assert Last(s + [a]) == a && Front(s + [a]) == s;
    Self(st);
    Pops1(st, st.mem);
    var t := PopData(st).st;
    Depths(t);
    Pops1(t, st.mem);
    var u := PopData(t).st;
    var r := Store(st).st;
    StoredCell(st.mem, a, v);
    SamePart(u.mem, r.mem, SPACE_TOP, SIZE, DATA_BOTTOM, u.data);
    CellsFrame(u.mem, r.mem, DATA_BOTTOM, u.data);
  }

  lemma Self(st: State)
    requires StacksOk(st)
    ensures Running(st, st.mem)
  {
  }

  lemma StoredCell(m: Memory, a: cell, v: cell)
    requires a + 2 <= SPACE_TOP
    ensures var n := Store16(m, a, v);
            && Fetch16(n, a) == v && SameOn(m, n, SPACE_TOP, SIZE)
            && forall x :: 0 <= x < SIZE && x != a && x != a + 1 ==> n[x] == m[x]
  {
    FetchStored(m, a, v);
  }

  // ALLOT moves HERE on by the value it takes, and only that.
  lemma AllotMoves(st: State, s: seq<cell>, n: cell)
    requires StacksOk(st) && DataOf(st) == s + [n]
    ensures Allot(st).Next?
    ensures var r := Allot(st).st;
            && StacksOk(r) && r == st.(mem := r.mem, data := r.data) && DataOf(r) == s
            && Where(r.mem) == (Where(st.mem) + n) % 0x1_0000
            && forall x :: 0 <= x < SIZE && x != LOC_WHERE && x != LOC_WHERE + 1 ==> r.mem[x] == st.mem[x]
  {
    hide Fetch16, Store16, SameOn, Cells;
    Depths(st);
    assert Last(s + [n]) == n && Front(s + [n]) == s;
    Self(st);
    Pops1(st, st.mem);
    var t, r := PopData(st).st, Allot(st).st;
    StoredCell(st.mem, LOC_WHERE, Wrap(n + Where(st.mem)));
    SamePart(t.mem, r.mem, SPACE_TOP, SIZE, DATA_BOTTOM, t.data);
    CellsFrame(t.mem, r.mem, DATA_BOTTOM, t.data);
  }

  // (ACCEPT) makes the next line, up to its newline, what is in the input buffer, and
  // leaves the lines behind it; of a longer line it takes the first 254 characters.  Of
  // the index only the low byte is reset.
  lemma AcceptReads(st: State, line: seq<byte>, rest: seq<byte>)
    requires StacksOk(st) && st.input == line + [NEWLINE] + rest && NEWLINE !in line && 0 !in line
    ensures Accept(st).Next?
    ensures var s := Accept(st).st;
            var text := if |line| < 254 then line + [NEWLINE] else line[..254];
            && s == st.(mem := s.mem, input := s.input)
            && s.input == (if |line| < 254 then rest else line[254..] + [NEWLINE] + rest)
            && s.mem[LOC_INPUT_BUFFER..LOC_INPUT_BUFFER + |text|] == text
            && Fetch16(s.mem, LOC_INPUT_BUFFER_COUNT) == |text| && s.mem[LOC_INPUT_BUFFER_INDEX] == 0
            && s.mem[LOC_INPUT_BUFFER_INDEX + 1] == st.mem[LOC_INPUT_BUFFER_INDEX + 1]
  {
    hide FgetsLength, CString, Fetch16, Store16;
    FgetsLine(line, rest, LINE_SIZE);
    var n := FgetsLength(st.input, LINE_SIZE);
    var text := st.input[..n];
    if |line| < 254 {
      assert text == line + [NEWLINE];
    } else {
      assert text == line[..254];
      assert forall x :: x in text ==> x in line;
    }
    NoNul(text);
    CodeIn(st.mem, text);
  }

  lemma CodeIn(m: Memory, text: seq<byte>)
    requires |text| < INPUT_BUFFER_SIZE
    ensures var n := SetCode(m, text);
            && n[LOC_INPUT_BUFFER..LOC_INPUT_BUFFER + |text|] == text
            && Fetch16(n, LOC_INPUT_BUFFER_COUNT) == |text| && n[LOC_INPUT_BUFFER_INDEX] == 0
            && n[LOC_INPUT_BUFFER_INDEX + 1] == m[LOC_INPUT_BUFFER_INDEX + 1]
  {
    var m1 := Store8(Blit(m, LOC_INPUT_BUFFER, text), LOC_INPUT_BUFFER + |text|, 0);
    var m2 := Store16(m1, LOC_INPUT_BUFFER_COUNT, |text|);
    FetchStored(m1, LOC_INPUT_BUFFER_COUNT, |text|);
    assert m1[LOC_INPUT_BUFFER..LOC_INPUT_BUFFER + |text|] == text;
    assert SetCode(m, text)[LOC_INPUT_BUFFER..LOC_INPUT_BUFFER + |text|] == text;
  }

  // A run of characters that are all white space, or none of them.
  predicate Alike(x: seq<byte>, space: bool) {
    forall i :: 0 <= i < |x| ==> IsWhite(x[i]) == space
  }

  lemma {:induction false} SkipsRun(m: Memory, i: nat, n: nat, x: seq<byte>, y: seq<byte>, space: bool)
    requires i <= n <= INPUT_BUFFER_SIZE && m[LOC_INPUT_BUFFER + i..LOC_INPUT_BUFFER + n] == x + y
    requires Alike(x, space) && (y == [] || IsWhite(y[0]) != space)
    ensures SkipWhile(m, i, n, space) == i + |x|
    decreases |x|
  {
    var text := m[LOC_INPUT_BUFFER + i..LOC_INPUT_BUFFER + n];
    if x != [] {
      assert m[LOC_INPUT_BUFFER + i] == text[0];
      assert m[LOC_INPUT_BUFFER + (i + 1)..LOC_INPUT_BUFFER + n] == text[1..] == x[1..] + y;
      SkipsRun(m, i + 1, n, x[1..], y, space);
    } else if y != [] {
      assert m[LOC_INPUT_BUFFER + i] == text[0] == y[0];
    }
  }

  // PARSE-NAME delivers the next maximal run of characters that are not white space,
  // and goes on behind it.
  lemma ParseReads(m: Memory, x: seq<byte>, name: seq<byte>, y: seq<byte>)
    requires var i, n := Fetch16(m, LOC_INPUT_BUFFER_INDEX), Fetch16(m, LOC_INPUT_BUFFER_COUNT);
             i <= n <= INPUT_BUFFER_SIZE && m[LOC_INPUT_BUFFER + i..LOC_INPUT_BUFFER + n] == x + name + y
    requires Alike(x, true) && Alike(name, false) && (y == [] || IsWhite(y[0])) && (name == [] ==> y == [])
    ensures var i := Fetch16(m, LOC_INPUT_BUFFER_INDEX);
            ParseName(m) == Name(Store16(m, LOC_INPUT_BUFFER_INDEX, i + |x| + |name|), LOC_INPUT_BUFFER + i + |x|, name)
  {
    hide Fetch16, Store16, SkipWhile, IsWhite, Alike;
    NameThere(m, Fetch16(m, LOC_INPUT_BUFFER_INDEX), Fetch16(m, LOC_INPUT_BUFFER_COUNT), x, name, y);
  }

  lemma NameThere(m: Memory, i: nat, n: nat, x: seq<byte>, name: seq<byte>, y: seq<byte>)
    requires i <= n <= INPUT_BUFFER_SIZE && m[LOC_INPUT_BUFFER + i..LOC_INPUT_BUFFER + n] == x + name + y
    requires Alike(x, true) && Alike(name, false) && (y == [] || IsWhite(y[0])) && (name == [] ==> y == [])
    ensures var a := i + |x|;
            && SkipWhile(m, i, n, true) == a && a <= n && SkipWhile(m, a, n, false) == a + |name| <= n
            && m[LOC_INPUT_BUFFER + a..LOC_INPUT_BUFFER + (a + |name|)] == name
  {
    hide SkipWhile, IsWhite, Alike;
    var p, text := LOC_INPUT_BUFFER + i, x + name + y;
    assert |text| == n - i && m[p..p + |text|] == text;
    Split(m, p, x, name, y);
    FirstCharacter(name, y);
    SkipsRun(m, i, n, x, name + y, true);
    SkipsRun(m, i + |x|, n, name, y, false);
  }

  lemma FirstCharacter(name: seq<byte>, y: seq<byte>)
    requires Alike(name, false) && (y == [] || IsWhite(y[0])) && (name == [] ==> y == [])
    ensures name + y == [] || !IsWhite((name + y)[0])
  {
  }

  lemma Split(m: Memory, p: nat, x: seq<byte>, name: seq<byte>, y: seq<byte>)
    requires var text := x + name + y; p + |text| <= SIZE && m[p..p + |text|] == text
    ensures var n := p + |x| + |name| + |y|;
            && m[p..n] == x + (name + y) && m[p + |x|..n] == name + y && m[p + |x|..p + |x| + |name|] == name
  {
    var text := x + name + y;
    assert text == x + (name + y);
    Part(m, p, text, |x|, |text|);
    assert text[|x|..] == name + y;
    Part(m, p, text, |x|, |x| + |name|);
    assert text[|x|..|x| + |name|] == name;
  }

  lemma Part(m: Memory, p: nat, text: seq<byte>, i: nat, j: nat)
    requires p + |text| <= SIZE && m[p..p + |text|] == text && i <= j <= |text|
    ensures m[p + i..p + j] == text[i..j]
  {
    forall k | i <= k < j ensures m[p + k] == text[k] {
      assert m[p..p + |text|][k] == m[p + k];
    }
  }

  // FIND2 and (NUMBER) take two cells and leave the two of the answer.
  lemma AnswersLeft(st: State, op: byte, s: seq<cell>, a: cell, u: cell, ans: Answers)
    requires StacksOk(st) && op in {FIND2, PNUM} && DataOf(st) == s + [a, u]
    ensures Perform(st, op, ans).Next?
    ensures var r, v := Perform(st, op, ans).st, ans(op, st, [u, a]);
            SameFrame(st, r) && DataOf(r) == s + [v.0, v.1] && r.ip == Wrap(st.ip + 1) && Running(r, st.mem)
  {
    hide Fetch16, Store16, SameOn, Cells, PopMany, PushMany, Perform;
    Self(st);
    Depths(st);
    PerformsData(st, op, ans);
    PopsMany(st, st.mem, 2);
    var (o, xs) := PopMany(st, 2);
    assert (s + [a, u])[..|s|] == s && xs == [u, a];
    var v := ans(op, st, xs);
    PushesMany(o.st, st.mem, [v.0, v.1]);
  }

  // `:` writes a header at HERE with the name it has read, its count before and a NUL
  // behind it, leaves it off the chain, and turns STATE on.
  lemma ColonWrites(st: State, m: Memory, at: cell, name: seq<byte>)
    requires StacksOk(st) && ParseName(st.mem) == Name(m, at, name) && |name| < 0x100 && st.data + 4 < DATA_TOP
    requires DICTIONARY_START <= Where(m) && Where(m) + H_SIZE + 1 + |name| <= SPACE_TOP
    ensures Colon(st).Next?
    ensures var s, e := Colon(st).st, Where(m);
            && s == st.(mem := s.mem, dictNew := e) && Fetch16(s.mem, LOC_STATE) == 0xFFFF
            && s.mem[e + H_LENGTH] == |name| && s.mem[e + H_NAME..e + H_NAME + |name|] == name
            && s.mem[e + H_NAME + |name|] == 0 && FlagsOf(s.mem, e) == F_COLONDEF
            && Where(s.mem) == CodeStart(s.mem, e) == e + H_SIZE + 1 + |name|
  {
    hide Fetch16, Store16, SameOn, NewHeader;
    var e := Where(m);
    var m2 := Store16(Store16(m, st.data, at), st.data + 2, |name|);
    var m3 := NewHeader(m2, e, name);
    var m4 := Store16(m3, LOC_WHERE, e + H_SIZE + 1 + |name|);
    var n := Store16(m4, LOC_STATE, 0xFFFF);
    ColonMemory(m, st.data, at, e, name);
    HeaderNamed(m2, e, name);
    FetchStored(m4, LOC_STATE, 0xFFFF);
    StoreOutside(m3, LOC_WHERE, e + H_SIZE + 1 + |name|, DICTIONARY_START, SIZE);
    StoreOutside(m4, LOC_STATE, 0xFFFF, DICTIONARY_START, SIZE);
    SameBoth(m3, m4, n, DICTIONARY_START, SIZE);
    NameSame(m3, n, e, name);
  }

  lemma HeaderNamed(m: Memory, e: cell, name: seq<byte>)
    requires |name| < 0x100 && DICTIONARY_START <= e && e + H_SIZE + 1 + |name| <= SPACE_TOP
    ensures var n := NewHeader(m, e, name);
            && n[e + H_LENGTH] == |name| && n[e + H_NAME..e + H_NAME + |name|] == name && n[e + H_NAME + |name|] == 0
  {
  }

  lemma NameSame(m: Memory, n: Memory, e: cell, name: seq<byte>)
    requires SameOn(m, n, DICTIONARY_START, SIZE) && DICTIONARY_START <= e && e + H_SIZE + 1 + |name| <= SPACE_TOP
    ensures n[e + H_LENGTH] == m[e + H_LENGTH] && n[e + H_NAME + |name|] == m[e + H_NAME + |name|]
    ensures n[e + H_NAME..e + H_NAME + |name|] == m[e + H_NAME..e + H_NAME + |name|]
  {
  }

  // `;` links that header, lays LEAVE, makes HERE even and turns STATE off; nothing else
  // changes.
  lemma SemicolonWrites(st: State)
    requires StacksOk(st) && DICTIONARY_START <= st.dictNew && st.dictNew + H_SIZE < Where(st.mem) < SPACE_TOP - 2
    ensures Semicolon(st).Next?
    ensures var s, e, here := Semicolon(st).st, st.dictNew, Where(st.mem);
            && s == st.(mem := s.mem, dictHead := e, dictNew := 0)
            && Fetch16(s.mem, e) == st.dictHead && s.mem[here] == LEAVE && Fetch16(s.mem, LOC_STATE) == 0
            && here < Where(s.mem) <= here + 2 && Where(s.mem) % 2 == 0
            && forall x :: DICTIONARY_START <= x < SIZE && x != e && x != e + 1 && x != here ==> s.mem[x] == st.mem[x]
  {
    hide Fetch16, Store16;
    var e, here := st.dictNew, Where(st.mem);
    var w: cell := here + 1 + (here + 1) % 2;
    FetchElsewhere(st.mem, e, st.dictHead, LOC_WHERE);
    LinkedBytes(st.mem, e, here, st.dictHead, w);
    LinkedCells(Store8(Store16(st.mem, e, st.dictHead), here, LEAVE), w);
    FetchStored(st.mem, e, st.dictHead);
    FetchSame(Store16(st.mem, e, st.dictHead), Semicolon(st).st.mem, e, e + 2, e);
  }

  lemma LinkedCells(m: Memory, w: cell)
    ensures var n := Store16(Store16(m, LOC_WHERE, w), LOC_STATE, 0); Where(n) == w && Fetch16(n, LOC_STATE) == 0
  {
  }

  lemma LinkedBytes(m: Memory, e: cell, here: cell, head: cell, w: cell)
    requires DICTIONARY_START <= e && e + H_SIZE < here < SPACE_TOP
    ensures var m1 := Store16(m, e, head);
            var n := Store16(Store16(Store8(m1, here, LEAVE), LOC_WHERE, w), LOC_STATE, 0);
            && n[here] == LEAVE && SameOn(m1, n, e, e + 2)
            && forall x :: DICTIONARY_START <= x < SIZE && x != e && x != e + 1 && x != here ==> n[x] == m[x]
  {
  }
}
