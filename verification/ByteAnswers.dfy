// FIND2 and (NUMBER) of the first system: what they answer, and that it is the newest
// word of that name, in either case, and the value of the numeral.
module ByteAnswers {
  import opened Dataspace
  import opened Letters
  import opened Numerals
  import opened ByteState
  import opened ByteWords
  import opened ByteCompile

  // dict_find2.  A link that does not go down would make the original loop.
  datatype Search = Entry(at: cell) | NoEntry | Circle

  predicate NameIs(m: Memory, e: cell, a: cell, n: byte) {
    && m[Wrap(e + H_LENGTH)] == n && e + H_NAME + n <= 0xFFFF && a + n <= 0xFFFF
    && SameName(m, e + H_NAME, a, n)
  }

  function FindEntry(m: Memory, h: cell, a: cell, n: byte): Search
    decreases h
  {
    if NameIs(m, h, a, n) then Entry(h)
    else if Fetch16(m, h) == 0 then NoEntry
    else if Fetch16(m, h) < h then FindEntry(m, Fetch16(m, h), a, n)
    else Circle
  }

  predicate IsImmediate(m: Memory, e: cell) {
    FlagsOf(m, e) / 4 % 2 == 1
  }

  // The entry, and 1 for a word that is immediate and -1 for one that is not; or the
  // address and 0.  Of the count only eight bits are looked at, and an entry at 0
  // stands for none.
  function Find2(st: State, a: cell, u: cell): (cell, cell) {
    match FindEntry(st.mem, st.dictHead, a, u % 0x100)
    case Entry(e) => if e == 0 then (a, 0) else (e, if IsImmediate(st.mem, e) then 1 else 0xFFFF)
    case _ => (a, 0)
  }

  // The number in base ten and 1, or the address and 0.
  function Number2(st: State, a: cell, u: cell): (cell, cell) {
    match ReadText(st.mem, a, u, 10)
    case Converted(k) => (k, 1)
    case Wrong => (a, 0)
  }

  // The answers of the program, as a parameter of a run.
  function Real(op: nat, st: State, xs: seq<cell>): (cell, cell) {
    if |xs| != 2 then (0, 0)
    else if op == FIND2 then Find2(st, xs[1], xs[0])
    else Number2(st, xs[1], xs[0])
  }

  // The entries on the chain, newest first.
  ghost function Entries(m: Memory, h: cell, bound: int): (r: seq<cell>)
    requires DictionaryOk(m, h, bound)
    decreases h
  {
    if h == 0 then [] else [h] + Entries(m, Fetch16(m, h), h)
  }

  // The entry has that name, but for case.
  ghost predicate Bears(m: Memory, e: cell, name: seq<byte>) {
    var n := m[Wrap(e + H_LENGTH)];
    e + H_NAME + n <= 0xFFFF && SameLetters(m[e + H_NAME..e + H_NAME + n], name)
  }

  // A text FIND2 can look for.
  ghost predicate Lookable(m: Memory, a: cell, u: cell) {
    u < 0x100 && a + u <= 0xFFFF && 0 !in m[a..a + u]
  }

  lemma MatchesByName(m: Memory, e: cell, a: cell, u: byte)
    requires Lookable(m, a, u)
    ensures NameIs(m, e, a, u) <==> Bears(m, e, m[a..a + u])
  {
    hide SameName, SameLetters;
    var n := m[Wrap(e + H_LENGTH)];
    if e + H_NAME + n <= 0xFFFF {
      var name, text := m[e + H_NAME..e + H_NAME + n], m[a..a + u];
      if n == u {
        forall i | a <= i < a + u ensures m[i] != 0 { assert m[i] == text[i - a]; }
        SameNameLetters(m, a, e + H_NAME, u);
        Swapped(m, e + H_NAME, a, u);
        LettersSwapped(text, name);
      } else {
        LettersCount(name, text);
      }
    }
  }

  lemma {:induction false} Swapped(m: Memory, a: cell, b: cell, n: nat)
    requires a + n <= 0xFFFF && b + n <= 0xFFFF
    ensures SameName(m, a, b, n) == SameName(m, b, a, n)
    decreases n
  {
    if n > 1 { Swapped(m, a + 1, b + 1, n - 1); }
  }

  lemma LettersSwapped(x: seq<byte>, y: seq<byte>)
    ensures SameLetters(x, y) == SameLetters(y, x)
  {
    hide SameLetter;
    forall i | 0 <= i < |x| && i < |y| ensures SameLetter(x[i], y[i]) == SameLetter(y[i], x[i]) {
      FoldsCase(x[i], y[i]);
      FoldsCase(y[i], x[i]);
    }
  }

  lemma LettersCount(x: seq<byte>, y: seq<byte>)
    ensures SameLetters(x, y) ==> |x| == |y|
  {
  }

  // Entry i is the newest of that name.
  ghost predicate NewestAt(m: Memory, es: seq<cell>, name: seq<byte>, i: nat) {
    i < |es| && Bears(m, es[i], name) && forall j :: 0 <= j < i ==> !Bears(m, es[j], name)
  }

  ghost predicate IsNewest(m: Memory, es: seq<cell>, name: seq<byte>, e: cell) {
    exists i: nat :: NewestAt(m, es, name, i) && es[i] == e
  }

  ghost predicate NoneBears(m: Memory, es: seq<cell>, name: seq<byte>) {
    forall j :: 0 <= j < |es| ==> !Bears(m, es[j], name)
  }

  lemma {:induction false} SearchNewest(m: Memory, h: cell, bound: int, a: cell, u: byte)
    requires h != 0 && DictionaryOk(m, h, bound) && Lookable(m, a, u)
    ensures var es, name := Entries(m, h, bound), m[a..a + u];
            match FindEntry(m, h, a, u)
            case Entry(e) => e != 0 && IsNewest(m, es, name, e)
            case NoEntry => NoneBears(m, es, name)
            case Circle => false
    decreases h
  {
    hide NameIs, Bears, Fetch16;
    MatchesByName(m, h, a, u);
    var es, name, next := Entries(m, h, bound), m[a..a + u], Fetch16(m, h);
    assert es[0] == h;
    if NameIs(m, h, a, u) {
      assert NewestAt(m, es, name, 0) && es[0] == h;
    } else if next != 0 {
      SearchNewest(m, next, h, a, u);
      var rest := Entries(m, next, h);
      OneMore(m, h, rest, name);
      if FindEntry(m, next, a, u).Entry? {
        var e := FindEntry(m, next, a, u).at;
        var i: nat :| NewestAt(m, rest, name, i) && rest[i] == e;
        assert NewestAt(m, es, name, i + 1) && es[i + 1] == e;
      }
    }
  }

  // An older entry of the name stays the newest behind one that does not bear it.
  lemma OneMore(m: Memory, h: cell, rest: seq<cell>, name: seq<byte>)
    requires !Bears(m, h, name)
    ensures NoneBears(m, rest, name) ==> NoneBears(m, [h] + rest, name)
    ensures forall i: nat :: NewestAt(m, rest, name, i) ==> NewestAt(m, [h] + rest, name, i + 1)
  {
    hide Bears;
    var es := [h] + rest;
    assert forall j :: 0 < j < |es| ==> es[j] == rest[j - 1];
  }

  // FIND2 answers the newest entry on the chain that bears the name, in either case of
  // its letters, with 1 for an immediate word and -1 for another, and the address with 0
  // exactly when no entry bears it.
  lemma FindsNewest(st: State, a: cell, u: cell, bound: int)
    requires DictionaryOk(st.mem, st.dictHead, bound) && Lookable(st.mem, a, u)
    ensures var m, es, name := st.mem, Entries(st.mem, st.dictHead, bound), st.mem[a..a + u];
            && (NoneBears(m, es, name) ==> Find2(st, a, u) == (a, 0))
            && (forall i: nat :: NewestAt(m, es, name, i) ==>
                  Find2(st, a, u) == (es[i], if FlagsOf(m, es[i]) / 4 % 2 == 1 then 1 else 0xFFFF))
            && (Find2(st, a, u).1 == 0 ==> NoneBears(m, es, name))
  {
    hide Bears, Fetch16, FlagsOf, FindEntry, NameIs;
    var m, es, name := st.mem, Entries(st.mem, st.dictHead, bound), st.mem[a..a + u];
    if st.dictHead == 0 {
      NothingAtZero(m, a, u);
    } else {
      SearchNewest(m, st.dictHead, bound, a, u);
      assert forall i: nat, j: nat :: NewestAt(m, es, name, i) && NewestAt(m, es, name, j) ==> i == j;
    }
  }

  lemma NothingAtZero(m: Memory, a: cell, u: byte)
    ensures FindEntry(m, 0, a, u) in {Entry(0), NoEntry, Circle}
  {
  }

  // (NUMBER) answers k exactly for a quoted character of that signed code and for a
  // numeral, in base ten unless it has a radix sign, of that value modulo 64K; and the
  // address for everything else.
  lemma NumberAnswered(st: State, a: cell, u: cell, k: cell)
    ensures var text := TextOf(st.mem, a, u);
            Number2(st, a, u) == (k, 1) <==>
            || (IsQuoted(text) && k == Wrap(if text[1] < 128 then text[1] as int else text[1] as int - 256))
            || exists n :: Formed(n, 10) && Spelled(n) == text && k == Wrap(ValueOf(n, 10))
    ensures Number2(st, a, u).1 != 1 ==> Number2(st, a, u) == (a, 0)
  {
    hide Formed, ReadText, TextOf, ValueOf, Spelled;
    NumbersRead(st.mem, a, u, 10, k);
  }
}
