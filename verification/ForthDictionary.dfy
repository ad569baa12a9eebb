// The linked-list dictionary as a list of entries, newest first, and the
// searches as searches of that list.
module ForthDictionary {
  import opened Dataspace
  import opened Letters
  import opened ForthState
  import opened ForthWords
  import opened ForthSource

  // The entries on the chain from h.
  ghost function Entries(m: Memory, h: cell, bound: int): (r: seq<cell>)
    requires Chain(m, h, bound)
    decreases h
  {
    if Previous(m, h) == 0 then [h] else [h] + Entries(m, Previous(m, h), h)
  }

  ghost function Name(m: Memory, e: cell): seq<byte>
    requires e + DE_NAME + 1 + NameCount(m, e) <= SIZE
  {
    m[e + DE_NAME + 1..e + DE_NAME + 1 + NameCount(m, e)]
  }

  // Addresses go strictly down along the chain and stay above the system
  // variables, so following the links ends at 0.
  lemma {:induction false} EntriesDescend(m: Memory, h: cell, bound: int)
    requires Chain(m, h, bound)
    ensures var es := Entries(m, h, bound);
            && |es| > 0 && es[0] == h && Previous(m, es[|es| - 1]) == 0
            && (forall i, j :: 0 <= i < j < |es| ==> es[j] < es[i])
            && (forall i :: 0 <= i < |es| ==> SYSTEM_END <= es[i] && es[i] + DE_NAME + 1 + NameCount(m, es[i]) <= bound)
            && (forall i :: 0 <= i < |es| - 1 ==> Previous(m, es[i]) == es[i + 1])
    decreases h
  {
    hide Previous, NameCount;
    if Previous(m, h) != 0 {
      EntriesDescend(m, Previous(m, h), h);
    }
  }

  lemma {:induction false} EntriesFrame(m: Memory, n: Memory, h: cell, bound: int)
    requires Chain(m, h, bound) && SameOn(m, n, SYSTEM_END, bound)
    ensures Chain(n, h, bound) && Entries(n, h, bound) == Entries(m, h, bound)
    decreases h
  {
    hide Previous, NameCount;
    ChainFrame(m, n, h, bound);
    HeaderKept(m, n, SYSTEM_END, bound, h);
    if Previous(m, h) != 0 {
      EntriesFrame(m, n, Previous(m, h), h);
    }
  }

  // The counted string at `word` is a name FIND can look for.
  ghost predicate Lookable(m: Memory, word: cell) {
    var n := Fetch8(m, word);
    0 < n < 0x80 && word + 1 + n <= SYSTEM_END && forall i :: word + 1 <= i < word + 1 + n ==> m[i] != 0
  }

  ghost function Wanted(m: Memory, word: cell): seq<byte>
    requires Lookable(m, word)
  {
    m[word + 1..word + 1 + Fetch8(m, word)]
  }

  lemma MatchesByName(m: Memory, word: cell, e: cell)
    requires Lookable(m, word) && e + DE_NAME + 1 + NameCount(m, e) <= SPACE_TOP
    ensures NameMatches(m, word, e) <==> SameLetters(Wanted(m, word), Name(m, e))
  {
    if Fetch8(m, word) == NameCount(m, e) {
      SameNameLetters(m, word + 1, e + DE_NAME + 1, Fetch8(m, word));
    }
  }

  // What a search of the chain must return: the newest entry that satisfies a
  // test, or nothing exactly when no entry does.
  ghost predicate Newest(es: seq<cell>, test: cell -> bool, r: Lookup) {
    match r
    case Found(e) => exists i :: 0 <= i < |es| && es[i] == e && test(e) && forall j :: 0 <= j < i ==> !test(es[j])
    case Absent => forall i :: 0 <= i < |es| ==> !test(es[i])
    case Cyclic => false
  }

  lemma NewestCons(h: cell, es: seq<cell>, test: cell -> bool, r: Lookup)
    requires !test(h) && Newest(es, test, r)
    ensures Newest([h] + es, test, r)
  {
    var all := [h] + es;
    if r.Found? {
      var i :| 0 <= i < |es| && es[i] == r.entry && test(r.entry) && forall j :: 0 <= j < i ==> !test(es[j]);
      assert all[i + 1] == r.entry;
      forall j | 0 <= j < i + 1 ensures !test(all[j]) {
        if j > 0 { assert all[j] == es[j - 1]; }
      }
    }
  }

  // The test FIND makes of an entry: the same name, but for case.
  ghost function HasName(m: Memory, word: cell): cell -> bool
    requires Lookable(m, word)
  {
    (e: cell) => e + DE_NAME + 1 + NameCount(m, e) <= SPACE_TOP && SameLetters(Wanted(m, word), Name(m, e))
  }

  ghost function HasOpcode(m: Memory, op: nat): cell -> bool {
    (e: cell) => CodeField(m, e) == op
  }

  lemma {:induction false} FindNameNewest(m: Memory, h: cell, bound: int, word: cell)
    requires Chain(m, h, bound) && Lookable(m, word)
    ensures Newest(Entries(m, h, bound), HasName(m, word), FindName(m, h, word))
    decreases h
  {
    hide Previous, NameCount, NameMatches, SameLetters;
    MatchesByName(m, word, h);
    if NameMatches(m, word, h) {
      assert Entries(m, h, bound)[0] == h;
    } else if Previous(m, h) != 0 {
      FindNameNewest(m, Previous(m, h), h, word);
      NewestCons(h, Entries(m, Previous(m, h), h), HasName(m, word), FindName(m, h, word));
    }
  }

  lemma {:induction false} FindOpcodeNewest(m: Memory, h: cell, bound: int, op: nat)
    requires Chain(m, h, bound)
    ensures Newest(Entries(m, h, bound), HasOpcode(m, op), FindOpcode(m, h, op))
    decreases h
  {
    hide Previous, NameCount, CodeField;
    if CodeField(m, h) == op {
      assert Entries(m, h, bound)[0] == h;
    } else if Previous(m, h) != 0 {
      FindOpcodeNewest(m, Previous(m, h), h, op);
      NewestCons(h, Entries(m, Previous(m, h), h), HasOpcode(m, op), FindOpcode(m, h, op));
    }
  }
}
