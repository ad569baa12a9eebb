// The tokeniser: WORD and FIND deliver exactly the runs of non-blank
// characters of the pasted text, in order.
module ForthInput {
  import opened Dataspace
  import opened ForthState
  import opened ForthWords
  import opened ForthSource
  import opened ForthDictionary
  import opened ForthLookup

  // The longest run that fits the word buffer with its count and terminator.
  const LONGEST_TOKEN := 126

  // How many characters there are before the first delimiter.
  function RunLength(text: seq<byte>, d: byte): (r: nat)
    ensures r <= |text| && (forall i :: 0 <= i < r ==> text[i] != d) && (r < |text| ==> text[r] == d)
  {
    if text == [] || text[0] == d then 0 else 1 + RunLength(text[1..], d)
  }

  // The maximal runs without the delimiter.
  function Runs(text: seq<byte>, d: byte): (r: seq<seq<byte>>)
    ensures forall i :: 0 <= i < |r| ==> r[i] != [] && d !in r[i]
    decreases |text|
  {
    if text == [] then []
    else if text[0] == d then Runs(text[1..], d)
    else [text[..RunLength(text, d)]] + Runs(text[RunLength(text, d)..], d)
  }

  // Each run is a maximal part of the text: reading the text as runs separated
  // by delimiters gives the text back, so Runs is determined by it.
  ghost predicate Separated(text: seq<byte>, d: byte, runs: seq<seq<byte>>)
    decreases |text|, |runs|
  {
    if text != [] && text[0] == d then Separated(text[1..], d, runs)
    else if runs == [] then text == []
    else
      && runs[0] != [] && d !in runs[0] && runs[0] <= text
      && var rest := text[|runs[0]|..];
         (rest == [] || rest[0] == d) && Separated(rest, d, runs[1..])
  }

  lemma {:induction false} RunsSeparate(text: seq<byte>, d: byte, runs: seq<seq<byte>>)
    ensures Separated(text, d, runs) <==> runs == Runs(text, d)
    decreases |text|, |runs|
  {
    if text != [] {
      if text[0] == d {
        RunsSeparate(text[1..], d, runs);
      } else {
        var n := RunLength(text, d);
        if runs != [] && runs[0] != [] && d !in runs[0] && runs[0] <= text {
          var k := |runs[0]|;
          assert runs[0] == text[..k];
          assert forall x :: 0 <= x < k ==> runs[0][x] == text[x] && runs[0][x] != d;
          assert k == |text| || text[k..][0] == text[k];
          assert n == |text| || text[n] == d;
          if k == n { RunsSeparate(text[n..], d, runs[1..]); }
        }
        assert runs == Runs(text, d) ==> runs != [] && runs[0] == text[..n] && runs[1..] == Runs(text[n..], d);
        if runs == Runs(text, d) {
          RunsSeparate(text[n..], d, runs[1..]);
          assert n < |text| ==> text[n..][0] == d;
        }
      }
    }
  }

  // The unread input.
  function Unread(m: Memory): seq<byte>
    requires InputOk(m)
  {
    m[LOC_INPUT_BUFFER + Fetch16(m, LOC_INDEX)..LOC_INPUT_BUFFER + Fetch16(m, LOC_COUNT)]
  }

  predicate InputOk(m: Memory) {
    Fetch16(m, LOC_INDEX) <= Fetch16(m, LOC_COUNT) < INPUT_BUFFER_SIZE
  }

  predicate ShortRuns(text: seq<byte>, d: byte) {
    forall r :: r in Runs(text, d) ==> |r| <= LONGEST_TOKEN
  }

  lemma {:induction false} SkipRuns(text: seq<byte>, d: byte, k: nat)
    requires k <= |text| && forall i :: 0 <= i < k ==> text[i] == d
    ensures Runs(text, d) == Runs(text[k..], d)
    decreases k
  {
    if k == 0 {
      assert text[0..] == text;
    } else {
      SkipRuns(text[1..], d, k - 1);
      assert text[1..][k - 1..] == text[k..];
    }
  }

  lemma {:induction false} RunLengthIs(text: seq<byte>, d: byte, n: nat)
    requires n <= |text| && (forall i :: 0 <= i < n ==> text[i] != d) && (n < |text| ==> text[n] == d)
    ensures RunLength(text, d) == n
  {
    var r := RunLength(text, d);
    assert r == |text| || text[r] == d;
    assert n == |text| || text[n] == d;
  }

  // The bytes the input is read from.
  ghost predicate InputSame(m: Memory, n: Memory) {
    SameOn(m, n, LOC_INDEX, LOC_COUNT + 2) && SameOn(m, n, LOC_INPUT_BUFFER, SYSTEM_END)
  }

  lemma UnreadSame(m: Memory, n: Memory)
    requires InputSame(m, n) && InputOk(m)
    ensures InputOk(n) && Unread(n) == Unread(m)
  {
    hide Fetch16;
    FetchSame(m, n, LOC_INDEX, LOC_COUNT + 2, LOC_INDEX);
    FetchSame(m, n, LOC_INDEX, LOC_COUNT + 2, LOC_COUNT);
    SamePart(m, n, LOC_INPUT_BUFFER, SYSTEM_END, LOC_INPUT_BUFFER + Fetch16(m, LOC_INDEX),
      LOC_INPUT_BUFFER + Fetch16(m, LOC_COUNT));
  }

  // What one token read leaves of the input.
  ghost predicate TokenRead(m: Memory, n: Memory, d: byte) {
    && InputOk(m) && InputOk(n) && SameOn(m, n, LOC_INPUT_BUFFER, SIZE) && SameOn(m, n, 0, LOC_INDEX)
    && var runs := Runs(Unread(m), d);
       if runs == [] then WordBuffer(n) == [] && Unread(n) == []
       else WordBuffer(n) == runs[0] && Runs(Unread(n), d) == runs[1..] && |Unread(n)| < |Unread(m)|
  }

  // Where WORD's two loops stop, in terms of the runs of the unread input.

  lemma StartFound(m: Memory, i: nat, n: nat, d: byte)
    requires i <= n < INPUT_BUFFER_SIZE
    ensures Runs(m[LOC_INPUT_BUFFER + i..LOC_INPUT_BUFFER + n], d) ==
            Runs(m[LOC_INPUT_BUFFER + SkipDelimiter(m, i, n, d)..LOC_INPUT_BUFFER + n], d)
  {
    hide Runs, SkipDelimiter;
    var first := SkipDelimiter(m, i, n, d);
    var text := m[LOC_INPUT_BUFFER + i..LOC_INPUT_BUFFER + n];
    forall k | 0 <= k < first - i ensures text[k] == d { assert text[k] == InputChar(m, i + k); }
    SkipRuns(text, d, first - i);
    assert text[first - i..] == m[LOC_INPUT_BUFFER + first..LOC_INPUT_BUFFER + n];
  }

  lemma EndFound(m: Memory, first: nat, n: nat, d: byte)
    requires first < n < INPUT_BUFFER_SIZE && InputChar(m, first) != d
    ensures var last := ScanToken(m, first, n, d);
            first < last &&
            Runs(m[LOC_INPUT_BUFFER + first..LOC_INPUT_BUFFER + n], d) ==
            [m[LOC_INPUT_BUFFER + first..LOC_INPUT_BUFFER + last]]
              + Runs(m[LOC_INPUT_BUFFER + last..LOC_INPUT_BUFFER + n], d)
  {
    hide Runs, RunLength, ScanToken;
    var last := ScanToken(m, first, n, d);
    var rest := m[LOC_INPUT_BUFFER + first..LOC_INPUT_BUFFER + n];
    forall k | 0 <= k < last - first ensures rest[k] != d { assert rest[k] == InputChar(m, first + k); }
    assert last < n ==> rest[last - first] == InputChar(m, last);
    RunLengthIs(rest, d, last - first);
    assert rest[0] == InputChar(m, first);
    FirstRun(rest, d);
    assert rest[..last - first] == m[LOC_INPUT_BUFFER + first..LOC_INPUT_BUFFER + last];
    assert rest[last - first..] == m[LOC_INPUT_BUFFER + last..LOC_INPUT_BUFFER + n];
  }

  // WORD delivers the first run of the unread input and leaves the others.
  lemma TokenIsRun(m: Memory, d: byte)
    requires InputOk(m) && ShortRuns(Unread(m), d)
    ensures ReadToken(m, d).1 && TokenRead(m, ReadToken(m, d).0, d)
    ensures Fetch8(ReadToken(m, d).0, LOC_WORD_BUFFER) <= LONGEST_TOKEN
  {
    hide Fetch16, Store16, Runs, Blit, SkipDelimiter, ScanToken, SameOn, WordBuffer;
    var i, n := Fetch16(m, LOC_INDEX), Fetch16(m, LOC_COUNT);
    if i == n {
      EmptyRead(m, Store8(m, LOC_WORD_BUFFER, 0), d);
    } else {
      var first := SkipDelimiter(m, i, n, d);
      StartFound(m, i, n, d);
      if first == n {
        EmptyRuns(d);
        assert m[LOC_INPUT_BUFFER + first..LOC_INPUT_BUFFER + n] == [];
        AllRead(m, d, n);
        ShortWord(Store16(Store8(m, LOC_WORD_BUFFER, 0), LOC_INDEX, n));
      } else {
        var last := ScanToken(m, first, n, d);
        EndFound(m, first, n, d);
        var run := m[LOC_INPUT_BUFFER + first..LOC_INPUT_BUFFER + last];
        assert Runs(Unread(m), d)[0] == run;
        assert run in Runs(Unread(m), d);
        CopyRead(m, first, last, n, if last == n then 0 else d);
        ShortWord(ReadToken(m, d).0);
      }
    }
  }

  lemma ShortWord(m: Memory)
    ensures Fetch8(m, LOC_WORD_BUFFER) == |WordBuffer(m)|
  {
  }

  lemma FirstRun(text: seq<byte>, d: byte)
    requires text != [] && text[0] != d
    ensures Runs(text, d) == [text[..RunLength(text, d)]] + Runs(text[RunLength(text, d)..], d)
  {
  }

  lemma EmptyRuns(d: byte)
    ensures Runs([], d) == []
  {
  }

  lemma EmptyRead(m: Memory, n: Memory, d: byte)
    requires InputOk(m) && Unread(m) == [] && n == Store8(m, LOC_WORD_BUFFER, 0)
    ensures TokenRead(m, n, d)
  {
    EmptyRuns(d);
    assert WordBuffer(n) == [];
  }

  lemma AllRead(m: Memory, d: byte, n: cell)
    requires InputOk(m) && Fetch16(m, LOC_COUNT) == n && Runs(Unread(m), d) == []
    ensures TokenRead(m, Store16(Store8(m, LOC_WORD_BUFFER, 0), LOC_INDEX, n), d)
  {
    hide Fetch16, Store16;
    var m1 := Store8(m, LOC_WORD_BUFFER, 0);
    var m2 := Store16(m1, LOC_INDEX, n);
    FetchStored(m1, LOC_INDEX, n);
    FetchElsewhere(m1, LOC_INDEX, n, LOC_COUNT);
    FetchSame(m, m1, 0, LOC_WORD_BUFFER, LOC_COUNT);
    StoreOutside(m1, LOC_INDEX, n, LOC_WORD_BUFFER, SIZE);
    StoreOutside(m1, LOC_INDEX, n, 0, LOC_INDEX);
    assert m2[LOC_WORD_BUFFER] == m1[LOC_WORD_BUFFER];
    assert WordBuffer(m2) == [];
  }

  lemma CopyRead(m: Memory, first: nat, last: nat, n: cell, end: byte)
    requires Fetch16(m, LOC_COUNT) == n < INPUT_BUFFER_SIZE && first <= last <= n && last - first <= LONGEST_TOKEN
    ensures var run := m[LOC_INPUT_BUFFER + first..LOC_INPUT_BUFFER + last];
            var l := last - first;
            var m1 := Store8(Blit(m, LOC_WORD_BUFFER + 1, run), LOC_WORD_BUFFER + l + 1, end);
            var m2 := Store16(Store8(m1, LOC_WORD_BUFFER, l), LOC_INDEX, last);
            && InputOk(m2) && Fetch16(m2, LOC_COUNT) == n && Fetch16(m2, LOC_INDEX) == last
            && WordBuffer(m2) == run && SameOn(m, m2, LOC_INPUT_BUFFER, SIZE) && SameOn(m, m2, 0, LOC_INDEX)
            && Unread(m2) == m[LOC_INPUT_BUFFER + last..LOC_INPUT_BUFFER + n]
  {
    hide Fetch16, Store16;
    var run := m[LOC_INPUT_BUFFER + first..LOC_INPUT_BUFFER + last];
    var l := last - first;
    var m0 := Store8(Store8(Blit(m, LOC_WORD_BUFFER + 1, run), LOC_WORD_BUFFER + l + 1, end), LOC_WORD_BUFFER, l);
    var m2 := Store16(m0, LOC_INDEX, last);
    assert SameOn(m, m0, 0, LOC_WORD_BUFFER) && SameOn(m, m0, LOC_INPUT_BUFFER, SIZE);
    assert m0[LOC_WORD_BUFFER + 1..LOC_WORD_BUFFER + 1 + l] == run;
    FetchStored(m0, LOC_INDEX, last);
    FetchElsewhere(m0, LOC_INDEX, last, LOC_COUNT);
    FetchSame(m, m0, 0, LOC_WORD_BUFFER, LOC_COUNT);
    StoreOutside(m0, LOC_INDEX, last, LOC_WORD_BUFFER, SIZE);
    StoreOutside(m0, LOC_INDEX, last, 0, LOC_INDEX);
    assert m2[LOC_WORD_BUFFER] == l;
    assert m2[LOC_WORD_BUFFER + 1..LOC_WORD_BUFFER + 1 + l] == m0[LOC_WORD_BUFFER + 1..LOC_WORD_BUFFER + 1 + l];
  }

  // A run of the system as the tokeniser sees it: tokens are read, and between
  // two reads other words may change anything but the input.
  ghost predicate Reads(ms: seq<Memory>, d: byte) {
    forall k :: 0 <= k < |ms| - 1 ==> InputSame(ReadToken(ms[k], d).0, ms[k + 1])
  }

  // Successive reads deliver the runs of the input in order and after them the
  // empty word for ever.
  lemma {:induction false} ReadsAllRuns(ms: seq<Memory>, d: byte, k: nat)
    requires Reads(ms, d) && k < |ms| && InputOk(ms[0]) && ShortRuns(Unread(ms[0]), d)
    ensures InputOk(ms[k]) && ReadToken(ms[k], d).1
    ensures var runs := Runs(Unread(ms[0]), d);
            && Runs(Unread(ms[k]), d) == (if k <= |runs| then runs[k..] else [])
            && WordBuffer(ReadToken(ms[k], d).0) == if k < |runs| then runs[k] else []
    decreases k
  {
    hide Fetch16, ReadToken, Runs, Unread, WordBuffer, InputSame;
    var runs := Runs(Unread(ms[0]), d);
    EmptyRuns(d);
    if k == 0 {
      TokenIsRun(ms[0], d);
    } else {
      ReadsAllRuns(ms, d, k - 1);
      var m := ms[k - 1];
      var n := ReadToken(m, d).0;
      assert ShortRuns(Unread(m), d);
      TokenIsRun(m, d);
      assert InputSame(n, ms[k]);
      UnreadSame(n, ms[k]);
      assert ShortRuns(Unread(ms[k]), d);
      TokenIsRun(ms[k], d);
    }
  }

  lemma InputAround(m: Memory, x: cell, v: cell)
    requires DATA_BOTTOM <= x < 0xFFFE
    ensures InputSame(m, Store16(m, x, v)) && SameOn(m, Store16(m, x, v), 0, SPACE_TOP)
    ensures WordBuffer(Store16(m, x, v)) == WordBuffer(m)
  {
    var n := Store16(m, x, v);
    assert n[LOC_WORD_BUFFER] == m[LOC_WORD_BUFFER];
  }

  lemma SameChain(m: Memory, n: Memory, o: Memory, p: Memory, hi: int)
    requires SameOn(m, n, 0, hi) && SameOn(n, o, LOC_INPUT_BUFFER, SIZE) && SameOn(o, p, 0, hi) && hi <= SIZE
    ensures SameOn(m, p, SYSTEM_END, hi)
  {
  }

  // The word in the buffer is looked up as the run it is.
  lemma NextName(st: State, n: Memory, run: seq<byte>)
    requires SameOn(st.mem, n, SYSTEM_END, SPACE_TOP) && Chain(st.mem, st.dictHead, Here(st.mem))
    requires WordBuffer(n) == run && run != [] && |run| <= LONGEST_TOKEN && 0 !in run
    ensures Fetch8(n, LOC_WORD_BUFFER) == |run|
    ensures FindName(n, st.dictHead, LOC_WORD_BUFFER) == WordNamed(st.mem, st.dictHead, Here(st.mem), run)
  {
    hide Fetch16, FindName, WordNamed, Chain, SameOn;
    var h, b := st.dictHead, Here(st.mem);
    ShortWord(n);
    forall i | LOC_WORD_BUFFER + 1 <= i < LOC_WORD_BUFFER + 1 + |run| ensures n[i] != 0 {
      assert n[i] == run[i - LOC_WORD_BUFFER - 1];
    }
    assert Lookable(n, LOC_WORD_BUFFER) && Wanted(n, LOC_WORD_BUFFER) == run;
    assert b <= SPACE_TOP by { ChainBound(st.mem, h, b); }
    SamePart(st.mem, n, SYSTEM_END, SPACE_TOP, SYSTEM_END, b);
    WordNamedFrame(st.mem, n, h, b, run);
    FindIsWordNamed(n, h, b, LOC_WORD_BUFFER);
  }

  // No run has a NUL in it, where C would take a name to end.
  predicate CleanRuns(text: seq<byte>, d: byte) {
    forall r :: r in Runs(text, d) ==> 0 !in r
  }

  lemma {:induction false} CleanText(text: seq<byte>, d: byte)
    requires 0 !in text
    ensures CleanRuns(text, d)
    decreases |text|
  {
    if text != [] {
      if text[0] == d {
        CleanText(text[1..], d);
      } else {
        CleanText(text[RunLength(text, d)..], d);
      }
    }
  }

  lemma NeverCyclic(m: Memory, h: cell, bound: int, name: seq<byte>)
    requires Chain(m, h, bound)
    ensures !WordNamed(m, h, bound, name).Cyclic?
  {
  }

  // FIND: the next run of the input, looked up by name; 0 for an unknown name
  // or at the end of the input.
  lemma FindIsNext(st: State)
    requires StacksOk(st) && !Full(st.data) && InputOk(st.mem)
    requires ShortRuns(Unread(st.mem), BLANK) && CleanRuns(Unread(st.mem), BLANK)
    requires Chain(st.mem, st.dictHead, Here(st.mem))
    ensures Find(st).Next?
    ensures var s := Find(st).st;
            var runs := Runs(Unread(st.mem), BLANK);
            && StacksOk(s) && !Empty(s.data) && DropData(s) == st.(mem := s.mem) && InputOk(s.mem)
            && SameOn(st.mem, s.mem, SYSTEM_END, SPACE_TOP) && WordBuffer(s.mem) == (if runs == [] then [] else runs[0])
            && if runs == [] then TopData(s) == 0 && Unread(s.mem) == []
               else && Runs(Unread(s.mem), BLANK) == runs[1..] && |Unread(s.mem)| < |Unread(st.mem)|
                    && TopData(s) == match WordNamed(st.mem, st.dictHead, Here(st.mem), runs[0])
                                     case Found(e) => e
                                     case _ => 0
  {
    hide Fetch16, Store16, ReadToken, Runs, WordBuffer, FindName, WordNamed, Chain, SameOn, AbortState, Unread;
    hide InputSame, ShortRuns, InputOk;
    var d, b := st.data.where, Here(st.mem);
    var m := Store16(st.mem, d, BLANK);
    FetchStored(st.mem, d, BLANK);
    InputAround(st.mem, d, BLANK);
    UnreadSame(st.mem, m);
    TokenIsRun(m, BLANK);
    var n := ReadToken(m, BLANK).0;
    var n' := Store16(n, d, LOC_WORD_BUFFER);
    FetchStored(n, d, LOC_WORD_BUFFER);
    InputAround(n, d, LOC_WORD_BUFFER);
    UnreadSame(n, n');
    SameChain(st.mem, m, n, n', SPACE_TOP);
    assert Word(PushData(st, 32)) == Next(st.(mem := n', data := st.data.(where := d + 2)), Wrap(st.ip + 2));
    var runs := Runs(Unread(st.mem), BLANK);
    var v: cell := 0;
    if runs == [] {
      ShortWord(n');
    } else {
      assert runs[0] in runs && 0 !in runs[0];
      ShortFirst(Unread(st.mem), BLANK);
      NextName(st, n', runs[0]);
      NeverCyclic(st.mem, st.dictHead, b, runs[0]);
      var found := WordNamed(st.mem, st.dictHead, b, runs[0]);
      v := if found.Found? then found.entry else 0;
    }
    assert Find(st) == Continue(PushData(st.(mem := n'), v));
    FetchStored(n', d, v);
    InputAround(n', d, v);
    UnreadSame(n', Store16(n', d, v));
    SamePart(n', Store16(n', d, v), 0, SPACE_TOP, SYSTEM_END, SPACE_TOP);
    SameBoth(st.mem, n', Store16(n', d, v), SYSTEM_END, SPACE_TOP);
  }

  // From the text to the dictionary.

  // A pasted text is what is read, white space as blanks.
  lemma PastedUnread(m: Memory, text: seq<byte>)
    requires |text| < INPUT_BUFFER_SIZE
    ensures InputOk(Paste(m, text)) && Unread(Paste(m, text)) == Blanked(text)
  {
    hide Fetch16, Store16;
    var m1 := Store8(Blit(m, LOC_INPUT_BUFFER, Blanked(text)), LOC_INPUT_BUFFER + |text|, 0);
    var m2 := Store16(m1, LOC_INDEX, 0);
    var n := Store16(m2, LOC_COUNT, |text|);
    FetchStored(m1, LOC_INDEX, 0);
    FetchElsewhere(m2, LOC_COUNT, |text|, LOC_INDEX);
    FetchStored(m2, LOC_COUNT, |text|);
    StoreOutside(m1, LOC_INDEX, 0, LOC_INPUT_BUFFER, SIZE);
    StoreOutside(m2, LOC_COUNT, |text|, LOC_INPUT_BUFFER, SIZE);
    assert n[LOC_INPUT_BUFFER..LOC_INPUT_BUFFER + |text|] == m1[LOC_INPUT_BUFFER..LOC_INPUT_BUFFER + |text|];
    assert m1[LOC_INPUT_BUFFER..LOC_INPUT_BUFFER + |text|] == Blanked(text);
  }

  // A text once pasted is the unread input, with a blank for every tab, end of line and
  // other white space.
  lemma PastedText(m: Memory, text: seq<byte>, i: nat)
    requires i < |text| < INPUT_BUFFER_SIZE
    ensures InputOk(Paste(m, text)) && |Unread(Paste(m, text))| == |text|
    ensures Unread(Paste(m, text))[i] == if text[i] in {9, 10, 11, 12, 13, 32} then 32 else text[i]
  {
    hide Paste, Unread, InputOk;
    PastedUnread(m, text);
  }

  // The system performs FIND in each of these states; between two of them other
  // words may do anything but touch the input or break the chain of entries.
  ghost predicate Finds(sts: seq<State>) {
    && (forall k :: 0 <= k < |sts| ==> && StacksOk(sts[k]) && !Full(sts[k].data)
                                       && Chain(sts[k].mem, sts[k].dictHead, Here(sts[k].mem)))
    && (forall k :: 0 <= k < |sts| - 1 ==> Find(sts[k]).Next? ==> InputSame(Find(sts[k]).st.mem, sts[k + 1].mem))
  }

  // The kth FIND after a text was pasted finds the kth word of the text, by name,
  // in the dictionary as it is by then; after the last it finds nothing.
  lemma {:induction false} FindsAllWords(m: Memory, text: seq<byte>, sts: seq<State>, k: nat)
    requires |text| < INPUT_BUFFER_SIZE && 0 !in text && ShortRuns(Blanked(text), BLANK)
    requires Finds(sts) && k < |sts| && InputSame(Paste(m, text), sts[0].mem)
    ensures Find(sts[k]).Next?
    ensures var words, st, s := Runs(Blanked(text), BLANK), sts[k], Find(sts[k]).st;
            && StacksOk(s) && !Empty(s.data) && DropData(s) == st.(mem := s.mem)
            && WordBuffer(s.mem) == (if k < |words| then words[k] else [])
            && TopData(s) == if k >= |words| then 0
                             else match WordNamed(st.mem, st.dictHead, Here(st.mem), words[k])
                                  case Found(e) => e
                                  case _ => 0
  {
    hide Fetch16, Store16, ReadToken, Runs, WordBuffer, FindName, WordNamed, Chain, SameOn, AbortState, Unread;
    hide InputSame, Find;
    FindsReads(m, text, sts, k);
    FindIsNext(sts[k]);
  }

  // What is unread before the kth.
  lemma {:induction false} FindsReads(m: Memory, text: seq<byte>, sts: seq<State>, k: nat)
    requires |text| < INPUT_BUFFER_SIZE && 0 !in text && ShortRuns(Blanked(text), BLANK)
    requires Finds(sts) && k < |sts| && InputSame(Paste(m, text), sts[0].mem)
    ensures InputOk(sts[k].mem)
    ensures var words, rest := Runs(Blanked(text), BLANK), Runs(Unread(sts[k].mem), BLANK);
            && rest == (if k < |words| then words[k..] else [])
            && ShortRuns(Unread(sts[k].mem), BLANK) && CleanRuns(Unread(sts[k].mem), BLANK)
    decreases k
  {
    hide Fetch16, Store16, ReadToken, Runs, WordBuffer, FindName, WordNamed, Chain, SameOn, AbortState, Unread;
    hide InputSame, Find;
    hide InputOk, Paste;
    var words := Runs(Blanked(text), BLANK);
    if k == 0 {
      PastedUnread(m, text);
      UnreadSame(Paste(m, text), sts[0].mem);
      assert 0 !in Blanked(text);
      CleanText(Blanked(text), BLANK);
    } else {
      FindsReads(m, text, sts, k - 1);
      var st := sts[k - 1];
      FindIsNext(st);
      var s := Find(st).st;
      UnreadSame(s.mem, sts[k].mem);
      EmptyRuns(BLANK);
      var before := Runs(Unread(st.mem), BLANK);
      assert forall r :: r in before[if before == [] then 0 else 1..] ==> r in before;
    }
  }

  lemma ShortFirst(text: seq<byte>, d: byte)
    requires ShortRuns(text, d) && Runs(text, d) != []
    ensures 0 < |Runs(text, d)[0]| <= LONGEST_TOKEN
  {
    hide Runs;
    assert Runs(text, d)[0] in Runs(text, d);
  }

  // QUERY and `(`.

  // QUERY makes the next line, up to its newline, the unread text, and leaves the
  // lines behind it; of a longer line it takes the first 79 characters.
  lemma QueryReads(st: State, line: seq<byte>, rest: seq<byte>)
    requires StacksOk(st) && st.input == line + [NEWLINE] + rest && NEWLINE !in line && 0 !in line
    ensures Query(st).Next? && InputOk(Query(st).st.mem) && Query(st).ip == Wrap(st.ip + 2)
    ensures var s := Query(st).st;
            && s == st.(mem := s.mem, input := s.input)
            && (|line| < 79 ==> Unread(s.mem) == Blanked(line + [NEWLINE]) && s.input == rest)
            && (|line| >= 79 ==> Unread(s.mem) == Blanked(line[..79]) && s.input == line[79..] + [NEWLINE] + rest)
  {
    hide Fetch16, Store16, Paste, Blanked, Unread, FgetsLength, CString;
    FgetsLine(line, rest, LINE_SIZE);
    var n := FgetsLength(st.input, LINE_SIZE);
    var text := st.input[..n];
    if |line| < 79 {
      assert text == line + [NEWLINE];
    } else {
      assert text == line[..79];
      assert forall x :: x in text ==> x in line;
    }
    NoNul(text);
    PastedUnread(st.mem, text);
  }

  lemma {:induction false} CommentEnds(m: Memory, i: cell, n: cell, x: seq<byte>, y: seq<byte>, c: byte)
    requires i <= n < INPUT_BUFFER_SIZE && c != RIGHT_PAREN && RIGHT_PAREN !in x
    requires m[LOC_INPUT_BUFFER + i..LOC_INPUT_BUFFER + n] == x + [RIGHT_PAREN] + y
    ensures SkipComment(m, i, n, c) == (i + |x| + 1, RIGHT_PAREN)
    decreases |x|
  {
    var text, a := m[LOC_INPUT_BUFFER + i..LOC_INPUT_BUFFER + n], LOC_INPUT_BUFFER + i;
    assert m[a] == text[0] && Wrap(a) == a && i < n;
    assert m[a + 1..LOC_INPUT_BUFFER + n] == text[1..];
    if x == [] {
      CommentClosed(m, i + 1, n);
    } else {
      assert text[1..] == x[1..] + [RIGHT_PAREN] + y && x[0] in x;
      CommentEnds(m, i + 1, n, x[1..], y, m[a]);
    }
  }

  lemma {:induction false} CommentOpen(m: Memory, i: cell, n: cell, c: byte)
    requires i <= n < INPUT_BUFFER_SIZE && c != RIGHT_PAREN
    requires RIGHT_PAREN !in m[LOC_INPUT_BUFFER + i..LOC_INPUT_BUFFER + n]
    ensures SkipComment(m, i, n, c).1 != RIGHT_PAREN
    decreases n - i
  {
    if i < n {
      var text, a := m[LOC_INPUT_BUFFER + i..LOC_INPUT_BUFFER + n], LOC_INPUT_BUFFER + i;
      assert m[a] == text[0] && Wrap(a) == a;
      assert m[a + 1..LOC_INPUT_BUFFER + n] == text[1..];
      CommentOpen(m, i + 1, n, m[a]);
    }
  }

  lemma CommentClosed(m: Memory, i: cell, n: cell)
    ensures SkipComment(m, i, n, RIGHT_PAREN) == (i, RIGHT_PAREN)
  {
  }

  lemma IndexMoved(m: Memory, j: cell)
    requires InputOk(m) && j <= Fetch16(m, LOC_COUNT)
    ensures var r := Store16(m, LOC_INDEX, j);
            InputOk(r) && Unread(r) == m[LOC_INPUT_BUFFER + j..LOC_INPUT_BUFFER + Fetch16(m, LOC_COUNT)]
  {
    hide Fetch16, Store16;
    FetchStored(m, LOC_INDEX, j);
    FetchElsewhere(m, LOC_INDEX, j, LOC_COUNT);
    StoreOutside(m, LOC_INDEX, j, LOC_INPUT_BUFFER, SYSTEM_END);
  }

  // `(` goes on behind the next right parenthesis, unless that is the very next
  // character, which it leaves to be read.
  lemma ParenSkips(st: State, x: seq<byte>, y: seq<byte>)
    requires StacksOk(st) && InputOk(st.mem) && Unread(st.mem) == x + [RIGHT_PAREN] + y && RIGHT_PAREN !in x
    ensures Paren(st).Next? && InputOk(Paren(st).st.mem) && Paren(st).ip == Wrap(st.ip + 2)
    ensures var s := Paren(st).st;
            && s == st.(mem := s.mem) && Unread(s.mem) == if x == [] then [RIGHT_PAREN] + y else y
  {
    hide Fetch16, Store16, AbortState, SkipComment;
    var i, n := Fetch16(st.mem, LOC_INDEX), Fetch16(st.mem, LOC_COUNT);
    var text, a := Unread(st.mem), LOC_INPUT_BUFFER + i;
    var c := st.mem[a];
    assert c == text[0] && Wrap(a) == a && i < n;
    if x == [] { CommentClosed(st.mem, i, n); } else {
      assert x[0] in x;
      CommentEnds(st.mem, i, n, x, y, c);
    }
    var j: cell := if x == [] then i else i + |x| + 1;
    IndexMoved(st.mem, j);
    assert st.mem[LOC_INPUT_BUFFER + j..LOC_INPUT_BUFFER + n] == text[j - i..];
  }

  // And where there is none it aborts.
  lemma ParenAborts(st: State)
    requires StacksOk(st) && InputOk(st.mem) && RIGHT_PAREN !in Unread(st.mem)
    ensures Paren(st) == Abort(st)
  {
    hide Fetch16, Store16, AbortState, SkipComment;
    var i, n := Fetch16(st.mem, LOC_INDEX), Fetch16(st.mem, LOC_COUNT);
    if i < n {
      assert st.mem[LOC_INPUT_BUFFER + i] == Unread(st.mem)[0] && Wrap(LOC_INPUT_BUFFER + i) == LOC_INPUT_BUFFER + i;
      CommentOpen(st.mem, i, n, st.mem[LOC_INPUT_BUFFER + i]);
    }
  }
}
