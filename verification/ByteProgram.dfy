// Code as the first system's compiler leaves it: definitions in the order they
// were linked, each a row of instructions whose jumps go forward and whose
// calls go to older definitions.  Such code always ends.
module ByteProgram {
  import opened Dataspace
  import opened ByteState
  import opened ByteWords

  // Bytes of an instruction.
  function Width(op: nat): nat {
    if op in {LDN, ENTER, JMP, JMP_FALSE} then 3 else 1
  }

  predicate IsJump(op: nat) {
    op == JMP || op == JMP_FALSE
  }

  // The byte codes considered: those that lay code at HERE or read the input
  // are among them.
  predicate Plain(op: nat) {
    OnDataOnly(op) || OnDictionary(op) || op == HALT
  }

  // Position t is a later one of ys than the ith.
  ghost predicate Later(ys: seq<nat>, i: nat, t: nat) {
    exists j :: i < j < |ys| && ys[j] == t
  }

  // The instruction at ys[i] is complete, the next one starts where it ends,
  // its jump goes forward unless it is still open, its call goes to an older
  // definition.
  ghost predicate InsOk(m: Memory, ys: seq<nat>, i: nat, open: seq<nat>, older: seq<nat>)
    requires i + 1 < |ys|
  {
    var a := ys[i];
    a + 3 <= SPACE_TOP &&
    var op := m[a] as nat;
    && ys[i + 1] == a + Width(op)
    && (Plain(op) || op == LDN || op == ENTER || IsJump(op))
    && (IsJump(op) ==> a in open || Later(ys, i, Fetch16(m, a + 1)))
    && (op == ENTER ==> Fetch16(m, a + 1) as nat in older)
  }

  ghost predicate Increasing(ys: seq<nat>) {
    forall i, j :: 0 <= i < j < |ys| ==> ys[i] < ys[j]
  }

  // The instructions at all but the last of ys.
  ghost predicate Instructions(m: Memory, ys: seq<nat>, open: seq<nat>, older: seq<nat>) {
    && ys != [] && Increasing(ys) && DICTIONARY_START <= ys[0]
    && forall i :: 0 <= i && i + 1 < |ys| ==> InsOk(m, ys, i, open, older)
  }

  // A finished definition: no jump is open and LEAVE is the last instruction.
  ghost predicate DefinitionOk(m: Memory, ys: seq<nat>, older: seq<nat>) {
    && Instructions(m, ys, [], older)
    && ys[|ys| - 1] < SPACE_TOP && m[ys[|ys| - 1]] == LEAVE
  }

  function Starts(ds: seq<seq<nat>>): seq<nat>
    requires forall k :: 0 <= k < |ds| ==> ds[k] != []
  {
    seq(|ds|, k requires 0 <= k < |ds| => ds[k][0])
  }

  ghost predicate NonEmpty(ds: seq<seq<nat>>) {
    forall k :: 0 <= k < |ds| ==> ds[k] != []
  }

  // All definitions, oldest first; a call can only go to an older one.
  ghost predicate ProgramOk(m: Memory, ds: seq<seq<nat>>) {
    NonEmpty(ds) && forall k :: 0 <= k < |ds| ==> DefinitionOk(m, ds[k], Starts(ds[..k]))
  }

  // The place of a value in a list; the length when it is not there.
  function IndexOf(ys: seq<nat>, t: nat): (j: nat)
    ensures j <= |ys| && (j < |ys| ==> ys[j] == t) && (forall k :: 0 <= k < j ==> ys[k] != t)
  {
    if ys == [] || ys[0] == t then 0 else 1 + IndexOf(ys[1..], t)
  }

  lemma LaterIndex(ys: seq<nat>, i: nat, t: nat)
    requires Increasing(ys) && Later(ys, i, t) && i < |ys|
    ensures i < IndexOf(ys, t) < |ys|
  {
    var j :| i < j < |ys| && ys[j] == t;
    var k := IndexOf(ys, t);
    assert k <= j;
    assert ys[k] == t;
    assert k == j;
  }

  lemma StartIndex(ds: seq<seq<nat>>, t: nat)
    requires NonEmpty(ds) && t in Starts(ds)
    ensures IndexOf(Starts(ds), t) < |ds| && ds[IndexOf(Starts(ds), t)][0] == t
  {
  }

  // What an instruction can lead to, as numbers of definitions and
  // instructions.

  ghost predicate At(ds: seq<seq<nat>>, k: nat, i: nat) {
    NonEmpty(ds) && k < |ds| && i < |ds[k]|
  }

  ghost function Target(m: Memory, ds: seq<seq<nat>>, k: nat, i: nat): (j: nat)
    requires ProgramOk(m, ds) && At(ds, k, i) && i + 1 < |ds[k]| && IsJump(m[ds[k][i]])
    ensures i < j < |ds[k]| && ds[k][j] == Fetch16(m, ds[k][i] + 1)
  {
    assert InsOk(m, ds[k], i, [], Starts(ds[..k]));
    LaterIndex(ds[k], i, Fetch16(m, ds[k][i] + 1));
    IndexOf(ds[k], Fetch16(m, ds[k][i] + 1))
  }

  ghost function Callee(m: Memory, ds: seq<seq<nat>>, k: nat, i: nat): (e: nat)
    requires ProgramOk(m, ds) && At(ds, k, i) && i + 1 < |ds[k]| && m[ds[k][i]] == ENTER
    ensures e < k && ds[e][0] == Fetch16(m, ds[k][i] + 1)
  {
    assert InsOk(m, ds[k], i, [], Starts(ds[..k]));
    StartIndex(ds[..k], Fetch16(m, ds[k][i] + 1));
    IndexOf(Starts(ds[..k]), Fetch16(m, ds[k][i] + 1))
  }

  // Two measures of an instruction: one step, and the bytes it may lay at HERE.
  datatype Measure = Steps | Bytes

  const HEADER_MOST := H_SIZE + INPUT_BUFFER_SIZE

  function Weight(w: Measure, op: nat): nat {
    if w.Steps? then 1
    else if op == COMPILE || op == LITERAL then 3
    else if op == COLON then HEADER_MOST
    else 0
  }

  function Max(x: nat, y: nat): nat {
    if x < y then y else x
  }

  // A bound from instruction i of definition k to the LEAVE that ends it:
  // instructions only lead forward or to an older definition.
  ghost function Cost(w: Measure, m: Memory, ds: seq<seq<nat>>, k: nat, i: nat): (n: nat)
    requires ProgramOk(m, ds) && At(ds, k, i)
    ensures w.Steps? ==> n > 0
    decreases k, |ds[k]| - i
  {
    if i + 1 == |ds[k]| then Weight(w, LEAVE)
    else
      var op := m[ds[k][i]] as nat;
      if op == JMP then Weight(w, op) + Cost(w, m, ds, k, Target(m, ds, k, i))
      else if op == JMP_FALSE then
        Weight(w, op) + Max(Cost(w, m, ds, k, i + 1), Cost(w, m, ds, k, Target(m, ds, k, i)))
      else if op == ENTER then Weight(w, op) + Cost(w, m, ds, Callee(m, ds, k, i), 0) + Cost(w, m, ds, k, i + 1)
      else Weight(w, op) + Cost(w, m, ds, k, i + 1)
  }

  // The definitions that are waiting for a call to come back, and where.
  type Frames = seq<(nat, nat)>

  ghost predicate FramesOk(ds: seq<seq<nat>>, fs: Frames) {
    forall x :: 0 <= x < |fs| ==> At(ds, fs[x].0, fs[x].1)
  }

  ghost function TotalCost(w: Measure, m: Memory, ds: seq<seq<nat>>, fs: Frames): nat
    requires ProgramOk(m, ds) && FramesOk(ds, fs)
    decreases |fs|
  {
    if fs == [] then 0 else TotalCost(w, m, ds, fs[..|fs| - 1]) + Cost(w, m, ds, fs[|fs| - 1].0, fs[|fs| - 1].1)
  }

  // What is left to do: the current definition and every waiting one.
  ghost function Left(w: Measure, m: Memory, ds: seq<seq<nat>>, k: nat, i: nat, fs: Frames): nat
    requires ProgramOk(m, ds) && At(ds, k, i) && FramesOk(ds, fs)
  {
    TotalCost(w, m, ds, fs) + Cost(w, m, ds, k, i)
  }

  // The addresses the frames are on the return stack as.
  ghost function Addresses(ds: seq<seq<nat>>, fs: Frames): (r: seq<nat>)
    requires FramesOk(ds, fs)
    ensures |r| == |fs|
  {
    seq(|fs|, x requires 0 <= x < |fs| => ds[fs[x].0][fs[x].1])
  }

  // The last byte of every definition is below b.
  ghost predicate Below(ds: seq<seq<nat>>, b: int) {
    forall k :: 0 <= k < |ds| ==> ds[k] != [] && ds[k][|ds[k]| - 1] < b
  }

  // The input buffer holds a line.
  predicate InputOk(m: Memory) {
    Fetch16(m, LOC_INPUT_BUFFER_COUNT) < INPUT_BUFFER_SIZE
  }

  // The machine is at instruction i of definition k, the frames are on top of
  // what was on the return stack before, `base`; the program, which ends below
  // b, is as it was, and there is room for what it may still lay at HERE.
  ghost predicate Busy(st: State, m: Memory, b: int, ds: seq<seq<nat>>, k: nat, i: nat, fs: Frames, base: seq<cell>)
    requires StacksOk(st) && ProgramOk(m, ds)
  {
    && At(ds, k, i) && FramesOk(ds, fs) && Below(ds, b) && SameOn(m, st.mem, DICTIONARY_START, b)
    && DICTIONARY_START <= b <= Where(st.mem) && Where(st.mem) + Left(Bytes, m, ds, k, i, fs) <= SPACE_TOP
    && InputOk(st.mem) && st.ip == ds[k][i]
    && ReturnOf(st) == base + Addresses(ds, fs)
  }

  // The call has come back, or the run has stopped.
  ghost predicate Ended(st: State, ans: Answers, n: nat, base: seq<cell>)
    requires StacksOk(st)
  {
    match Run(st, ans, n)
    case Stop(why) => why == StackAssertion || why == Halted || why == NoInput
    case Next(s) => base != [] && ReturnOf(s) == base[..|base| - 1] && s.ip == base[|base| - 1]
  }

  // The words of definitions leave the return stack and everything below HERE
  // alone, and lay at most g bytes.
  ghost predicate Harmless(st: State, s: State, g: nat)
    requires StacksOk(st)
  {
    && StacksOk(s) && s.ret == st.ret && s.ip == st.ip && InputOk(s.mem)
    && Where(st.mem) <= Where(s.mem) <= Where(st.mem) + g
    && SameOn(st.mem, s.mem, DICTIONARY_START, Where(st.mem)) && ReturnOf(s) == ReturnOf(st)
  }

  // The same for what a byte code comes to.
  ghost predicate HarmlessEnd(st: State, o: Outcome, g: nat)
    requires StacksOk(st)
  {
    match o
    case Stop(why) => why == StackAssertion || why == NoInput
    case Next(s) => Harmless(st, s, g)
  }

  lemma HarmlessSelf(st: State)
    requires StacksOk(st) && InputOk(st.mem)
    ensures Harmless(st, st, 0)
  {
  }

  lemma HarmlessTrans(a: State, b: State, c: State, g: nat, g': nat)
    requires StacksOk(a) && StacksOk(b) && Harmless(a, b, g) && Harmless(b, c, g')
    ensures Harmless(a, c, g + g')
  {
    hide Cells, Fetch16;
    SamePart(b.mem, c.mem, DICTIONARY_START, Where(b.mem), DICTIONARY_START, Where(a.mem));
  }

  // Memory changed at HERE and in the variables only.
  lemma HarmlessMemory(st: State, s: State, g: nat)
    requires StacksOk(st) && StacksOk(s) && s.ret == st.ret && s.ip == st.ip && InputOk(s.mem)
    requires Where(st.mem) <= Where(s.mem) <= Where(st.mem) + g
    requires SameOn(st.mem, s.mem, DICTIONARY_START, Where(st.mem)) && SameOn(st.mem, s.mem, RETURN_BOTTOM, RETURN_TOP)
    ensures Harmless(st, s, g)
  {
    hide Cells, Fetch16;
    SamePart(st.mem, s.mem, RETURN_BOTTOM, RETURN_TOP, RETURN_BOTTOM, st.ret);
    CellsFrame(st.mem, s.mem, RETURN_BOTTOM, st.ret);
  }

  lemma HarmlessPush(st: State, v: cell, s: State)
    requires StacksOk(st) && InputOk(st.mem) && PushData(st, v) == Next(s) && Where(st.mem) <= SPACE_TOP
    ensures Harmless(st, s, 0)
  {
    hide Cells;
    assert Where(s.mem) == Where(st.mem) && InputOk(s.mem);
    HarmlessMemory(st, s, 0);
  }

  lemma {:induction false} PopsHarmless(st: State, n: nat)
    requires StacksOk(st) && InputOk(st.mem)
    ensures var o := PopMany(st, n).0;
            if o.Next? then Harmless(st, o.st, 0) && o.st.mem == st.mem else o == Stop(StackAssertion)
    decreases n
  {
    hide Cells, Fetch16;
    if n > 0 && PopData(st).Popped? {
      PopsHarmless(PopData(st).st, n - 1);
    }
  }

  lemma {:induction false} PushesHarmless(st: State, vs: seq<cell>)
    requires StacksOk(st) && InputOk(st.mem) && Where(st.mem) <= SPACE_TOP
    ensures var o := PushMany(st, vs);
            if o.Next? then Harmless(st, o.st, 0) else o == Stop(StackAssertion)
    decreases |vs|
  {
    hide Cells, Fetch16;
    if vs == [] {
      HarmlessSelf(st);
    } else if PushData(st, vs[0]).Next? {
      var s := PushData(st, vs[0]).st;
      HarmlessPush(st, vs[0], s);
      PushesHarmless(s, vs[1..]);
      if PushMany(s, vs[1..]).Next? { HarmlessTrans(st, s, PushMany(s, vs[1..]).st, 0, 0); }
    }
  }

  lemma DataHarmless(st: State, op: nat, ans: Answers)
    requires StacksOk(st) && InputOk(st.mem) && Where(st.mem) <= SPACE_TOP
    ensures HarmlessEnd(st, DataStep(st, op, ans), 0)
  {
    hide Cells, Fetch16, Harmless, Pushes, Pops;
    var (o, xs) := PopMany(st, Pops(op));
    PopsHarmless(st, Pops(op));
    if o.Next? {
      assert StacksOk(o.st) && InputOk(o.st.mem) && Where(o.st.mem) == Where(st.mem);
      var vs := Pushes(op, st, xs, ans);
      PushesHarmless(o.st, vs);
      if PushMany(o.st, vs).Next? {
        HarmlessTrans(st, o.st, PushMany(o.st, vs).st, 0, 0);
      }
    }
  }

  // COMPILE, and LITERAL: a cell comes off the stack, and a byte, or a byte and
  // a cell, go to HERE.

  lemma LaidVariables(m: Memory, n: Memory, here: cell, w: cell)
    requires DICTIONARY_START <= here <= SPACE_TOP && SameOn(m, n, 0, here) && SameOn(m, n, SPACE_TOP, SIZE)
    ensures var o := Store16(n, LOC_WHERE, w);
            && Where(o) == w && Fetch16(o, LOC_INPUT_BUFFER_COUNT) == Fetch16(m, LOC_INPUT_BUFFER_COUNT)
            && SameOn(m, o, DICTIONARY_START, here) && SameOn(m, o, RETURN_BOTTOM, RETURN_TOP)
  {
    hide Fetch16, Store16, SameOn;
    var o := Store16(n, LOC_WHERE, w);
    FetchStored(n, LOC_WHERE, w);
    FetchElsewhere(n, LOC_WHERE, w, LOC_INPUT_BUFFER_COUNT);
    FetchSame(m, n, 0, here, LOC_INPUT_BUFFER_COUNT);
    StoreOutside(n, LOC_WHERE, w, DICTIONARY_START, SIZE);
    SamePart(m, n, 0, here, DICTIONARY_START, here);
    SamePart(n, o, DICTIONARY_START, SIZE, DICTIONARY_START, here);
    SameBoth(m, n, o, DICTIONARY_START, here);
    SamePart(m, n, SPACE_TOP, SIZE, RETURN_BOTTOM, RETURN_TOP);
    SamePart(n, o, DICTIONARY_START, SIZE, RETURN_BOTTOM, RETURN_TOP);
    SameBoth(m, n, o, RETURN_BOTTOM, RETURN_TOP);
  }

  lemma LayByteHarmless(st: State, op: byte)
    requires StacksOk(st) && InputOk(st.mem) && DICTIONARY_START <= Where(st.mem) && Where(st.mem) + 3 <= SPACE_TOP
    ensures Harmless(st, LayByte(st, op), 3)
  {
    hide Cells, Fetch16, Store16;
    var here := Where(st.mem);
    LaidVariables(st.mem, Store8(st.mem, here, op), here, here + 1);
    HarmlessMemory(st, LayByte(st, op), 3);
  }

  lemma LayCellHarmless(st: State, op: byte, v: cell)
    requires StacksOk(st) && InputOk(st.mem) && DICTIONARY_START <= Where(st.mem) && Where(st.mem) + 3 <= SPACE_TOP
    ensures Harmless(st, LayCell(st, op, v), 3)
  {
    hide Cells, Fetch16, Store16, SameOn;
    var here := Where(st.mem);
    var n := Store16(Store8(st.mem, here, op), here + 1, v);
    LaidOutside(st.mem, here, op, v);
    LaidVariables(st.mem, n, here, here + 3);
    HarmlessMemory(st, LayCell(st, op, v), 3);
  }

  lemma LaidOutside(m: Memory, here: cell, op: byte, v: cell)
    requires here + 3 <= SPACE_TOP
    ensures var n := Store16(Store8(m, here, op), here + 1, v); SameOn(m, n, 0, here) && SameOn(m, n, SPACE_TOP, SIZE)
  {
  }

  lemma DroppedHarmless(st: State, s: State, t: State, g: nat)
    requires StacksOk(st) && s == st.(data := s.data) && StacksOk(s) && Harmless(s, t, g)
    ensures Harmless(st, t, g)
  {
    hide Cells, Fetch16;
  }

  // Every byte code that lays code or reads input.
  lemma DictionaryHarmless(st: State, op: nat)
    requires StacksOk(st) && InputOk(st.mem) && OnDictionary(op)
    requires DICTIONARY_START <= Where(st.mem) && Where(st.mem) + Weight(Bytes, op) <= SPACE_TOP
    ensures HarmlessEnd(st, DictionaryStep(st, op), Weight(Bytes, op))
  {
    hide Cells, Fetch16, Harmless, LayByte, LayCell, CodeStart, Colon, Accept, ParseWord;
    if op == COLON {
      ColonHarmless(st);
    } else if op == PACCEPT {
      AcceptHarmless(st);
    } else if op == PARSE_NAME {
      ParseHarmless(st);
    } else if PopData(st).Popped? {
      var s, v := PopData(st).st, PopData(st).v;
      var t := DictionaryStep(st, op).st;
      if op == LITERAL || !IsInstruction(s.mem, v) {
        LayCellHarmless(s, if op == LITERAL then LDN else ENTER, if op == LITERAL then v
          else Wrap(CodeStart(s.mem, v)));
      } else {
        LayByteHarmless(s, Fetch8(s.mem, Wrap(v + H_SEMANTICS)));
      }
      DroppedHarmless(st, s, t, 3);
    }
  }

  lemma ParsedSame(m: Memory)
    requires InputOk(m)
    ensures ParseName(m).Name? && |ParseName(m).text| < INPUT_BUFFER_SIZE
    ensures var n := ParseName(m).mem; InputOk(n) && Where(n) == Where(m) && SameOn(m, n, DICTIONARY_START, SIZE)
  {
    var i := Fetch16(m, LOC_INPUT_BUFFER_INDEX);
    var n := Fetch16(m, LOC_INPUT_BUFFER_COUNT);
  }

  lemma ParseHarmless(st: State)
    requires StacksOk(st) && InputOk(st.mem) && Where(st.mem) <= SPACE_TOP
    ensures HarmlessEnd(st, ParseWord(st), 0)
  {
    hide Cells, Fetch16, ParseName, Harmless;
    ParsedSame(st.mem);
    var p := ParseName(st.mem);
    var s := st.(mem := p.mem);
    SamePart(st.mem, p.mem, DICTIONARY_START, SIZE, DICTIONARY_START, Where(st.mem));
    HarmlessMemory(st, s, 0);
    PushesHarmless(s, [p.at, |p.text|]);
    if PushMany(s, [p.at, |p.text|]).Next? {
      HarmlessTrans(st, s, PushMany(s, [p.at, |p.text|]).st, 0, 0);
    }
  }

  lemma CodeSet(m: Memory, text: seq<byte>)
    requires |text| < INPUT_BUFFER_SIZE
    ensures var n := SetCode(m, text);
            InputOk(n) && Where(n) == Where(m) && SameOn(m, n, DICTIONARY_START, SIZE)
  {
    var m1 := Store8(Blit(m, LOC_INPUT_BUFFER, text), LOC_INPUT_BUFFER + |text|, 0);
    assert SameOn(m, m1, 0, LOC_INPUT_BUFFER) && SameOn(m, m1, LOC_INPUT_BUFFER_INDEX, SIZE);
    FetchSame(m, m1, 0, LOC_INPUT_BUFFER, LOC_WHERE);
    FetchStored(m1, LOC_INPUT_BUFFER_COUNT, |text|);
    var m2 := Store16(m1, LOC_INPUT_BUFFER_COUNT, |text|);
    assert SameOn(m1, m2, 0, LOC_INPUT_BUFFER_INDEX) && SameOn(m1, m2, DICTIONARY_START, SIZE);
  }

  lemma AcceptHarmless(st: State)
    requires StacksOk(st) && InputOk(st.mem)
    ensures HarmlessEnd(st, Accept(st), 0)
  {
    hide Cells, Fetch16, SetCode;
    if st.input != [] {
      var text := CString(st.input[..FgetsLength(st.input, LINE_SIZE)]);
      CodeSet(st.mem, text);
      var s := Accept(st).st;
      SamePart(st.mem, s.mem, DICTIONARY_START, SIZE, DICTIONARY_START, Where(st.mem));
      HarmlessMemory(st, s, 0);
    }
  }

  // What `:` writes: the header at HERE, HERE, STATE and two free cells of the
  // data stack.
  lemma ColonMemory(m: Memory, d: cell, c: cell, here: cell, name: seq<byte>)
    requires |name| < 0x100 && DICTIONARY_START <= here && here + H_SIZE + 1 + |name| <= SPACE_TOP
    requires DATA_BOTTOM <= d < DATA_TOP - 4
    ensures var m2 := Store16(Store16(m, d, c), d + 2, |name|);
            var m3 := NewHeader(m2, here, name);
            var n := Store16(Store16(m3, LOC_WHERE, here + H_SIZE + 1 + |name|), LOC_STATE, 0xFFFF);
            && Where(n) == here + H_SIZE + 1 + |name| && SameOn(m, n, DICTIONARY_START, here)
            && FlagsOf(n, here) == F_COLONDEF && CodeStart(n, here) == here + H_SIZE + 1 + |name|
            && SameOn(m, n, LOC_INPUT_BUFFER, DICTIONARY_START)
            && SameOn(m, n, CONTROL_BOTTOM, SIZE)
  {
    hide Fetch16, Store16, SameOn, NewHeader, CodeStart;
    var m1 := Store16(m, d, c);
    var m2 := Store16(m1, d + 2, |name|);
    var m3 := NewHeader(m2, here, name);
    var w: cell := here + H_SIZE + 1 + |name|;
    var m4 := Store16(m3, LOC_WHERE, w);
    var n := Store16(m4, LOC_STATE, 0xFFFF);
    HeaderFields(m2, here, name);
    FetchStored(m3, LOC_WHERE, w);
    FetchElsewhere(m4, LOC_STATE, 0xFFFF, LOC_WHERE);
    FetchElsewhere(m3, LOC_WHERE, w, Wrap(here + H_FLAGS));
    FetchElsewhere(m4, LOC_STATE, 0xFFFF, Wrap(here + H_FLAGS));
    ColonFrame(m, m2, m3, n, d, c, here, name);
    StartByLength(m3, n, here);
  }

  lemma StartByLength(m: Memory, n: Memory, e: cell)
    requires e + H_SIZE <= SPACE_TOP && m[e + H_LENGTH] == n[e + H_LENGTH]
    ensures CodeStart(m, e) == CodeStart(n, e)
  {
  }

  lemma HeaderFields(m: Memory, e: cell, name: seq<byte>)
    requires |name| < 0x100 && DICTIONARY_START <= e && e + H_SIZE + 1 + |name| <= SPACE_TOP
    ensures var n := NewHeader(m, e, name);
            && FlagsOf(n, e) == F_COLONDEF && Wrap(e + H_FLAGS) == e + H_FLAGS && n[e + H_LENGTH] == |name|
            && CodeStart(n, e) == e + H_SIZE + 1 + |name|
            && SameOn(m, n, 0, e) && SameOn(m, n, e + H_SIZE + 1 + |name|, SIZE)
            && n[e + H_NAME..e + H_NAME + |name|] == name
  {
    var m1 := Store16(m, e, 0);
    var m2 := Store16(m1, e + H_FLAGS, F_COLONDEF);
    FetchStored(m1, e + H_FLAGS, F_COLONDEF);
    assert m2[e + H_FLAGS] as int + 0x100 * m2[e + H_FLAGS + 1] as int == F_COLONDEF;
  }

  lemma ColonFrame(m: Memory, m2: Memory, m3: Memory, n: Memory, d: cell, c: cell, here: cell, name: seq<byte>)
    requires |name| < 0x100 && DICTIONARY_START <= here && here + H_SIZE + 1 + |name| <= SPACE_TOP
    requires DATA_BOTTOM <= d < DATA_TOP - 4
    requires m2 == Store16(Store16(m, d, c), d + 2, |name|)
    requires SameOn(m2, m3, 0, here) && SameOn(m2, m3, here + H_SIZE + 1 + |name|, SIZE)
    requires n == Store16(Store16(m3, LOC_WHERE, here + H_SIZE + 1 + |name|), LOC_STATE, 0xFFFF)
    ensures SameOn(m, n, DICTIONARY_START, here) && SameOn(m, n, LOC_INPUT_BUFFER, DICTIONARY_START)
    ensures SameOn(m, n, CONTROL_BOTTOM, SIZE)
    ensures n[here + H_LENGTH] == m3[here + H_LENGTH]
  {
  }

  lemma ColonHarmless(st: State)
    requires StacksOk(st) && InputOk(st.mem)
    requires DICTIONARY_START <= Where(st.mem) && Where(st.mem) + HEADER_MOST <= SPACE_TOP
    ensures HarmlessEnd(st, Colon(st), HEADER_MOST)
  {
    hide Cells, Fetch16, ParseName, NewHeader, Store16, CodeStart, SameOn;
    ParsedSame(st.mem);
    var p := ParseName(st.mem);
    var here := Where(p.mem);
    if Colon(st).Next? {
      var s := Colon(st).st;
      ColonMemory(p.mem, st.data, p.at, here, p.text);
      FetchSame(p.mem, s.mem, LOC_INPUT_BUFFER, DICTIONARY_START, LOC_INPUT_BUFFER_COUNT);
      SamePart(st.mem, p.mem, DICTIONARY_START, SIZE, DICTIONARY_START, here);
      SameBoth(st.mem, p.mem, s.mem, DICTIONARY_START, here);
      SamePart(st.mem, p.mem, DICTIONARY_START, SIZE, RETURN_BOTTOM, RETURN_TOP);
      SamePart(p.mem, s.mem, CONTROL_BOTTOM, SIZE, RETURN_BOTTOM, RETURN_TOP);
      SameBoth(st.mem, p.mem, s.mem, RETURN_BOTTOM, RETURN_TOP);
      HarmlessMemory(st, s, HEADER_MOST);
    }
  }
}
