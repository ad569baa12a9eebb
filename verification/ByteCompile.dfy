// The compiling words of the first system, and the proof that whatever they
// build with an empty control stack at `;` is a definition of the kind that
// always ends.
module ByteCompile {
  import opened Dataspace
  import opened ByteState
  import opened ByteWords
  import opened ByteProgram

  // What may stand in a definition: words found in the dictionary, numbers, and
  // the immediate control words.
  datatype Token = Word(xt: cell) | Number(n: cell) | TokIf | TokElse | TokThen | TokBegin | TokAgain

  function CompileToken(st: State, t: Token): (r: Outcome)
    requires StacksOk(st)
    ensures r.Next? ==> StacksOk(r.st)
  {
    match t
    case Word(xt) => (match PushData(st, xt) case Stop(why) => Stop(why) case Next(s) => Compile(s))
    case Number(n) => (match PushData(st, n) case Stop(why) => Stop(why) case Next(s) => Literal(s))
    case TokIf => If(st)
    case TokElse => Else(st)
    case TokThen => Then(st)
    case TokBegin => Begin(st)
    case TokAgain => Again(st)
  }

  function CompileTokens(st: State, ts: seq<Token>): (r: Outcome)
    requires StacksOk(st)
    ensures r.Next? ==> StacksOk(r.st)
    decreases |ts|
  {
    if ts == [] then Next(st)
    else
      match CompileToken(st, ts[0])
      case Stop(why) => Stop(why)
      case Next(s) => CompileTokens(s, ts[1..])
  }

  // The chain of headers, whose code starts come before what was added later.
  ghost predicate DictionaryOk(m: Memory, h: cell, bound: int)
    decreases h
  {
    h == 0 || (
      && DICTIONARY_START <= h && CodeStart(m, h) <= bound <= SPACE_TOP
      && Fetch16(m, h) < h && DictionaryOk(m, Fetch16(m, h), h))
  }

  ghost predicate OnChain(m: Memory, h: cell, xt: cell)
    decreases h
  {
    h != 0 && (h == xt || (Fetch16(m, h) < h && OnChain(m, Fetch16(m, h), xt)))
  }

  // A token of the kind considered: a number, IF, ELSE, THEN, a word of a byte
  // code that goes to the next byte or halts, or a colon word that is itself a
  // known definition.  Not so: BEGIN and AGAIN, EXECUTE and `!`, and the words
  // that spell a byte code with an operand.
  ghost predicate Usable(m: Memory, h: cell, starts: seq<nat>, t: Token) {
    && !t.TokBegin? && !t.TokAgain?
    && (t.Word? ==>
          && OnChain(m, h, t.xt)
          && (if IsInstruction(m, t.xt) then Plain(Fetch8(m, Wrap(t.xt + H_SEMANTICS)))
             else CodeStart(m, t.xt) in starts))
  }

  lemma {:induction false} ChainEntry(m: Memory, h: cell, bound: int, xt: cell)
    requires DictionaryOk(m, h, bound) && OnChain(m, h, xt)
    ensures DICTIONARY_START <= xt && xt + H_SIZE < bound <= SPACE_TOP && CodeStart(m, xt) <= bound
    decreases h
  {
    hide Fetch16;
    if h != xt {
      ChainEntry(m, Fetch16(m, h), h, xt);
    }
  }

  lemma HeaderSame(m: Memory, n: Memory, e: cell, bound: int)
    requires SameOn(m, n, DICTIONARY_START, bound) && DICTIONARY_START <= e && e + H_SIZE <= bound <= SPACE_TOP
    ensures Fetch16(n, e) == Fetch16(m, e) && FlagsOf(n, e) == FlagsOf(m, e) && Wrap(e + H_SEMANTICS) == e + H_SEMANTICS
    ensures CodeStart(n, e) == CodeStart(m, e) && n[e + H_SEMANTICS] == m[e + H_SEMANTICS]
    ensures IsInstruction(n, e) == IsInstruction(m, e)
  {
  }

  lemma {:induction false} DictionaryFrame(m: Memory, n: Memory, h: cell, bound: int)
    requires DictionaryOk(m, h, bound) && SameOn(m, n, DICTIONARY_START, bound)
    ensures DictionaryOk(n, h, bound)
    decreases h
  {
    hide Fetch16, CodeStart;
    if h != 0 {
      assert h + H_SIZE <= bound by { StartAfter(m, h); }
      HeaderSame(m, n, h, bound);
      DictionaryFrame(m, n, Fetch16(m, h), h);
    }
  }

  lemma StartAfter(m: Memory, e: cell)
    ensures CodeStart(m, e) > e + H_SIZE
  {
  }

  lemma InstructionFrame(m: Memory, n: Memory, ys: seq<nat>, i: nat, open: seq<nat>, older: seq<nat>, lo: nat, b: int)
    requires i + 1 < |ys| && InsOk(m, ys, i, open, older) && lo <= ys[i] && ys[i + 1] <= b <= SPACE_TOP
    requires SameOn(m, n, lo, b)
    ensures InsOk(n, ys, i, open, older)
  {
    hide Later, Plain;
    var a := ys[i];
    assert n[a] == m[a];
    if Width(m[a]) == 3 {
      FetchSame(m, n, lo, b, a + 1);
    }
  }

  lemma ProgramFrame(m: Memory, n: Memory, ds: seq<seq<nat>>, b: int)
    requires ProgramOk(m, ds) && Below(ds, b) && b <= SPACE_TOP && SameOn(m, n, DICTIONARY_START, b)
    ensures ProgramOk(n, ds)
  {
    hide InsOk, SameOn, Starts;
    forall k | 0 <= k < |ds| ensures DefinitionOk(n, ds[k], Starts(ds[..k])) {
      var ys := ds[k];
      assert DefinitionOk(m, ys, Starts(ds[..k]));
      assert ys[|ys| - 1] < b;
      forall i | 0 <= i && i + 1 < |ys| ensures InsOk(n, ys, i, [], Starts(ds[..k])) {
        InstructionFrame(m, n, ys, i, [], Starts(ds[..k]), DICTIONARY_START, b);
      }
      assert DICTIONARY_START <= ys[|ys| - 1];
      ByteSame(m, n, DICTIONARY_START, b, ys[|ys| - 1]);
    }
  }

  // One more instruction at the end of the row.
  lemma Append(m: Memory, n: Memory, zs: seq<nat>, open: seq<nat>, open': seq<nat>, older: seq<nat>)
    requires Instructions(m, zs, open, older) && open <= open'
    requires var here := zs[|zs| - 1];
             && here + 3 <= SPACE_TOP && SameOn(m, n, DICTIONARY_START, here)
             && var op := n[here] as nat;
                && (Plain(op) || op == LDN || op == ENTER || IsJump(op))
                && (IsJump(op) ==> here in open') && (op == ENTER ==> Fetch16(n, here + 1) as nat in older)
    ensures Instructions(n, zs + [zs[|zs| - 1] + Width(n[zs[|zs| - 1]])], open', older)
  {
    hide Fetch16, SameOn, Plain;
    var here := zs[|zs| - 1];
    var zs' := zs + [here + Width(n[here])];
    forall i | 0 <= i && i + 1 < |zs'| ensures InsOk(n, zs', i, open', older) {
      if i + 1 < |zs| {
        assert InsOk(m, zs, i, open, older);
        InstructionFrame(m, n, zs, i, open, older, DICTIONARY_START, here);
        LaterMore(zs, zs', i, Fetch16(n, zs[i] + 1));
      } else {
        assert zs'[i] == here;
      }
    }
  }

  lemma LaterMore(zs: seq<nat>, zs': seq<nat>, i: nat, t: nat)
    requires zs <= zs'
    ensures Later(zs, i, t) ==> Later(zs', i, t)
  {
    if Later(zs, i, t) {
      var j :| i < j < |zs| && zs[j] == t;
      assert zs'[j] == t;
    }
  }

  // Jumps on the row that are open.
  ghost predicate OpenOk(m: Memory, zs: seq<nat>, open: seq<nat>) {
    forall x :: x in open ==> OpenAt(m, zs, x)
  }

  ghost predicate OpenAt(m: Memory, zs: seq<nat>, x: nat) {
    x < SPACE_TOP && IsJump(m[x]) && exists i :: 0 <= i && i + 1 < |zs| && zs[i] == x
  }

  // Filling in the operand of an open jump touches no other instruction.
  lemma Fill(m: Memory, zs: seq<nat>, open: seq<nat>, older: seq<nat>, a: nat, v: cell)
    requires Instructions(m, zs, open, older) && a in open && OpenAt(m, zs, a)
    ensures a + 3 <= SPACE_TOP
    ensures Instructions(Store16(m, a + 1, v), zs, open, older)
    ensures forall x :: OpenAt(m, zs, x) ==> OpenAt(Store16(m, a + 1, v), zs, x)
    ensures SameOn(m, Store16(m, a + 1, v), DICTIONARY_START, zs[0])
  {
    var j :| 0 <= j && j + 1 < |zs| && zs[j] == a;
    assert InsOk(m, zs, j, open, older);
    var n := Store16(m, a + 1, v);
    forall i | 0 <= i && i + 1 < |zs| ensures InsOk(n, zs, i, open, older) && n[zs[i]] == m[zs[i]] {
      FillOther(m, zs, open, older, j, i, v);
    }
    assert zs[0] <= a;
    forall x | OpenAt(m, zs, x) ensures OpenAt(n, zs, x) {
      var i :| 0 <= i && i + 1 < |zs| && zs[i] == x;
      assert n[zs[i]] == m[zs[i]];
    }
  }

  lemma FillOther(m: Memory, zs: seq<nat>, open: seq<nat>, older: seq<nat>, j: nat, i: nat, v: cell)
    requires Instructions(m, zs, open, older) && j + 1 < |zs| && zs[j] in open && zs[j] + 3 <= SPACE_TOP
             && IsJump(m[zs[j]])
    requires i + 1 < |zs|
    ensures InsOk(Store16(m, zs[j] + 1, v), zs, i, open, older) && Store16(m, zs[j] + 1, v)[zs[i]] == m[zs[i]]
  {
    hide Later, Plain;
    assert InsOk(m, zs, j, open, older) && InsOk(m, zs, i, open, older);
    var a, b := zs[j], zs[i];
    if i < j { assert zs[i + 1] <= a; }
    if j < i { assert zs[j + 1] <= b; }
    if i != j && Width(m[b]) == 3 {
      FetchElsewhere(m, a + 1, v, b + 1);
    }
  }

  // A jump that has got its target is no longer open.
  lemma Close(m: Memory, zs: seq<nat>, open: seq<nat>, open': seq<nat>, older: seq<nat>, j: nat)
    requires Instructions(m, zs, open, older) && j + 1 < |zs| && zs[j] + 3 <= SPACE_TOP
    requires Later(zs, j, Fetch16(m, zs[j] + 1)) && forall x :: x in open ==> x == zs[j] || x in open'
    ensures Instructions(m, zs, open', older)
  {
    hide Later, Plain, Fetch16;
    forall i | 0 <= i && i + 1 < |zs| ensures InsOk(m, zs, i, open', older) {
      assert InsOk(m, zs, i, open, older);
      if zs[i] == zs[j] {
        assert i == j;
      }
    }
  }

  // Any definition, sound or not, between `:` and `;`: everything older is sound,
  // and the control stack points into the new code only.
  ghost predicate Shell(st: State, ds: seq<seq<nat>>, start: nat) {
    && StacksOk(st) && InputOk(st.mem) && DICTIONARY_START <= st.dictNew
    && ProgramOk(st.mem, ds) && Below(ds, st.dictNew) && DictionaryOk(st.mem, st.dictHead, st.dictNew)
    && FlagsOf(st.mem, st.dictNew) == F_COLONDEF
    && start == CodeStart(st.mem, st.dictNew) <= Where(st.mem) <= SPACE_TOP
    && ControlInside(st, start)
  }

  ghost predicate ControlInside(st: State, start: int)
    requires StacksOk(st)
  {
    forall k :: 0 <= k < |ControlOf(st)| ==> start <= ControlOf(st)[k] < Where(st.mem)
  }

  // There is room for any one token.
  predicate Room(st: State) {
    DICTIONARY_START <= Where(st.mem) && Where(st.mem) + 4 <= SPACE_TOP
  }

  // Everything older than the definition is as it was.
  ghost predicate SameDictionary(st: State, s: State) {
    s.dictHead == st.dictHead && s.dictNew == st.dictNew && SameOn(st.mem, s.mem, DICTIONARY_START, st.dictNew)
  }

  // What a token does to a definition of any kind.
  ghost predicate Grown(st: State, s: State, ds: seq<seq<nat>>, start: nat)
  {
    Shell(s, ds, start) && SameDictionary(st, s) && Where(st.mem) < Where(s.mem) <= Where(st.mem) + 3
  }

  lemma ShellKept(st: State, s: State, ds: seq<seq<nat>>, start: nat)
    requires Shell(st, ds, start) && StacksOk(s) && s.dictHead == st.dictHead && s.dictNew == st.dictNew
    requires SameOn(st.mem, s.mem, LOC_INPUT_BUFFER, start)
    requires Where(st.mem) < Where(s.mem) <= Where(st.mem) + 3 && Where(s.mem) <= SPACE_TOP && ControlInside(s, start)
    ensures Grown(st, s, ds, start)
  {
    hide Fetch16, SameOn, CodeStart, ControlInside, ProgramOk, Starts, FlagsOf, Below;
    var e := st.dictNew;
    StartAfter(st.mem, e);
    SamePart(st.mem, s.mem, LOC_INPUT_BUFFER, start, DICTIONARY_START, start);
    SamePart(st.mem, s.mem, LOC_INPUT_BUFFER, start, DICTIONARY_START, e);
    FetchSame(st.mem, s.mem, LOC_INPUT_BUFFER, start, LOC_INPUT_BUFFER_COUNT);
    HeaderSame(st.mem, s.mem, e, start);
    ProgramFrame(st.mem, s.mem, ds, e);
    DictionaryFrame(st.mem, s.mem, st.dictHead, e);
  }

  // Memory after a cell went through the data stack and a byte code was laid at
  // HERE, alone or with an operand.

  lemma LaidByte(m: Memory, d: cell, x: cell, here: cell, op: byte) returns (n: Memory)
    requires DATA_BOTTOM <= d < DATA_TOP - 2 && DICTIONARY_START <= here && here + 4 <= SPACE_TOP
    ensures n == Store16(Store8(Store16(m, d, x), here, op), LOC_WHERE, here + 1)
    ensures n[here] == op && Where(n) == here + 1 && SameOn(m, n, LOC_INPUT_BUFFER, here)
    ensures SameOn(m, n, CONTROL_BOTTOM, CONTROL_TOP)
  {
    n := Store16(Store8(Store16(m, d, x), here, op), LOC_WHERE, here + 1);
    FetchStored(Store8(Store16(m, d, x), here, op), LOC_WHERE, here + 1);
  }

  lemma LaidCell(m: Memory, d: cell, x: cell, here: cell, op: byte, v: cell) returns (n: Memory)
    requires DATA_BOTTOM <= d < DATA_TOP - 2 && DICTIONARY_START <= here && here + 4 <= SPACE_TOP
    ensures n == Store16(Store16(Store8(Store16(m, d, x), here, op), here + 1, v), LOC_WHERE, here + 3)
    ensures n[here] == op && Fetch16(n, here + 1) == v && Where(n) == here + 3 && SameOn(m, n, LOC_INPUT_BUFFER, here)
    ensures SameOn(m, n, CONTROL_BOTTOM, CONTROL_TOP)
  {
    hide Fetch16;
    var m1 := Store8(Store16(m, d, x), here, op);
    var m2 := Store16(m1, here + 1, v);
    n := Store16(m2, LOC_WHERE, here + 3);
    FetchStored(m1, here + 1, v);
    FetchStored(m2, LOC_WHERE, here + 3);
    FetchElsewhere(m2, LOC_WHERE, here + 3, here + 1);
  }

  lemma ControlSame(st: State, s: State)
    requires StacksOk(st) && StacksOk(s) && s.control == st.control
             && SameOn(st.mem, s.mem, CONTROL_BOTTOM, CONTROL_TOP)
    ensures ControlOf(s) == ControlOf(st)
  {
    SamePart(st.mem, s.mem, CONTROL_BOTTOM, CONTROL_TOP, CONTROL_BOTTOM, st.control);
    CellsFrame(st.mem, s.mem, CONTROL_BOTTOM, st.control);
  }

  // The common end of words and numbers.
  lemma ShellLaid(st: State, s: State, ds: seq<seq<nat>>, start: nat)
    requires Shell(st, ds, start) && StacksOk(s) && s == st.(mem := s.mem) && Room(st)
    requires SameOn(st.mem, s.mem, LOC_INPUT_BUFFER, Where(st.mem))
             && SameOn(st.mem, s.mem, CONTROL_BOTTOM, CONTROL_TOP)
    requires Where(st.mem) < Where(s.mem) <= Where(st.mem) + 3
    ensures Grown(st, s, ds, start)
  {
    hide Fetch16, SameOn, CodeStart, ProgramOk, Starts, FlagsOf, Below, Cells;
    SamePart(st.mem, s.mem, LOC_INPUT_BUFFER, Where(st.mem), LOC_INPUT_BUFFER, start);
    ControlSame(st, s);
    ShellKept(st, s, ds, start);
  }

  // A word from anywhere in memory: what is laid is its byte code, or ENTER.
  lemma ShellWord(st: State, ds: seq<seq<nat>>, start: nat, xt: cell)
    requires Shell(st, ds, start) && Room(st)
    ensures match CompileToken(st, Word(xt))
            case Stop(why) => why == StackAssertion
            case Next(s) => Grown(st, s, ds, start)
  {
    hide Fetch16, Store16, SameOn, ProgramOk, Cells, CodeStart, DictionaryOk, Starts, FlagsOf, Below, Grown;
    hide ControlInside;
    var o := CompileToken(st, Word(xt));
    if o.Next? {
      var d, here := st.data, Where(st.mem);
      var m1 := Store16(st.mem, d, xt);
      PushedWhere(st.mem, d, xt);
      if IsInstruction(m1, xt) {
        var n := LaidByte(st.mem, d, xt, here, Fetch8(m1, Wrap(xt + H_SEMANTICS)));
        assert o.st == st.(mem := n);
      } else {
        var n := LaidCell(st.mem, d, xt, here, ENTER, Wrap(CodeStart(m1, xt)));
        assert o.st == st.(mem := n);
      }
      ShellLaid(st, o.st, ds, start);
    }
  }

  lemma PushedWhere(m: Memory, d: cell, x: cell)
    requires DATA_BOTTOM <= d < DATA_TOP - 2
    ensures Fetch16(Store16(m, d, x), d) == x && Where(Store16(m, d, x)) == Where(m)
  {
  }

  lemma ShellNumber(st: State, ds: seq<seq<nat>>, start: nat, v: cell)
    requires Shell(st, ds, start) && Room(st)
    ensures match CompileToken(st, Number(v))
            case Stop(why) => why == StackAssertion
            case Next(s) => Grown(st, s, ds, start)
  {
    hide Fetch16, Store16, SameOn, ProgramOk, Cells, CodeStart, DictionaryOk, Starts, FlagsOf, Below, Grown;
    hide ControlInside;
    var o := CompileToken(st, Number(v));
    if o.Next? {
      PushedWhere(st.mem, st.data, v);
      var n := LaidCell(st.mem, st.data, v, Where(st.mem), LDN, v);
      assert o.st == st.(mem := n);
      ShellLaid(st, o.st, ds, start);
    }
  }

  // A jump laid at HERE and left open.
  lemma OpenedMemory(m: Memory, here: cell, op: byte, c: cell)
    requires DICTIONARY_START <= here && here + 4 <= SPACE_TOP && CONTROL_BOTTOM <= c < CONTROL_TOP - 2
    ensures var m1 := Store16(Store8(m, here, op), here + 1, 0xDEAD);
            var n := Store16(Store16(m1, c, here + 1), LOC_WHERE, here + 3);
            && n[here] == op && Where(n) == here + 3 && SameOn(m, n, LOC_INPUT_BUFFER, here)
            && SameOn(m, n, CONTROL_BOTTOM, c) && Fetch16(n, c) == here + 1
  {
    var m1 := Store16(Store8(m, here, op), here + 1, 0xDEAD);
    var m2 := Store16(m1, c, here + 1);
    FetchStored(m2, LOC_WHERE, here + 3);
    FetchStored(m1, c, here + 1);
    FetchElsewhere(m2, LOC_WHERE, here + 3, c);
  }

  // One more cell on the control stack.
  lemma ControlPushed(st: State, s: State, v: cell)
    requires StacksOk(st) && StacksOk(s) && s.control == st.control + 2
    requires SameOn(st.mem, s.mem, CONTROL_BOTTOM, st.control) && Fetch16(s.mem, st.control) == v
    ensures ControlOf(s) == ControlOf(st) + [v]
  {
    hide Fetch16, SameOn;
    CellsFrame(st.mem, s.mem, CONTROL_BOTTOM, st.control);
    CellsPop(s.mem, CONTROL_BOTTOM, s.control);
  }

  lemma ControlTaken(st: State, s: State)
    requires StacksOk(st) && StacksOk(s) && s.control + 2 == st.control
             && SameOn(st.mem, s.mem, CONTROL_BOTTOM, s.control)
    ensures ControlOf(st) == ControlOf(s) + [Fetch16(st.mem, s.control)]
  {
    hide Fetch16, SameOn;
    CellsPop(st.mem, CONTROL_BOTTOM, st.control);
    CellsFrame(st.mem, s.mem, CONTROL_BOTTOM, s.control);
  }

  lemma ShellOpened(st: State, s: State, ds: seq<seq<nat>>, start: nat, v: cell)
    requires Shell(st, ds, start) && StacksOk(s) && s == st.(mem := s.mem, control := st.control + 2) && Room(st)
    requires SameOn(st.mem, s.mem, LOC_INPUT_BUFFER, Where(st.mem)) && SameOn(st.mem, s.mem, CONTROL_BOTTOM, st.control)
    requires Where(st.mem) < Where(s.mem) <= Where(st.mem) + 3
    requires Where(st.mem) <= v < Where(s.mem) && Fetch16(s.mem, st.control) == v
    ensures Grown(st, s, ds, start) && ControlOf(s) == ControlOf(st) + [v]
  {
    hide Fetch16, SameOn, CodeStart, ProgramOk, Starts, FlagsOf, Below, Cells;
    SamePart(st.mem, s.mem, LOC_INPUT_BUFFER, Where(st.mem), LOC_INPUT_BUFFER, start);
    ControlPushed(st, s, v);
    assert ControlInside(s, start);
    ShellKept(st, s, ds, start);
  }

  lemma ShellIf(st: State, ds: seq<seq<nat>>, start: nat)
    requires Shell(st, ds, start) && Room(st)
    ensures match CompileToken(st, TokIf)
            case Stop(why) => why == StackAssertion
            case Next(s) => Grown(st, s, ds, start) && ControlOf(s) == ControlOf(st) + [Where(st.mem) + 1]
  {
    hide Fetch16, Store16, SameOn, ProgramOk, Cells, CodeStart, DictionaryOk, Starts, FlagsOf, Below, Grown;
    hide ControlInside;
    if If(st).Next? {
      OpenedMemory(st.mem, Where(st.mem), JMP_FALSE, st.control);
      ShellOpened(st, If(st).st, ds, start, Where(st.mem) + 1);
    }
  }

  lemma ShellBegin(st: State, ds: seq<seq<nat>>, start: nat)
    requires Shell(st, ds, start) && Room(st)
    ensures match CompileToken(st, TokBegin)
            case Stop(why) => why == StackAssertion
            case Next(s) => Grown(st, s, ds, start) && ControlOf(s) == ControlOf(st) + [Where(st.mem)]
  {
    hide Fetch16, Store16, SameOn, ProgramOk, Cells, CodeStart, DictionaryOk, Starts, FlagsOf, Below, Grown;
    hide ControlInside;
    if Begin(st).Next? {
      BegunMemory(st.mem, Where(st.mem), st.control);
      ShellOpened(st, Begin(st).st, ds, start, Where(st.mem));
    }
  }

  lemma BegunMemory(m: Memory, here: cell, c: cell)
    requires DICTIONARY_START <= here && here + 4 <= SPACE_TOP && CONTROL_BOTTOM <= c < CONTROL_TOP - 2
    ensures var n := Store16(Store8(Store16(m, c, here), here, NOP), LOC_WHERE, here + 1);
            && Where(n) == here + 1 && SameOn(m, n, LOC_INPUT_BUFFER, here)
            && SameOn(m, n, CONTROL_BOTTOM, c) && Fetch16(n, c) == here
  {
    var m1 := Store16(m, c, here);
    FetchStored(m, c, here);
    FetchStored(Store8(m1, here, NOP), LOC_WHERE, here + 1);
  }

  // The cell on top of the control stack.
  lemma TopInside(st: State, ds: seq<seq<nat>>, start: nat) returns (a: cell)
    requires Shell(st, ds, start) && st.control != CONTROL_BOTTOM
    ensures a == Fetch16(st.mem, st.control - 2) && start <= a < Where(st.mem) && DICTIONARY_START + H_SIZE < start
    ensures ControlOf(st) == Cells(st.mem, CONTROL_BOTTOM, st.control - 2) + [a]
  {
    hide Fetch16, CodeStart, ProgramOk, DictionaryOk;
    a := Fetch16(st.mem, st.control - 2);
    CellsPop(st.mem, CONTROL_BOTTOM, st.control);
    assert ControlOf(st)[|ControlOf(st)| - 1] == a;
    StartAfter(st.mem, st.dictNew);
  }

  // A cell off the control stack.
  lemma ShellTaken(st: State, s: State, ds: seq<seq<nat>>, start: nat)
    requires Shell(st, ds, start) && StacksOk(s) && s == st.(mem := s.mem, control := s.control)
             && s.control + 2 == st.control && Room(st)
    requires SameOn(st.mem, s.mem, LOC_INPUT_BUFFER, start) && SameOn(st.mem, s.mem, CONTROL_BOTTOM, CONTROL_TOP)
    requires Where(st.mem) < Where(s.mem) <= Where(st.mem) + 3
    ensures Grown(st, s, ds, start) && ControlOf(st) == ControlOf(s) + [Fetch16(st.mem, s.control)]
  {
    hide Fetch16, SameOn, CodeStart, ProgramOk, Starts, FlagsOf, Below, Cells;
    SamePart(st.mem, s.mem, CONTROL_BOTTOM, CONTROL_TOP, CONTROL_BOTTOM, s.control);
    ControlTaken(st, s);
    assert forall k :: 0 <= k < |ControlOf(s)| ==> ControlOf(s)[k] == ControlOf(st)[k];
    ShellKept(st, s, ds, start);
  }

  lemma ThenMemory(m: Memory, a: cell, here: cell)
    requires DICTIONARY_START <= a < here && here + 4 <= SPACE_TOP
    ensures var m1 := Store16(m, a, here);
            var n := Store16(Store8(m1, here, NOP), LOC_WHERE, here + 1);
            && n[here] == NOP && Where(n) == here + 1 && SameOn(m1, n, LOC_INPUT_BUFFER, here)
            && SameOn(m, n, CONTROL_BOTTOM, CONTROL_TOP) && SameOn(m, n, LOC_INPUT_BUFFER, a)
  {
    FetchStored(Store8(Store16(m, a, here), here, NOP), LOC_WHERE, here + 1);
  }

  lemma ShellThen(st: State, ds: seq<seq<nat>>, start: nat)
    requires Shell(st, ds, start) && Room(st)
    ensures match CompileToken(st, TokThen)
            case Stop(why) => why == StackAssertion
            case Next(s) => Grown(st, s, ds, start) && ControlOf(st) == ControlOf(s) + [Fetch16(st.mem, s.control)]
  {
    hide Fetch16, Store16, SameOn, ProgramOk, Cells, CodeStart, DictionaryOk, Starts, FlagsOf, Below, Grown;
    hide ControlInside;
    if Then(st).Next? {
      var a := TopInside(st, ds, start);
      var s := Then(st).st;
      ThenMemory(st.mem, a, Where(st.mem));
      SamePart(st.mem, s.mem, LOC_INPUT_BUFFER, a, LOC_INPUT_BUFFER, start);
      ShellTaken(st, s, ds, start);
    }
  }

  lemma AgainMemory(m: Memory, here: cell, a: cell)
    requires DICTIONARY_START <= here && here + 4 <= SPACE_TOP
    ensures var n := Store16(Store16(Store8(m, here, JMP), here + 1, a), LOC_WHERE, here + 3);
            && Where(n) == here + 3 && SameOn(m, n, LOC_INPUT_BUFFER, here) && SameOn(m, n, CONTROL_BOTTOM, CONTROL_TOP)
  {
    FetchStored(Store16(Store8(m, here, JMP), here + 1, a), LOC_WHERE, here + 3);
  }

  lemma ShellAgain(st: State, ds: seq<seq<nat>>, start: nat)
    requires Shell(st, ds, start) && Room(st)
    ensures match CompileToken(st, TokAgain)
            case Stop(why) => why == StackAssertion
            case Next(s) => Grown(st, s, ds, start) && ControlOf(st) == ControlOf(s) + [Fetch16(st.mem, s.control)]
  {
    hide Fetch16, Store16, SameOn, ProgramOk, Cells, CodeStart, DictionaryOk, Starts, FlagsOf, Below, Grown;
    hide ControlInside;
    if Again(st).Next? {
      var s := Again(st).st;
      AgainMemory(st.mem, Where(st.mem), Fetch16(st.mem, st.control - 2));
      SamePart(st.mem, s.mem, LOC_INPUT_BUFFER, Where(st.mem), LOC_INPUT_BUFFER, start);
      ShellTaken(st, s, ds, start);
    }
  }

  lemma ElseMemory(m: Memory, a: cell, here: cell, c: cell)
    requires DICTIONARY_START <= a < here && here + 4 <= SPACE_TOP && CONTROL_BOTTOM <= c < CONTROL_TOP - 2
    ensures var m1 := Store16(m, a, here + 3);
            var m2 := Store16(Store8(m1, here, JMP), here + 1, 0xDEAD);
            var n := Store16(Store16(m2, c, here + 1), LOC_WHERE, here + 3);
            && n[here] == JMP && Where(n) == here + 3 && SameOn(m1, n, LOC_INPUT_BUFFER, here)
            && SameOn(m, n, CONTROL_BOTTOM, c) && Fetch16(n, c) == here + 1 && SameOn(m, n, LOC_INPUT_BUFFER, a)
  {
    hide Fetch16;
    var m1 := Store16(m, a, here + 3);
    OpenedMemory(m1, here, JMP, c);
    assert SameOn(m, m1, CONTROL_BOTTOM, c);
  }

  lemma ControlReplaced(st: State, s: State, v: cell)
    requires StacksOk(st) && StacksOk(s) && s.control == st.control && CONTROL_BOTTOM < st.control
    requires SameOn(st.mem, s.mem, CONTROL_BOTTOM, st.control - 2) && Fetch16(s.mem, st.control - 2) == v
    ensures ControlOf(s) == Cells(st.mem, CONTROL_BOTTOM, st.control - 2) + [v]
  {
    hide Fetch16, SameOn;
    CellsPop(s.mem, CONTROL_BOTTOM, s.control);
    CellsFrame(st.mem, s.mem, CONTROL_BOTTOM, st.control - 2);
  }

  lemma ShellElse(st: State, ds: seq<seq<nat>>, start: nat)
    requires Shell(st, ds, start) && Room(st)
    ensures match CompileToken(st, TokElse)
            case Stop(why) => why == StackAssertion
            case Next(s) =>
              && Grown(st, s, ds, start) && s.control == st.control && CONTROL_BOTTOM < st.control
              && ControlOf(s) == Cells(st.mem, CONTROL_BOTTOM, st.control - 2) + [Where(st.mem) + 1]
  {
    hide Fetch16, Store16, SameOn, ProgramOk, Cells, CodeStart, DictionaryOk, Starts, FlagsOf, Below;
    if Else(st).Next? {
      var a := TopInside(st, ds, start);
      var s := Else(st).st;
      ElseMemory(st.mem, a, Where(st.mem), st.control - 2);
      SamePart(st.mem, s.mem, LOC_INPUT_BUFFER, a, LOC_INPUT_BUFFER, start);
      ControlReplaced(st, s, Where(st.mem) + 1);
      var xs := Cells(st.mem, CONTROL_BOTTOM, st.control - 2);
      assert forall k :: 0 <= k < |xs| ==> xs[k] == ControlOf(st)[k];
      ShellKept(st, s, ds, start);
    }
  }

  // Any token at all: what is older stays sound.
  lemma AnyToken(st: State, ds: seq<seq<nat>>, start: nat, t: Token)
    requires Shell(st, ds, start) && Room(st)
    ensures match CompileToken(st, t)
            case Stop(why) => why == StackAssertion
            case Next(s) => Grown(st, s, ds, start)
  {
    hide Shell, CompileToken, Grown, Cells;
    match t
    case Word(xt) => ShellWord(st, ds, start, xt);
    case Number(v) => ShellNumber(st, ds, start, v);
    case TokIf => ShellIf(st, ds, start);
    case TokElse => ShellElse(st, ds, start);
    case TokThen => ShellThen(st, ds, start);
    case TokBegin => ShellBegin(st, ds, start);
    case TokAgain => ShellAgain(st, ds, start);
  }
}
