// Definitions of the kind that always ends, token by token from `:` to `;`, and
// what they are for: every word such a definition makes terminates.
module ByteDefine {
  import opened Dataspace
  import opened ByteState
  import opened ByteWords
  import opened ByteProgram
  import opened ByteTermination
  import opened ByteCompile

  // In the middle of a definition: the row of its instructions so far ends at
  // HERE, the open jumps are on the control stack, everything older is sound.
  ghost predicate Building(st: State, ds: seq<seq<nat>>, zs: seq<nat>, open: seq<nat>) {
    && zs != [] && Shell(st, ds, zs[0])
    && Instructions(st.mem, zs, open, Starts(ds)) && zs[|zs| - 1] == Where(st.mem)
    && OpenOk(st.mem, zs, open) && OnControl(st, open)
  }

  ghost predicate OnControl(st: State, open: seq<nat>)
    requires StacksOk(st)
  {
    |ControlOf(st)| == |open| && forall k :: 0 <= k < |open| ==> ControlOf(st)[k] == open[k] + 1
  }

  // What a token of the kind considered does.
  ghost predicate Extends(st: State, o: Outcome, ds: seq<seq<nat>>, zs: seq<nat>, zs': seq<nat>, open': seq<nat>)
    requires zs != []
  {
    match o
    case Stop(why) => why == StackAssertion
    case Next(s) => Building(s, ds, zs', open') && zs'[0] == zs[0] && Grown(st, s, ds, zs[0])
  }

  lemma RowBound(m: Memory, zs: seq<nat>, open: seq<nat>, older: seq<nat>)
    requires Instructions(m, zs, open, older)
    ensures zs != [] && DICTIONARY_START <= zs[0] <= zs[|zs| - 1]
  {
    hide InsOk;
  }

  // Open jumps stay what they are while code below HERE does.
  lemma OpenFrame(m: Memory, n: Memory, zs: seq<nat>, zs': seq<nat>, open: seq<nat>, older: seq<nat>)
    requires Instructions(m, zs, open, older) && OpenOk(m, zs, open) && zs <= zs'
    requires SameOn(m, n, DICTIONARY_START, zs[|zs| - 1]) && zs[|zs| - 1] <= SPACE_TOP
    ensures OpenOk(n, zs', open)
  {
    hide InsOk;
    forall x | x in open ensures OpenAt(n, zs', x) {
      assert OpenAt(m, zs, x);
      var i :| 0 <= i && i + 1 < |zs| && zs[i] == x;
      assert zs'[i] == x && DICTIONARY_START <= x < zs[|zs| - 1];
    }
  }

  // An instruction without a jump: the common end of words and numbers.
  lemma Appended(st: State, s: State, ds: seq<seq<nat>>, zs: seq<nat>, open: seq<nat>) returns (zs': seq<nat>)
    requires Building(st, ds, zs, open) && StacksOk(s) && s == st.(mem := s.mem) && Room(st) && Grown(st, s, ds, zs[0])
    requires var here := Where(st.mem);
             && SameOn(st.mem, s.mem, LOC_INPUT_BUFFER, here) && SameOn(st.mem, s.mem, CONTROL_BOTTOM, CONTROL_TOP)
             && var op := s.mem[here] as nat;
                && (Plain(op) || op == LDN || op == ENTER) && Where(s.mem) == here + Width(op)
                && (op == ENTER ==> Fetch16(s.mem, here + 1) as nat in Starts(ds))
    ensures Extends(st, Next(s), ds, zs, zs', open)
  {
    hide Fetch16, SameOn, Instructions, OpenOk, Shell, Cells, Plain, Starts;
    var here := Where(st.mem);
    zs' := zs + [here + Width(s.mem[here])];
    ShellStacks(st, ds, zs[0]);
    RowBound(st.mem, zs, open, Starts(ds));
    assert !IsJump(s.mem[here]) by { PlainNoJump(s.mem[here]); }
    SamePart(st.mem, s.mem, LOC_INPUT_BUFFER, here, DICTIONARY_START, here);
    Append(st.mem, s.mem, zs, open, open, Starts(ds));
    OpenFrame(st.mem, s.mem, zs, zs', open, Starts(ds));
    ControlSame(st, s);
  }

  lemma ShellStacks(st: State, ds: seq<seq<nat>>, start: nat)
    requires Shell(st, ds, start)
    ensures StacksOk(st) && DictionaryOk(st.mem, st.dictHead, st.dictNew) && NonEmpty(ds)
    ensures DICTIONARY_START + H_SIZE < start <= Where(st.mem) <= SPACE_TOP
  {
    hide Fetch16, CodeStart, DictionaryOk;
    StartAfter(st.mem, st.dictNew);
  }

  lemma PlainNoJump(op: nat)
    ensures Plain(op) || op == LDN || op == ENTER ==> !IsJump(op)
    ensures Plain(op) ==> Width(op) == 1
  {
  }

  lemma WordToken(st: State, ds: seq<seq<nat>>, zs: seq<nat>, open: seq<nat>, xt: cell) returns (zs': seq<nat>)
    requires Building(st, ds, zs, open) && Room(st) && NonEmpty(ds) && Usable(st.mem, st.dictHead, Starts(ds), Word(xt))
    ensures Extends(st, CompileToken(st, Word(xt)), ds, zs, zs', open)
  {
    hide Fetch16, Store16, SameOn, Instructions, OpenOk, ProgramOk, Cells, Plain, CodeStart, DictionaryOk, OnChain;
    hide Starts, Below;
    hide Grown, ControlInside, FlagsOf;
    zs' := zs;
    ShellWord(st, ds, zs[0], xt);
    var o := CompileToken(st, Word(xt));
    if o.Next? {
      var d, here := st.data, Where(st.mem);
      ChainEntry(st.mem, st.dictHead, st.dictNew, xt);
      var m1 := Store16(st.mem, d, xt);
      PushedSame(st.mem, d, xt, xt);
      if IsInstruction(st.mem, xt) {
        PlainNoJump(st.mem[xt + H_SEMANTICS]);
        var n := LaidByte(st.mem, d, xt, here, st.mem[xt + H_SEMANTICS]);
        assert o.st == st.(mem := n);
      } else {
        var n := LaidCell(st.mem, d, xt, here, ENTER, Wrap(CodeStart(st.mem, xt)));
        assert o.st == st.(mem := n);
      }
      zs' := Appended(st, o.st, ds, zs, open);
    }
  }

  // What the header of a word looks like after its token went over the stack.
  lemma PushedSame(m: Memory, d: cell, x: cell, e: cell)
    requires DATA_BOTTOM <= d < DATA_TOP - 2 && e + H_SIZE + 1 <= SPACE_TOP && CodeStart(m, e) <= SPACE_TOP
    ensures var n := Store16(m, d, x);
            && Fetch16(n, d) == x && Where(n) == Where(m)
            && Wrap(e + H_FLAGS) == e + H_FLAGS && Wrap(e + H_SEMANTICS) == e + H_SEMANTICS
            && FlagsOf(n, e) == FlagsOf(m, e) && n[e + H_SEMANTICS] == m[e + H_SEMANTICS]
            && CodeStart(n, e) == CodeStart(m, e) && Wrap(CodeStart(m, e)) == CodeStart(m, e)
  {
  }

  lemma NumberToken(st: State, ds: seq<seq<nat>>, zs: seq<nat>, open: seq<nat>, v: cell) returns (zs': seq<nat>)
    requires Building(st, ds, zs, open) && Room(st)
    ensures Extends(st, CompileToken(st, Number(v)), ds, zs, zs', open)
  {
    hide Fetch16, Store16, SameOn, Instructions, OpenOk, ProgramOk, Cells, Plain, CodeStart, DictionaryOk, Starts;
    hide Below;
    hide Grown, ControlInside, FlagsOf;
    zs' := zs;
    ShellNumber(st, ds, zs[0], v);
    var o := CompileToken(st, Number(v));
    if o.Next? {
      PushedWhere(st.mem, st.data, v);
      var n := LaidCell(st.mem, st.data, v, Where(st.mem), LDN, v);
      assert o.st == st.(mem := n);
      zs' := Appended(st, o.st, ds, zs, open);
    }
  }

  lemma OpenNew(m: Memory, zs: seq<nat>, here: cell, open: seq<nat>)
    requires zs != [] && zs[|zs| - 1] == here < SPACE_TOP && IsJump(m[here]) && OpenOk(m, zs + [here + 3], open)
    ensures OpenOk(m, zs + [here + 3], open + [here as nat])
  {
    var zs' := zs + [here + 3];
    assert zs'[|zs| - 1] == here;
    forall x | x in open + [here as nat] ensures OpenAt(m, zs', x) {
      if x in open { assert OpenAt(m, zs', x); }
    }
  }

  lemma IfToken(st: State, ds: seq<seq<nat>>, zs: seq<nat>, open: seq<nat>) returns (zs': seq<nat>, open': seq<nat>)
    requires Building(st, ds, zs, open) && Room(st)
    ensures Extends(st, CompileToken(st, TokIf), ds, zs, zs', open')
  {
    hide Fetch16, Store16, SameOn, Instructions, OpenOk, Shell, Cells, Plain, Starts, Grown;
    ShellStacks(st, ds, zs[0]);
    var here := Where(st.mem);
    zs', open' := zs + [here + 3], open + [here as nat];
    ShellIf(st, ds, zs[0]);
    var o := If(st);
    if o.Next? {
      var s := o.st;
      OpenedMemory(st.mem, here, JMP_FALSE, st.control);
      RowBound(st.mem, zs, open, Starts(ds));
      SamePart(st.mem, s.mem, LOC_INPUT_BUFFER, here, DICTIONARY_START, here);
      Append(st.mem, s.mem, zs, open, open', Starts(ds));
      OpenFrame(st.mem, s.mem, zs, zs', open, Starts(ds));
      OpenNew(s.mem, zs, here, open);
      GrownShell(st, s, ds, zs[0]);
    }
  }

  lemma GrownShell(st: State, s: State, ds: seq<seq<nat>>, start: nat)
    requires Grown(st, s, ds, start)
    ensures Shell(s, ds, start) && StacksOk(s)
  {
    hide Shell;
    ShellStacks(s, ds, start);
  }

  // The jump on top of the control stack.
  lemma TopOpen(st: State, ds: seq<seq<nat>>, zs: seq<nat>, open: seq<nat>) returns (j: nat)
    requires Building(st, ds, zs, open) && st.control != CONTROL_BOTTOM
    ensures open != [] && j + 1 < |zs| && zs[j] == open[|open| - 1] && OpenAt(st.mem, zs, zs[j])
    ensures zs[j] + 3 <= SPACE_TOP && zs[j] + 3 <= zs[|zs| - 1] && DICTIONARY_START <= zs[j]
    ensures Fetch16(st.mem, st.control - 2) == zs[j] + 1
  {
    hide Fetch16, Shell;
    ShellStacks(st, ds, zs[0]);
    CellsPop(st.mem, CONTROL_BOTTOM, st.control);
    assert |ControlOf(st)| > 0;
    var x := open[|open| - 1];
    assert x in open;
    assert OpenAt(st.mem, zs, x);
    j :| 0 <= j && j + 1 < |zs| && zs[j] == x;
    assert InsOk(st.mem, zs, j, open, Starts(ds));
    assert zs[j + 1] <= zs[|zs| - 1];
  }

  // Fill in the top jump, lay one more instruction, and take the jump off.
  lemma Patched(m: Memory, n: Memory, zs: seq<nat>, open: seq<nat>, more: seq<nat>, older: seq<nat>, j: nat,
      target: cell) returns (zs': seq<nat>)
    requires Instructions(m, zs, open, older) && OpenOk(m, zs, open) && open != [] && j + 1 < |zs|
             && zs[j] == open[|open| - 1]
    requires var here := zs[|zs| - 1];
             && here + 4 <= SPACE_TOP && zs[j] + 3 <= here
             && SameOn(Store16(m, zs[j] + 1, target), n, DICTIONARY_START, here)
             && (if more == [] then n[here] == NOP && target == here
                 else n[here] == JMP && more == [here] && target == here + 3)
    ensures zs' == zs + [zs[|zs| - 1] + Width(n[zs[|zs| - 1]])]
    ensures Instructions(n, zs', open[..|open| - 1] + more, older) && OpenOk(n, zs', open[..|open| - 1] + more)
    ensures SameOn(m, n, DICTIONARY_START, zs[0])
  {
    hide Fetch16, SameOn, Store16, InsOk;
    var a, here := zs[j], zs[|zs| - 1];
    assert OpenAt(m, zs, a);
    Fill(m, zs, open, older, a, target);
    var m1 := Store16(m, a + 1, target);
    assert OpenOk(m1, zs, open);
    zs' := zs + [here + Width(n[here])];
    var open' := open[..|open| - 1] + more;
    hide Instructions, OpenAt;
    RowBound(m, zs, open, older);
    Append(m1, n, zs, open, open + more, older);
    OpenFrame(m1, n, zs, zs', open, older);
    FetchStored(m, a + 1, target);
    assert DICTIONARY_START <= a by { RowInside(m, zs, open, older, j); }
    FetchSame(m1, n, DICTIONARY_START, here, a + 1);
    assert zs'[|zs| - 1] == here && zs'[j] == a;
    assert Later(zs', j, target) by {
      if more == [] { assert zs'[|zs| - 1] == target; } else { assert zs'[|zs|] == target; }
    }
    Close(n, zs', open + more, open', older, j);
    if more != [] {
      OpenNew(n, zs, here, open);
      assert OpenOk(n, zs', open + more);
    }
    assert forall x :: x in open' ==> x in open + more;
    SamePart(m1, n, DICTIONARY_START, here, DICTIONARY_START, zs[0]);
    SameBoth(m, m1, n, DICTIONARY_START, zs[0]);
  }

  lemma RowInside(m: Memory, zs: seq<nat>, open: seq<nat>, older: seq<nat>, j: nat)
    requires Instructions(m, zs, open, older) && j < |zs|
    ensures DICTIONARY_START <= zs[j]
  {
    hide InsOk;
  }

  // The control stack without its top cell, and perhaps another on it.
  lemma ControlFront(st: State, s: State, open: seq<nat>, xs: seq<cell>, v: cell, ys: seq<cell>, more: seq<nat>)
    requires StacksOk(st) && StacksOk(s) && OnControl(st, open) && ControlOf(st) == xs + [v]
    requires ControlOf(s) == xs + ys && |ys| == |more| && forall k :: 0 <= k < |ys| ==> ys[k] == more[k] + 1
    ensures open != [] && OnControl(s, open[..|open| - 1] + more)
  {
    hide Fetch16, Cells;
    assert |open| == |xs| + 1;
    assert forall k :: 0 <= k < |xs| ==> ControlOf(s)[k] == xs[k] == ControlOf(st)[k];
  }

  lemma ThenToken(st: State, ds: seq<seq<nat>>, zs: seq<nat>, open: seq<nat>) returns (zs': seq<nat>, open': seq<nat>)
    requires Building(st, ds, zs, open) && Room(st)
    ensures Extends(st, CompileToken(st, TokThen), ds, zs, zs', open')
  {
    hide Fetch16, Store16, SameOn, Instructions, OpenOk, Shell, Cells, Starts, OpenAt, Grown, InsOk, Plain, OnControl;
    zs', open' := zs, open;
    ShellStacks(st, ds, zs[0]);
    ShellThen(st, ds, zs[0]);
    if st.control != CONTROL_BOTTOM {
      var j := TopOpen(st, ds, zs, open);
      var here := Where(st.mem);
      var s := CompileToken(st, TokThen).st;
      ThenMemory(st.mem, zs[j] + 1, here);
      SamePart(Store16(st.mem, zs[j] + 1, here), s.mem, LOC_INPUT_BUFFER, here, DICTIONARY_START, here);
      zs' := Patched(st.mem, s.mem, zs, open, [], Starts(ds), j, here);
      open' := open[..|open| - 1] + [];
      assert ControlOf(s) == ControlOf(s) + [];
      ControlFront(st, s, open, ControlOf(s), Fetch16(st.mem, s.control), [], []);
      GrownShell(st, s, ds, zs[0]);
    }
  }

  lemma ElseToken(st: State, ds: seq<seq<nat>>, zs: seq<nat>, open: seq<nat>) returns (zs': seq<nat>, open': seq<nat>)
    requires Building(st, ds, zs, open) && Room(st)
    ensures Extends(st, CompileToken(st, TokElse), ds, zs, zs', open')
  {
    hide Fetch16, Store16, SameOn, Instructions, OpenOk, Shell, Cells, Starts, OpenAt, Grown, InsOk, Plain, OnControl;
    zs', open' := zs, open;
    ShellStacks(st, ds, zs[0]);
    ShellElse(st, ds, zs[0]);
    if st.control != CONTROL_BOTTOM {
      var j := TopOpen(st, ds, zs, open);
      var here := Where(st.mem);
      ElseMemory(st.mem, zs[j] + 1, here, st.control - 2);
      var s := CompileToken(st, TokElse).st;
      SamePart(Store16(st.mem, zs[j] + 1, here + 3), s.mem, LOC_INPUT_BUFFER, here, DICTIONARY_START, here);
      zs' := Patched(st.mem, s.mem, zs, open, [here as nat], Starts(ds), j, here + 3);
      open' := open[..|open| - 1] + [here as nat];
      CellsPop(st.mem, CONTROL_BOTTOM, st.control);
      ControlFront(st, s, open, Cells(st.mem, CONTROL_BOTTOM, st.control - 2), Fetch16(st.mem, st.control - 2),
        [here + 1], [here as nat]);
      GrownShell(st, s, ds, zs[0]);
    }
  }

  lemma OneToken(st: State, ds: seq<seq<nat>>, zs: seq<nat>, open: seq<nat>, t: Token)
    returns (zs': seq<nat>, open': seq<nat>)
    requires Building(st, ds, zs, open) && Room(st) && NonEmpty(ds) && Usable(st.mem, st.dictHead, Starts(ds), t)
    ensures Extends(st, CompileToken(st, t), ds, zs, zs', open')
  {
    hide CompileToken, Building, Extends, Room;
    zs', open' := zs, open;
    match t
    case Word(xt) => zs' := WordToken(st, ds, zs, open, xt);
    case Number(v) => zs' := NumberToken(st, ds, zs, open, v);
    case TokIf => zs', open' := IfToken(st, ds, zs, open);
    case TokElse => zs', open' := ElseToken(st, ds, zs, open);
    case TokThen => zs', open' := ThenToken(st, ds, zs, open);
    case _ =>
  }

  // Between definitions.
  ghost predicate Ready(st: State, ds: seq<seq<nat>>) {
    && StacksOk(st) && st.control == CONTROL_BOTTOM && InputOk(st.mem)
    && DICTIONARY_START <= Where(st.mem) <= SPACE_TOP && ProgramOk(st.mem, ds) && Below(ds, Where(st.mem))
    && DictionaryOk(st.mem, st.dictHead, Where(st.mem))
  }

  // Room for a header with the longest name.
  predicate HeaderRoom(st: State) {
    Where(st.mem) + HEADER_MOST <= SPACE_TOP
  }

  // `:` starts an empty row; the new header, with the name that was read, is not
  // on the chain.
  lemma ColonOpens(st: State, ds: seq<seq<nat>>) returns (zs: seq<nat>)
    requires Ready(st, ds) && HeaderRoom(st)
    ensures match Colon(st)
            case Stop(why) => why == StackAssertion
            case Next(s) =>
              && Building(s, ds, zs, []) && |zs| == 1 && s.dictHead == st.dictHead
              && s.dictNew == Where(st.mem) && SameOn(st.mem, s.mem, DICTIONARY_START, s.dictNew)
              && Where(s.mem) <= Where(st.mem) + HEADER_MOST
              && s == st.(mem := s.mem, dictNew := s.dictNew)
  {
    hide Fetch16, Store16, SameOn, ProgramOk, Cells, CodeStart, DictionaryOk, Starts, ParseName, NewHeader;
    hide Instructions, FlagsOf;
    zs := [0];
    ParsedSame(st.mem);
    var o := Colon(st);
    if o.Next? {
      var s := o.st;
      var p := ParseName(st.mem);
      var here := Where(st.mem);
      ColonMemory(p.mem, st.data, p.at, here, p.text);
      zs := [here + H_SIZE + 1 + |p.text|];
      SamePart(st.mem, p.mem, DICTIONARY_START, SIZE, DICTIONARY_START, here);
      SameBoth(st.mem, p.mem, s.mem, DICTIONARY_START, here);
      FetchSame(p.mem, s.mem, LOC_INPUT_BUFFER, DICTIONARY_START, LOC_INPUT_BUFFER_COUNT);
      ProgramFrame(st.mem, s.mem, ds, here);
      DictionaryFrame(st.mem, s.mem, st.dictHead, here);
      assert Instructions(s.mem, zs, [], Starts(ds)) by { OnlyHere(s.mem, zs, Starts(ds)); }
      assert OpenOk(s.mem, zs, []);
      assert |ControlOf(s)| == 0;
    }
  }

  lemma OnlyHere(m: Memory, zs: seq<nat>, older: seq<nat>)
    requires |zs| == 1 && DICTIONARY_START <= zs[0]
    ensures Instructions(m, zs, [], older)
  {
  }

  // The memory `;` leaves.
  lemma LinkMemory(m: Memory, e: cell, here: cell, head: cell, start: nat)
    requires DICTIONARY_START <= e && e + H_SIZE < start <= here && here + 4 <= SPACE_TOP && start == CodeStart(m, e)
    requires FlagsOf(m, e) == F_COLONDEF && InputOk(m) && Where(m) == here
    ensures Where(Store16(m, e, head)) == here
    ensures var m2 := Store8(Store16(m, e, head), here, LEAVE);
            var n := Store16(Store16(m2, LOC_WHERE, here + 1 + (here + 1) % 2), LOC_STATE, 0);
            && n[here] == LEAVE && Where(n) == here + 1 + (here + 1) % 2 && Fetch16(n, e) == head
            && SameOn(m, n, DICTIONARY_START, e) && SameOn(m, n, start, here) && InputOk(n)
            && CodeStart(n, e) == start && FlagsOf(n, e) == F_COLONDEF
  {
    hide Fetch16, Store16, SameOn, CodeStart, FlagsOf;
    var m1 := Store16(m, e, head);
    var m2 := Store8(m1, here, LEAVE);
    var w: cell := here + 1 + (here + 1) % 2;
    var m3 := Store16(m2, LOC_WHERE, w);
    var n := Store16(m3, LOC_STATE, 0);
    FetchElsewhere(m, e, head, LOC_WHERE);
    FetchStored(m2, LOC_WHERE, w);
    FetchElsewhere(m3, LOC_STATE, 0, LOC_WHERE);
    FetchStored(m, e, head);
    LinkFrame(m, e, here, head, w);
    FetchSame(m, n, LOC_INPUT_BUFFER, DICTIONARY_START, LOC_INPUT_BUFFER_COUNT);
    HeaderRest(m, n, e, here, head);
  }

  lemma LinkFrame(m: Memory, e: cell, here: cell, head: cell, w: cell)
    requires DICTIONARY_START <= e && e + H_SIZE < here < SPACE_TOP
    ensures var n := Store16(Store16(Store8(Store16(m, e, head), here, LEAVE), LOC_WHERE, w), LOC_STATE, 0);
            && n[here] == LEAVE && SameOn(m, n, DICTIONARY_START, e) && SameOn(m, n, e + 2, here)
            && n[e] == head % 0x100 && n[e + 1] == head / 0x100 && SameOn(m, n, LOC_INPUT_BUFFER, DICTIONARY_START)
  {
  }

  lemma HeaderRest(m: Memory, n: Memory, e: cell, here: cell, head: cell)
    requires DICTIONARY_START <= e && e + H_SIZE < here < SPACE_TOP && SameOn(m, n, e + 2, here)
    requires n[e] == head % 0x100 && n[e + 1] == head / 0x100
    ensures Fetch16(n, e) == head && FlagsOf(n, e) == FlagsOf(m, e) && CodeStart(n, e) == CodeStart(m, e)
    ensures Wrap(e + H_FLAGS) == e + H_FLAGS
    ensures forall lo :: e + 2 <= lo ==> SameOn(m, n, lo, here)
  {
    FetchSame(m, n, e + 2, here, e + H_FLAGS);
  }

  // What `;` does to the memory of any definition.
  lemma SemicolonMemory(st: State, ds: seq<seq<nat>>, start: nat)
    requires Shell(st, ds, start) && Room(st)
    ensures Semicolon(st).Next?
    ensures var s, e, here := Semicolon(st).st, st.dictNew, Where(st.mem);
            && s == st.(mem := s.mem, dictHead := e, dictNew := 0) && s.mem[here] == LEAVE
            && Where(s.mem) == here + 1 + (here + 1) % 2 && Fetch16(s.mem, e) == st.dictHead
            && SameOn(st.mem, s.mem, DICTIONARY_START, e) && SameOn(st.mem, s.mem, start, here) && InputOk(s.mem)
            && CodeStart(s.mem, e) == start && FlagsOf(s.mem, e) == F_COLONDEF
  {
    hide Fetch16, Store16, SameOn, CodeStart, FlagsOf, ProgramOk, DictionaryOk, Cells;
    StartAfter(st.mem, st.dictNew);
    LinkMemory(st.mem, st.dictNew, Where(st.mem), st.dictHead, start);
  }

  // `;` writes nothing where the stacks are.
  lemma SemicolonAbove(st: State, ds: seq<seq<nat>>, start: nat)
    requires Shell(st, ds, start) && Room(st)
    ensures Semicolon(st).Next? && SameOn(st.mem, Semicolon(st).st.mem, SPACE_TOP, SIZE)
  {
    hide Fetch16, CodeStart, FlagsOf, ProgramOk, DictionaryOk, ControlInside;
    StartAfter(st.mem, st.dictNew);
    FetchElsewhere(st.mem, st.dictNew, st.dictHead, LOC_WHERE);
  }

  // Between definitions, when jumps of the newest one, whose code starts at
  // `start`, may be left open on the control stack.
  ghost predicate Loose(st: State, ds: seq<seq<nat>>, start: nat) {
    && StacksOk(st) && InputOk(st.mem)
    && DICTIONARY_START <= Where(st.mem) <= SPACE_TOP && ProgramOk(st.mem, ds) && Below(ds, Where(st.mem))
    && DictionaryOk(st.mem, st.dictHead, Where(st.mem))
    && start == CodeStart(st.mem, st.dictHead) && ControlInside(st, start)
  }

  // `;` at the end of any definition: its header is linked and what is older
  // stays sound, whether or not the definition itself is; nothing is left open
  // that was not open before it.
  lemma AnyLinks(st: State, ds: seq<seq<nat>>, start: nat)
    requires Shell(st, ds, start) && Room(st)
    ensures Semicolon(st).Next? && Semicolon(st).st.dictHead == st.dictNew
    ensures Loose(Semicolon(st).st, ds, start) && ControlOf(Semicolon(st).st) == ControlOf(st)
    ensures st.control == CONTROL_BOTTOM ==> Ready(Semicolon(st).st, ds)
  {
    hide Fetch16, Store16, SameOn, ProgramOk, CodeStart, Starts, FlagsOf, Semicolon, Cells;
    SemicolonMemory(st, ds, start);
    SemicolonAbove(st, ds, start);
    var s, e := Semicolon(st).st, st.dictNew;
    StartAfter(st.mem, e);
    ProgramFrame(st.mem, s.mem, ds, e);
    DictionaryFrame(st.mem, s.mem, st.dictHead, e);
    SamePart(st.mem, s.mem, SPACE_TOP, SIZE, CONTROL_BOTTOM, st.control);
    CellsFrame(st.mem, s.mem, CONTROL_BOTTOM, st.control);
    assert st.dictHead < e by { HeadBelow(st.mem, st.dictHead, e); }
    assert ControlOf(s) == ControlOf(st);
    assert ControlInside(s, start);
  }

  // `;` with nothing left open: one more definition, and its header linked.
  lemma SemicolonLinks(st: State, ds: seq<seq<nat>>, zs: seq<nat>, open: seq<nat>)
    requires Building(st, ds, zs, open) && Room(st) && st.control == CONTROL_BOTTOM
    ensures Semicolon(st).Next? && Ready(Semicolon(st).st, ds + [zs]) && Semicolon(st).st.dictHead == st.dictNew
    ensures CodeStart(Semicolon(st).st.mem, st.dictNew) == zs[0]
  {
    hide Fetch16, Store16, SameOn, ProgramOk, CodeStart, Starts, InsOk, Semicolon, FlagsOf;
    assert |ControlOf(st)| == 0 && open == [];
    SemicolonMemory(st, ds, zs[0]);
    AnyLinks(st, ds, zs[0]);
    var s := Semicolon(st).st;
    var here := Where(st.mem);
    RowBound(st.mem, zs, [], Starts(ds));
    forall i | 0 <= i && i + 1 < |zs| ensures InsOk(s.mem, zs, i, [], Starts(ds)) {
      assert zs[0] <= zs[i] && zs[i + 1] <= zs[|zs| - 1];
      InstructionFrame(st.mem, s.mem, zs, i, [], Starts(ds), zs[0], here);
    }
    assert DefinitionOk(s.mem, zs, Starts(ds));
    ProgramMore(s.mem, ds, zs);
  }

  lemma HeadBelow(m: Memory, h: cell, bound: int)
    requires DictionaryOk(m, h, bound) && 0 < bound
    ensures h < bound
  {
  }

  lemma StartsMore(ds: seq<seq<nat>>, zs: seq<nat>)
    requires NonEmpty(ds) && zs != []
    ensures NonEmpty(ds + [zs]) && Starts(ds + [zs]) == Starts(ds) + [zs[0]]
  {
  }

  lemma ProgramMore(m: Memory, ds: seq<seq<nat>>, zs: seq<nat>)
    requires ProgramOk(m, ds) && zs != [] && DefinitionOk(m, zs, Starts(ds))
    ensures ProgramOk(m, ds + [zs])
  {
    hide DefinitionOk;
    var all := ds + [zs];
    forall k | 0 <= k < |all| ensures DefinitionOk(m, all[k], Starts(all[..k])) {
      assert all[..k] == ds[..k];
      if k == |ds| { assert ds[..k] == ds; }
    }
  }

  lemma {:induction false} ChainFrame(m: Memory, n: Memory, h: cell, bound: int, xt: cell)
    requires DictionaryOk(m, h, bound) && SameOn(m, n, DICTIONARY_START, bound) && OnChain(m, h, xt)
    ensures OnChain(n, h, xt)
    decreases h
  {
    hide Fetch16, CodeStart;
    assert h + H_SIZE <= bound by { StartAfter(m, h); }
    HeaderSame(m, n, h, bound);
    if h != xt {
      ChainFrame(m, n, Fetch16(m, h), h, xt);
    }
  }

  lemma UsableFrame(m: Memory, n: Memory, h: cell, bound: int, starts: seq<nat>, t: Token)
    requires DictionaryOk(m, h, bound) && SameOn(m, n, DICTIONARY_START, bound) && Usable(m, h, starts, t)
    ensures Usable(n, h, starts, t)
  {
    hide Fetch16, SameOn, CodeStart, DictionaryOk, OnChain, Plain, FlagsOf;
    if t.Word? {
      ChainEntry(m, h, bound, t.xt);
      ChainFrame(m, n, h, bound, t.xt);
      HeaderSame(m, n, t.xt, bound);
    }
  }

  // Room for n tokens and `;`.
  predicate Fits(st: State, n: nat) {
    DICTIONARY_START <= Where(st.mem) && Where(st.mem) + 3 * n + 4 <= SPACE_TOP
  }

  ghost predicate AllUsable(m: Memory, h: cell, starts: seq<nat>, ts: seq<Token>) {
    forall i :: 0 <= i < |ts| ==> Usable(m, h, starts, ts[i])
  }

  lemma AllUsableFrame(m: Memory, n: Memory, h: cell, bound: int, starts: seq<nat>, ts: seq<Token>)
    requires DictionaryOk(m, h, bound) && SameOn(m, n, DICTIONARY_START, bound) && AllUsable(m, h, starts, ts)
    ensures AllUsable(n, h, starts, ts)
  {
    hide Usable, SameOn, DictionaryOk;
    forall i | 0 <= i < |ts| ensures Usable(n, h, starts, ts[i]) {
      UsableFrame(m, n, h, bound, starts, ts[i]);
    }
  }

  // Any of these tokens, well nested or not, keep the definition of the kind
  // above.
  lemma {:induction false} AllTokens(st: State, ds: seq<seq<nat>>, zs: seq<nat>, open: seq<nat>, ts: seq<Token>)
    returns (zs': seq<nat>, open': seq<nat>)
    requires Building(st, ds, zs, open) && Fits(st, |ts|) && NonEmpty(ds)
             && AllUsable(st.mem, st.dictHead, Starts(ds), ts)
    ensures match CompileTokens(st, ts)
            case Stop(why) => why == StackAssertion
            case Next(s) => Building(s, ds, zs', open') && s.dictNew == st.dictNew && Room(s) && zs'[0] == zs[0]
    decreases |ts|
  {
    hide Building, Usable, CompileToken, SameOn, Shell, DictionaryOk, Starts;
    zs', open' := zs, open;
    assert Shell(st, ds, zs[0]) by { BuildingShell(st, ds, zs, open); }
    ShellStacks(st, ds, zs[0]);
    if ts != [] {
      zs', open' := OneToken(st, ds, zs, open, ts[0]);
      match CompileToken(st, ts[0])
      case Stop(_) =>
      case Next(s) =>
        var rest := ts[1..];
        assert AllUsable(st.mem, st.dictHead, Starts(ds), rest);
        AllUsableFrame(st.mem, s.mem, st.dictHead, st.dictNew, Starts(ds), rest);
        zs', open' := AllTokens(s, ds, zs', open', rest);
    }
  }

  lemma BuildingShell(st: State, ds: seq<seq<nat>>, zs: seq<nat>, open: seq<nat>)
    requires Building(st, ds, zs, open)
    ensures zs != [] && Shell(st, ds, zs[0])
  {
  }

  // How deep the control stack is after some tokens, from depth d; too deep or
  // below its bottom stops them.
  datatype Nesting = Depth(d: nat) | TooDeep

  const CONTROL_DEPTH := 19

  function NestingOf(ts: seq<Token>, d: nat): Nesting {
    if ts == [] then Depth(d)
    else
      match ts[0]
      case Word(_) => NestingOf(ts[1..], d)
      case Number(_) => NestingOf(ts[1..], d)
      case TokIf => if d >= CONTROL_DEPTH then TooDeep else NestingOf(ts[1..], d + 1)
      case TokBegin => if d >= CONTROL_DEPTH then TooDeep else NestingOf(ts[1..], d + 1)
      case TokElse => if d == 0 then TooDeep else NestingOf(ts[1..], d)
      case TokThen => if d == 0 then TooDeep else NestingOf(ts[1..], d - 1)
      case TokAgain => if d == 0 then TooDeep else NestingOf(ts[1..], d - 1)
  }

  function DepthOf(st: State): int {
    (st.control - CONTROL_BOTTOM) / 2
  }

  lemma OpenDepth(st: State, here: cell, op: byte)
    requires StacksOk(st)
    ensures var o := OpenJump(st, here, op);
            if DepthOf(st) >= CONTROL_DEPTH then o == Stop(StackAssertion)
            else o.Next? && DepthOf(o.st) == DepthOf(st) + 1 && o.st.data == st.data
  {
    hide Fetch16, Store16;
  }

  lemma OneNesting(t: Token, d: nat)
    ensures NestingOf([t], d) ==
            if t.Word? || t.Number? then Depth(d)
            else if t.TokIf? || t.TokBegin? then if d >= CONTROL_DEPTH then TooDeep else Depth(d + 1)
            else if d == 0 then TooDeep else if t.TokElse? then Depth(d) else Depth(d - 1)
  {
    assert [t][1..] == [];
    forall e: nat ensures NestingOf([], e) == Depth(e) { NoTokens(e); }
    assert forall e: nat :: NestingOf([t][1..], e) == Depth(e);
  }

  // What one token does to the depth.
  lemma TokenDepth(st: State, t: Token)
    requires StacksOk(st) && st.data + 2 < DATA_TOP && 0 <= DepthOf(st)
    ensures match NestingOf([t], DepthOf(st))
            case TooDeep => CompileToken(st, t) == Stop(StackAssertion)
            case Depth(d) => CompileToken(st, t).Next? && DepthOf(CompileToken(st, t).st) == d
                             && CompileToken(st, t).st.data == st.data
  {
    hide Fetch16, Store16, CodeStart, FlagsOf, NestingOf, OpenJump;
    OneNesting(t, DepthOf(st));
    if t.TokIf? { OpenDepth(st, Where(st.mem), JMP_FALSE); }
    if t.TokElse? && DepthOf(st) > 0 {
      var s := PopControl(st).st;
      OpenDepth(s.(mem := Store16(s.mem, PopControl(st).v, Wrap(Where(s.mem) + 3))), Where(s.mem), JMP);
    }
  }

  lemma NestingStep(ts: seq<Token>, d: nat)
    requires ts != []
    ensures NestingOf(ts, d)
            == match NestingOf([ts[0]], d) case TooDeep => TooDeep case Depth(e) => NestingOf(ts[1..], e)
  {
    OneNesting(ts[0], d);
  }

  // With a cell free on the data stack the tokens are compiled exactly when
  // their nesting is in order, and the control stack tells the nesting.
  lemma {:induction false} TokensDepth(st: State, ts: seq<Token>)
    requires StacksOk(st) && st.data + 2 < DATA_TOP && 0 <= DepthOf(st)
    ensures match NestingOf(ts, DepthOf(st))
            case TooDeep => CompileTokens(st, ts) == Stop(StackAssertion)
            case Depth(d) => CompileTokens(st, ts).Next? && DepthOf(CompileTokens(st, ts).st) == d
    decreases |ts|
  {
    hide CompileToken, NestingOf;
    if ts == [] {
      assert NestingOf(ts, DepthOf(st)) == Depth(DepthOf(st)) by { NoTokens(DepthOf(st)); }
    } else {
      TokenDepth(st, ts[0]);
      NestingStep(ts, DepthOf(st));
      match CompileToken(st, ts[0])
      case Stop(_) =>
      case Next(s) => TokensDepth(s, ts[1..]);
    }
  }

  lemma NoTokens(d: nat)
    ensures NestingOf([], d) == Depth(d)
  {
  }

  // A whole definition, `:` to `;`.
  function Define(st: State, ts: seq<Token>): (r: Outcome)
    requires StacksOk(st)
    ensures r.Next? ==> StacksOk(r.st)
  {
    match Colon(st)
    case Stop(why) => Stop(why)
    case Next(s) =>
      match CompileTokens(s, ts)
      case Stop(why) => Stop(why)
      case Next(s) => Semicolon(s)
  }

  // There is room for the header, the tokens and `;`.
  predicate Roomy(st: State, ts: seq<Token>) {
    st.data + 4 < DATA_TOP && Where(st.mem) + HEADER_MOST + 3 * |ts| + 4 <= SPACE_TOP
  }

  // What a caller can see before `:`: there is room and the control words nest
  // back to the depth they started from.
  predicate Definable(st: State, ts: seq<Token>) {
    Roomy(st, ts) && NestingOf(ts, 0) == Depth(0)
  }

  // Built from known definitions, byte codes, numbers and IF, ELSE, THEN, a
  // definition joins the program of definitions that always end, and its word is
  // found by the entry made at HERE.
  lemma Defines(st: State, ds: seq<seq<nat>>, ts: seq<Token>) returns (s: State, zs: seq<nat>)
    requires Ready(st, ds) && Definable(st, ts) && NonEmpty(ds) && AllUsable(st.mem, st.dictHead, Starts(ds), ts)
    ensures Define(st, ts) == Next(s) && Ready(s, ds + [zs]) && NonEmpty(ds + [zs])
    ensures s.dictHead == Where(st.mem) && OnChain(s.mem, s.dictHead, s.dictHead) && !IsInstruction(s.mem, s.dictHead)
    ensures CodeStart(s.mem, s.dictHead) in Starts(ds + [zs])
  {
    hide Building, Usable, CompileTokens, SameOn, Colon, Semicolon, CodeStart, Starts, ProgramOk, DictionaryOk, Shell;
    hide Cells, ControlOf;
    assert Colon(st).Next? by { ColonGoes(st, ds); }
    zs := ColonOpens(st, ds);
    var s1 := Colon(st).st;
    var open: seq<nat>;
    BuildingShell(s1, ds, zs, []);
    ShellStacks(s1, ds, zs[0]);
    AllUsableFrame(st.mem, s1.mem, st.dictHead, Where(st.mem), Starts(ds), ts);
    zs, open := AllTokens(s1, ds, zs, [], ts);
    TokensDepth(s1, ts);
    var s2 := CompileTokens(s1, ts).st;
    assert s2.control == CONTROL_BOTTOM by { BuildingShell(s2, ds, zs, open); ShellStacks(s2, ds, zs[0]); }
    SemicolonLinks(s2, ds, zs, open);
    s := Semicolon(s2).st;
    BuildingShell(s2, ds, zs, open);
    LinkedWord(s2, ds, zs[0]);
    StartsMore(ds, zs);
  }

  lemma ColonGoes(st: State, ds: seq<seq<nat>>)
    requires Ready(st, ds) && HeaderRoom(st) && st.data + 4 < DATA_TOP
    ensures Colon(st).Next?
  {
    hide Fetch16, ParseName, NewHeader, ProgramOk, DictionaryOk;
    ParsedSame(st.mem);
  }

  lemma LinkedWord(st: State, ds: seq<seq<nat>>, start: nat)
    requires Shell(st, ds, start) && Room(st)
    ensures Semicolon(st).Next?
    ensures var s := Semicolon(st).st; OnChain(s.mem, s.dictHead, s.dictHead) && !IsInstruction(s.mem, s.dictHead)
  {
    hide Fetch16, Store16, SameOn, ProgramOk, DictionaryOk, Semicolon, CodeStart, FlagsOf, Cells;
    SemicolonMemory(st, ds, start);
  }

  // A definition of any kind at all, INTERPRET for one, is linked whatever is left
  // open in it, and leaves the older ones sound.  The addresses left on the
  // control stack are inside its own code; the system is as between definitions
  // exactly when there are none.
  lemma AnyDefinition(st: State, ds: seq<seq<nat>>, ts: seq<Token>) returns (s: State)
    requires Ready(st, ds) && Roomy(st, ts)
    ensures NestingOf(ts, 0).TooDeep? ==> Define(st, ts) == Stop(StackAssertion)
    ensures NestingOf(ts, 0).Depth? ==>
      && Define(st, ts) == Next(s) && s.dictHead == Where(st.mem)
      && Loose(s, ds, CodeStart(s.mem, s.dictHead)) && |ControlOf(s)| == NestingOf(ts, 0).d
      && (Ready(s, ds) <==> NestingOf(ts, 0) == Depth(0))
      && SameOn(st.mem, s.mem, DICTIONARY_START, Where(st.mem)) && s.data == st.data
      && Where(s.mem) <= Where(st.mem) + HEADER_MOST + 3 * |ts| + 2
      && Fetch16(s.mem, s.dictHead) == st.dictHead && st.dictHead < s.dictHead
  {
    hide Building, CompileTokens, SameOn, Colon, Semicolon, CodeStart, Starts, ProgramOk, DictionaryOk, Shell, Cells;
    hide Fetch16;
    hide ControlInside, Below, NestingOf;
    assert Colon(st).Next? by { ColonGoes(st, ds); }
    var zs := ColonOpens(st, ds);
    var s1 := Colon(st).st;
    BuildingShell(s1, ds, zs, []);
    ShellStacks(s1, ds, zs[0]);
    AnyTokens(s1, ds, zs[0], ts);
    TokensDepth(s1, ts);
    s := s1;
    if NestingOf(ts, 0).Depth? {
      var s2 := CompileTokens(s1, ts).st;
      ShellStacks(s2, ds, zs[0]);
      AnyLinks(s2, ds, zs[0]);
      SemicolonMemory(s2, ds, zs[0]);
      s := Semicolon(s2).st;
      SameBoth(st.mem, s1.mem, s2.mem, DICTIONARY_START, Where(st.mem));
      SameBoth(st.mem, s2.mem, s.mem, DICTIONARY_START, Where(st.mem));
      HeadBelow(st.mem, st.dictHead, Where(st.mem));
    }
  }

  // The simplest one with something left open, `: X IF ;`: X is linked, its code is
  // a jump to 0xDEAD on 0 and the LEAVE after it, and the address of the operand
  // stays on the control stack for a later definition to fill in.
  lemma OpenIf(st: State, ds: seq<seq<nat>>) returns (s: State, a: cell)
    requires Ready(st, ds) && Roomy(st, [TokIf])
    ensures Define(st, [TokIf]) == Next(s) && s.dictHead == Where(st.mem) && CodeStart(s.mem, s.dictHead) == a
    ensures OnChain(s.mem, s.dictHead, s.dictHead) && Loose(s, ds, a) && !Ready(s, ds) && ControlOf(s) == [Wrap(a + 1)]
    ensures s.mem[a] == JMP_FALSE && Fetch16(s.mem, Wrap(a + 1)) == 0xDEAD && s.mem[Wrap(a + 3)] == LEAVE
  {
    hide Building, SameOn, Colon, Semicolon, CodeStart, Starts, ProgramOk, DictionaryOk, Shell, Cells, Fetch16, Store16;
    hide ControlInside, Below, NestingOf, FlagsOf, OnChain;
    assert Colon(st).Next? by { ColonGoes(st, ds); }
    var zs := ColonOpens(st, ds);
    var s1 := Colon(st).st;
    BuildingShell(s1, ds, zs, []);
    ShellStacks(s1, ds, zs[0]);
    BuildingEmpty(s1, ds, zs);
    a := Where(s1.mem);
    assert NestingOf([TokIf], 0) == Depth(1) by { OneNesting(TokIf, 0); }
    s := AnyDefinition(st, ds, [TokIf]);
    var s2 := If(s1).st;
    ShellIf(s1, ds, zs[0]);
    GrownShell(s1, s2, ds, zs[0]);
    assert CompileTokens(s1, [TokIf]) == Next(s2)
      by { assert [TokIf][1..] == []; assert CompileTokens(s2, []) == Next(s2); }
    ShellStacks(s2, ds, zs[0]);
    SemicolonMemory(s2, ds, zs[0]);
    AnyLinks(s2, ds, zs[0]);
    LinkedWord(s2, ds, zs[0]);
    IfLaid(s1.mem, a, s1.control);
    FetchSame(s2.mem, s.mem, a, a + 3, a + 1);
    ByteSame(s2.mem, s.mem, a, a + 3, a);
  }

  lemma BuildingEmpty(s: State, ds: seq<seq<nat>>, zs: seq<nat>)
    requires Building(s, ds, zs, []) && |zs| == 1
    ensures zs[0] == Where(s.mem) && ControlOf(s) == []
  {
  }

  lemma IfLaid(m: Memory, here: cell, c: cell)
    requires DICTIONARY_START <= here && here + 4 <= SPACE_TOP && CONTROL_BOTTOM <= c < CONTROL_TOP - 2
    ensures var m1 := Store16(Store8(m, here, JMP_FALSE), Wrap(here + 1), 0xDEAD);
            var n := Store16(Store16(m1, c, Wrap(here + 1)), LOC_WHERE, Wrap(here + 3));
            n[here] == JMP_FALSE && Fetch16(n, here + 1) == 0xDEAD && Where(n) == here + 3
  {
    hide Fetch16, Store16;
    var m0 := Store8(m, here, JMP_FALSE);
    var m1 := Store16(m0, here + 1, 0xDEAD);
    var m2 := Store16(m1, c, here + 1);
    FetchStored(m0, here + 1, 0xDEAD);
    FetchElsewhere(m1, c, here + 1, here + 1);
    FetchElsewhere(m2, LOC_WHERE, here + 3, here + 1);
    FetchStored(m2, LOC_WHERE, here + 3);
    StoreOutside(m0, here + 1, 0xDEAD, here, here + 1);
    StoreOutside(m1, c, here + 1, here, here + 1);
    StoreOutside(m2, LOC_WHERE, here + 3, here, here + 1);
  }

  // Such code, run with 0 on the data stack, jumps to 0xDEAD; with any other value
  // it leaves.
  lemma OpenIfJumps(st: State, a: cell, ans: Answers)
    requires StacksOk(st) && st.data != DATA_BOTTOM && st.ip == a
    requires st.mem[a] == JMP_FALSE && Fetch16(st.mem, Wrap(a + 1)) == 0xDEAD
    ensures var v := Fetch16(st.mem, st.data - 2);
            Step(st, ans) == Next(st.(data := st.data - 2, ip := if v == 0 then 0xDEAD else Wrap(a + 3)))
  {
    hide Fetch16;
  }

  lemma {:induction false} AnyTokens(st: State, ds: seq<seq<nat>>, start: nat, ts: seq<Token>)
    requires Shell(st, ds, start) && Fits(st, |ts|)
    ensures match CompileTokens(st, ts)
            case Stop(why) => why == StackAssertion
            case Next(s) =>
              && Shell(s, ds, start) && SameDictionary(st, s) && Room(s) && Where(s.mem) <= Where(st.mem) + 3 * |ts|
              && (st.data + 2 < DATA_TOP ==> s.data == st.data)
    decreases |ts|
  {
    hide Shell, CompileToken, SameOn;
    ShellStacks(st, ds, start);
    if ts == [] {
      assert SameOn(st.mem, st.mem, DICTIONARY_START, st.dictNew) by { SameSelf(st.mem); }
    } else {
      AnyToken(st, ds, start, ts[0]);
      match CompileToken(st, ts[0])
      case Stop(_) =>
      case Next(s) =>
        AnyTokens(s, ds, start, ts[1..]);
        if st.data + 2 < DATA_TOP { TokenDepth(st, ts[0]); }
        if CompileTokens(s, ts[1..]).Next? {
          SameBoth(st.mem, s.mem, CompileTokens(s, ts[1..]).st.mem, DICTIONARY_START, st.dictNew);
        }
    }
  }

  lemma SameSelf(m: Memory)
    ensures forall lo, hi :: SameOn(m, m, lo, hi)
  {
  }

  // The definition a colon word starts.
  ghost function DefinitionOf(m: Memory, ds: seq<seq<nat>>, xt: cell): (k: nat)
    requires NonEmpty(ds) && CodeStart(m, xt) in Starts(ds)
    ensures k < |ds| && ds[k][0] == CodeStart(m, xt)
  {
    StartIndex(ds, CodeStart(m, xt));
    IndexOf(Starts(ds), CodeStart(m, xt))
  }

  // Every word of a known definition terminates, provided there is room for what
  // its COMPILE, LITERAL and `:` lay; where it has none of these, always.
  lemma WordTerminates(st: State, ds: seq<seq<nat>>, xt: cell, ans: Answers) returns (n: nat)
    requires Ready(st, ds) && NonEmpty(ds) && CodeStart(st.mem, xt) in Starts(ds) && st.ip == CodeStart(st.mem, xt)
    requires Quiet(st.mem, ds) || Where(st.mem) + Cost(Bytes, st.mem, ds, DefinitionOf(st.mem, ds, xt), 0) <= SPACE_TOP
    ensures n <= Cost(Steps, st.mem, ds, DefinitionOf(st.mem, ds, xt), 0) && Ended(st, ans, n, ReturnOf(st))
  {
    hide Fetch16, ProgramOk, DictionaryOk, CodeStart, Ended, Cost, Cells, Quiet, Starts;
    var k := DefinitionOf(st.mem, ds, xt);
    if Quiet(st.mem, ds) { QuietCost(st.mem, ds, k, 0); }
    n := Terminates(st, ds, k, ans);
  }
}
