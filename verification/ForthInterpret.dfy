// INTERPRET, the word bootstrap compiles and the program runs ever after: what one
// turn of its loop does, from its threaded code.
module ForthInterpret {
  import opened Dataspace
  import opened Numerals
  import opened ForthState
  import opened ForthWords
  import opened ForthSource
  import opened ForthSemantics
  import opened ForthCompile
  import opened ForthRun
  import opened ForthEffect
  import opened ForthMeaning
  import opened ForthDefine
  import opened ForthTheorem
  import opened ForthDoes
  import opened ForthRollback
  import opened ForthBootstrap

  // A word that is not called, with this opcode.
  ghost predicate IsWord(n: Memory, w: Words, xt: cell, op: nat) {
    xt !in w && xt + DE_SIZE_MIN <= SPACE_TOP && CodeField(n, xt) == op
  }

  // The words INTERPRET is spelled with.
  ghost predicate Spelled(n: Memory, w: Words, at: seq<cell>) {
    && |at| == 39
    && IsWord(n, w, at[13], OP_FIND) && IsWord(n, w, at[21], OP_WORDBUFFER) && IsWord(n, w, at[7], OP_C_AT)
    && IsWord(n, w, at[15], OP_EQUAL) && IsWord(n, w, at[17], OP_DROP) && IsWord(n, w, at[8], OP_EMIT)
    && IsWord(n, w, at[10], OP_QUERY) && IsWord(n, w, at[16], OP_DUP) && IsWord(n, w, at[18], OP_BNUMBER)
    && IsWord(n, w, at[2], OP_STATE) && IsWord(n, w, at[6], OP_AT) && IsWord(n, w, at[22], OP_PLITERAL)
    && IsWord(n, w, at[9], OP_PASS) && IsWord(n, w, at[23], OP_ABORT) && IsWord(n, w, at[12], OP_QIMMEDIATE)
    && IsWord(n, w, at[20], OP_EXECUTE) && IsWord(n, w, at[4], OP_COMMA)
  }

  lemma InputOps()
    ensures |CORE| == 39
    ensures CORE[13].op == OP_FIND && CORE[21].op == OP_WORDBUFFER && CORE[7].op == OP_C_AT
    ensures CORE[8].op == OP_EMIT && CORE[10].op == OP_QUERY && CORE[18].op == OP_BNUMBER
  {
  }

  lemma StackOps()
    ensures |CORE| == 39
    ensures CORE[15].op == OP_EQUAL && CORE[17].op == OP_DROP && CORE[16].op == OP_DUP
    ensures CORE[2].op == OP_STATE && CORE[6].op == OP_AT && CORE[9].op == OP_PASS
  {
  }

  lemma CompilerOps()
    ensures |CORE| == 39
    ensures CORE[22].op == OP_PLITERAL && CORE[23].op == OP_ABORT && CORE[12].op == OP_QIMMEDIATE
    ensures CORE[20].op == OP_EXECUTE && CORE[4].op == OP_COMMA
  {
  }

  // They are spelled so in any state that holds the dictionary.
  lemma StillSpelled(m: Memory, b: cell, w: Words, c: Core, at: seq<cell>, e: cell, st: State)
    requires Vocabulary(m, w, c, b) && CoreAt(m, at, e) && e <= b && Intact(m, b, st)
    ensures Spelled(st.mem, w, at)
  {
    hide Fetch16, SameOn, CodeField, Holds, CORE, Callable, Bytes, HasOp, ParameterField, DoesCode;
    InputOps();
    StackOps();
    CompilerOps();
    forall i | 0 <= i < 39 && CORE[i].op !in {OP_ENTER, OP_DOES_ENTER} ensures IsWord(st.mem, w, at[i], CORE[i].op) {
      CoreHeader(m, at[i], CORE[i], e);
      HeaderKept(m, st.mem, SYSTEM_END, b, at[i]);
      assert at[i] in w ==> Placed(m, w, c, at[i], b);
    }
  }

  lemma CoreHeader(m: Memory, xt: cell, w: CoreWord, e: cell)
    requires Holds(m, xt, w, e)
    ensures SYSTEM_END <= xt && xt + DE_SIZE_MIN <= e <= SPACE_TOP && CodeField(m, xt) == w.op
  {
    hide Fetch16, CodeField;
  }

  // One word, on the state and on the stack.

  lemma OtherWord(m: Memory, b: cell, w: Words, xt: cell, op: nat, st: State, fuel: nat)
    requires Live(st) && Intact(m, b, st) && IsWord(st.mem, w, xt, op) && op != OP_EXECUTE && op != OP_EXIT
    ensures MeanWord(m, b, w, xt, st, fuel) == MeanStep(m, b, st, Simple(st, op, xt))
  {
    hide Fetch16, CodeField, Simple, SameOn;
  }

  lemma PrimitiveWord(n: Memory, w: Words, xt: cell, op: nat, s: seq<cell>, depth: nat, fuel: nat)
    requires IsWord(n, w, xt, op) && IsPrimitive(op)
    ensures BodyEffect(n, w, Plain(xt), s, depth, fuel) == PrimitiveEffect(n, op, xt, s)
  {
    hide CodeField, PrimitiveEffect;
  }

  // The first word of a line.
  lemma LineStep(n: Memory, w: Words, ps: seq<Body>, qs: seq<Body>, s: seq<cell>, s': seq<cell>, depth: nat, fuel: nat)
    requires |ps| > 0 && qs == ps[1..] && BodyEffect(n, w, ps[0], s, depth, fuel) == Gives(s')
    ensures BodyEffect(n, w, Line(ps), s, depth, fuel) == BodyEffect(n, w, Line(qs), s', depth, fuel)
  {
    hide WordEffect;
  }

  lemma LineEnd(n: Memory, w: Words, s: seq<cell>, depth: nat, fuel: nat)
    ensures BodyEffect(n, w, Line([]), s, depth, fuel) == Gives(s)
  {
  }

  // WORDBUFFER C@ 0 =
  lemma AskEffect(n: Memory, w: Words, at: seq<cell>, s: seq<cell>, depth: nat, fuel: nat)
    requires Spelled(n, w, at) && |s| + 2 <= DATA_DEPTH
    ensures BodyEffect(n, w, Line([Plain(at[21]), Plain(at[7]), Number(0), Plain(at[15])]), s, depth, fuel)
            == Gives(s + [if n[LOC_WORD_BUFFER] == 0 then 1 else 0])
  {
    hide CodeField, WordEffect, Line;
    var p1, p2, p3, p4 := Plain(at[21]), Plain(at[7]), Number(0), Plain(at[15]);
    var v, r := SignExtend(n[LOC_WORD_BUFFER]), if n[LOC_WORD_BUFFER] == 0 then 1 else 0;
    var s1, s2, s3, s4 := s + [LOC_WORD_BUFFER], s + [v], s + [v] + [0], s + [r];
    PrimitiveWord(n, w, at[21], OP_WORDBUFFER, s, depth, fuel);
    LineStep(n, w, [p1, p2, p3, p4], [p2, p3, p4], s, s1, depth, fuel);
    assert Front(s1) == s && Last(s1) == LOC_WORD_BUFFER;
    PrimitiveWord(n, w, at[7], OP_C_AT, s1, depth, fuel);
    LineStep(n, w, [p2, p3, p4], [p3, p4], s1, s2, depth, fuel);
    LineStep(n, w, [p3, p4], [p4], s2, s3, depth, fuel);
    EqualGives(n, w, at[15], s, v, 0, depth, fuel);
    LineStep(n, w, [p4], [], s3, s4, depth, fuel);
    LineEnd(n, w, s4, depth, fuel);
  }

  // With fewer than two free cells it aborts.
  lemma AskAborts(n: Memory, w: Words, at: seq<cell>, s: seq<cell>, depth: nat, fuel: nat)
    requires Spelled(n, w, at) && |s| + 2 > DATA_DEPTH
    ensures BodyEffect(n, w, Line([Plain(at[21]), Plain(at[7]), Number(0), Plain(at[15])]), s, depth, fuel) == Aborts
  {
    hide CodeField, WordEffect, Line;
    var p1, p2, p3, p4 := Plain(at[21]), Plain(at[7]), Number(0), Plain(at[15]);
    var s1, s2 := s + [LOC_WORD_BUFFER], s + [SignExtend(n[LOC_WORD_BUFFER])];
    PrimitiveWord(n, w, at[21], OP_WORDBUFFER, s, depth, fuel);
    LineFirst(p1, [p2, p3, p4], [p1, p2, p3, p4]);
    if |s| < DATA_DEPTH {
      LineStep(n, w, [p1, p2, p3, p4], [p2, p3, p4], s, s1, depth, fuel);
      assert Front(s1) == s && Last(s1) == LOC_WORD_BUFFER;
      PrimitiveWord(n, w, at[7], OP_C_AT, s1, depth, fuel);
      LineStep(n, w, [p2, p3, p4], [p3, p4], s1, s2, depth, fuel);
      LineFirst(p3, [p4], [p3, p4]);
    }
  }

  lemma EqualGives(n: Memory, w: Words, xt: cell, s: seq<cell>, x: cell, y: cell, depth: nat, fuel: nat)
    requires IsWord(n, w, xt, OP_EQUAL)
    ensures BodyEffect(n, w, Plain(xt), s + [x] + [y], depth, fuel) == Gives(s + [if x == y then 1 else 0])
  {
    hide CodeField;
    PrimitiveWord(n, w, xt, OP_EQUAL, s + [x] + [y], depth, fuel);
    assert Front(s + [x] + [y]) == s + [x] && Front(s + [x]) == s;
  }

  // DUP 0 =
  lemma TestEffect(n: Memory, w: Words, at: seq<cell>, s: seq<cell>, x: cell, depth: nat, fuel: nat)
    requires Spelled(n, w, at) && |s| + 3 <= DATA_DEPTH
    ensures BodyEffect(n, w, Line([Plain(at[16]), Number(0), Plain(at[15])]), s + [x], depth, fuel)
            == Gives(s + [x] + [if x == 0 then 1 else 0])
  {
    hide CodeField, WordEffect, Line;
    var p1, p2, p3 := Plain(at[16]), Number(0), Plain(at[15]);
    var s1, s2, s3 := s + [x] + [x], s + [x] + [x] + [0], s + [x] + [if x == 0 then 1 else 0];
    PrimitiveWord(n, w, at[16], OP_DUP, s + [x], depth, fuel);
    LineStep(n, w, [p1, p2, p3], [p2, p3], s + [x], s1, depth, fuel);
    LineStep(n, w, [p2, p3], [p3], s1, s2, depth, fuel);
    EqualGives(n, w, at[15], s + [x], x, 0, depth, fuel);
    LineStep(n, w, [p3], [], s2, s3, depth, fuel);
    LineEnd(n, w, s3, depth, fuel);
  }

  // STATE @
  lemma ModeEffect(n: Memory, w: Words, at: seq<cell>, s: seq<cell>, depth: nat, fuel: nat)
    requires Spelled(n, w, at) && |s| + 2 <= DATA_DEPTH
    ensures BodyEffect(n, w, Line([Plain(at[2]), Plain(at[6])]), s, depth, fuel) == Gives(s + [Fetch16(n, LOC_STATE)])
  {
    hide CodeField, WordEffect, Line;
    var p1, p2 := Plain(at[2]), Plain(at[6]);
    var s1, s2 := s + [LOC_STATE], s + [Fetch16(n, LOC_STATE)];
    PrimitiveWord(n, w, at[2], OP_STATE, s, depth, fuel);
    LineStep(n, w, [p1, p2], [p2], s, s1, depth, fuel);
    assert Front(s1) == s && Last(s1) == LOC_STATE;
    PrimitiveWord(n, w, at[6], OP_AT, s1, depth, fuel);
    LineStep(n, w, [p2], [], s1, s2, depth, fuel);
    LineEnd(n, w, s2, depth, fuel);
  }

  // DUP ?IMMEDIATE
  lemma NowEffect(n: Memory, w: Words, at: seq<cell>, s: seq<cell>, x: cell, depth: nat, fuel: nat)
    requires Spelled(n, w, at) && |s| + 2 <= DATA_DEPTH && x + DE_SIZE_MIN <= SPACE_TOP
    ensures BodyEffect(n, w, Line([Plain(at[16]), Plain(at[12])]), s + [x], depth, fuel)
            == Gives(s + [x] + [if IsImmediate(n, x) then 1 else 0])
  {
    hide CodeField, WordEffect, Line, IsImmediate;
    var p1, p2 := Plain(at[16]), Plain(at[12]);
    var s1, s2 := s + [x] + [x], s + [x] + [if IsImmediate(n, x) then 1 else 0];
    PrimitiveWord(n, w, at[16], OP_DUP, s + [x], depth, fuel);
    LineStep(n, w, [p1, p2], [p2], s + [x], s1, depth, fuel);
    assert Front(s1) == s + [x] && Last(s1) == x;
    PrimitiveWord(n, w, at[12], OP_QIMMEDIATE, s1, depth, fuel);
    LineStep(n, w, [p2], [], s1, s2, depth, fuel);
    LineEnd(n, w, s2, depth, fuel);
  }

  // DROP WORDBUFFER
  lemma AgainEffect(n: Memory, w: Words, at: seq<cell>, s: seq<cell>, x: cell, depth: nat, fuel: nat)
    requires Spelled(n, w, at) && |s| + 2 <= DATA_DEPTH
    ensures BodyEffect(n, w, Plain(at[17]), s + [x], depth, fuel) == Gives(s)
    ensures BodyEffect(n, w, Plain(at[21]), s, depth, fuel) == Gives(s + [LOC_WORD_BUFFER])
  {
    hide CodeField, WordEffect;
    PrimitiveWord(n, w, at[17], OP_DROP, s + [x], depth, fuel);
    assert Front(s + [x]) == s;
    PrimitiveWord(n, w, at[21], OP_WORDBUFFER, s, depth, fuel);
  }

  // INTERPRET in the middle of a turn, k bytes of it still to come, with these
  // values on the stack, and below the stacks the memory n; otherwise as u.
  ghost predicate Amid(u: State, t: State, n: Memory, m: Memory, b: cell, s: seq<cell>, k: nat)
    requires StacksOk(u)
  {
    && Live(t) && Clear(t, k) && Over(m, n, b) && Running(t, n) && Intact(m, b, t)
    && SameFrame(u, t) && DataOf(t) == s
  }

  lemma AmidLess(u: State, t: State, n: Memory, m: Memory, b: cell, s: seq<cell>, k: nat, k': nat)
    requires StacksOk(u) && Amid(u, t, n, m, b, s, k) && k' <= k
    ensures Amid(u, t, n, m, b, s, k')
  {
    hide SameOn, Cells, Fetch16;
  }

  // What a part of the turn that has an effect on the stack only leaves.
  lemma Advance(u: State, t: State, n: Memory, m: Memory, b: cell, w: Words, p: Body, s: seq<cell>, s': seq<cell>,
      k: nat, fuel: nat)
    returns (t': State)
    requires StacksOk(u) && Amid(u, t, n, m, b, s, Size(p) + k)
    requires BodyEffect(n, w, p, s, |ReturnOf(t)|, fuel) == Gives(s')
    ensures Mean(m, b, w, p, t, fuel) == Normal(t') && Amid(u, t', n, m, b, s', k)
  {
    hide SameOn, Cells, BodyEffect, Fetch16, WordEffect, Mean, Wrap, Clear, Size;
    WrapSum(t.ip, 0, 0);
    ClearPart(t, Size(p) + k, t, 0, Size(p));
    BodyAgrees(t, m, n, b, w, p, fuel);
    t' := Mean(m, b, w, p, t, fuel).st;
    ClearPart(t, Size(p) + k, t', Size(p), k);
  }

  // A branch in the turn.
  lemma Branch(u: State, t: State, n: Memory, m: Memory, b: cell, w: Words, p: Body, q: Body, s: seq<cell>, flag: cell,
      fuel: nat)
    returns (t': State)
    requires StacksOk(u) && Amid(u, t, n, m, b, s + [flag], Size(IfElse(p, q)))
    ensures Amid(u, t', n, m, b, s, if flag == 0 then Size(q) else Size(p))
    ensures Mean(m, b, w, IfElse(p, q), t, fuel)
            == Landed(Mean(m, b, w, if flag == 0 then q else p, t', fuel), Wrap(t.ip + Size(IfElse(p, q))))
  {
    hide SameOn, Cells, Fetch16, Mean, Wrap, Clear;
    StackDepth(t);
    PopEffect(t, n);
    assert Front(s + [flag]) == s && Last(s + [flag]) == flag;
    var offset, size := if flag == 0 then 8 + Size(p) else 4, if flag == 0 then Size(q) else Size(p);
    t' := Tested(t, t.ip + offset);
    ClearPart(t, Size(IfElse(p, q)), t', offset, size);
    WrapSum(t.ip, 8 + Size(p), Size(q));
    assert Mean(m, b, w, IfElse(p, q), t, fuel) == MeanFork(m, b, w, p, q, t, fuel) by {
      ForkIs(m, b, w, p, q, t, fuel);
    }
    var z := Wrap(t.ip + Size(IfElse(p, q)));
    WrapSum(z, 0, 0);
    if flag == 0 {
      LandedThere(m, b, t', Mean(m, b, w, q, t', fuel), z);
    }
  }

  // The same result, with the end of the code at z.
  ghost function Landed(r: Result, z: cell): Result {
    if r.Normal? then Normal(GoTo(r.st, z)) else r
  }

  lemma ForkIs(m: Memory, b: cell, w: Words, p: Body, q: Body, t: State, fuel: nat)
    requires Live(t) && Intact(m, b, t)
    ensures Mean(m, b, w, IfElse(p, q), t, fuel) == MeanFork(m, b, w, p, q, t, fuel)
  {
    hide MeanFork, SameOn;
  }

  lemma LandedThere(m: Memory, b: cell, t: State, r: Result, z: cell)
    requires Proper(m, b, t, r, z)
    ensures Landed(r, z) == r
  {
    hide SameOn;
    WrapSum(z, 0, 0);
  }

  // Where FIND looks, and what it finds.

  // The state after FIND has read its token.
  function Reading(st: State): (r: State)
    requires StacksOk(st) && !Full(st.data)
  {
    st.(mem := Named(st))
  }

  predicate Readable(st: State)
    requires StacksOk(st) && !Full(st.data)
  {
    ReadToken(Store16(st.mem, st.data.where, 32), 32).1
  }

  // The entry FIND pushes: 0 when there is none.
  function Answer(l: Lookup): cell {
    if l.Found? then l.entry else 0
  }

  function Sought(st: State): Lookup {
    if st.mem[LOC_WORD_BUFFER] == 0 then Absent else FindName(st.mem, st.dictHead, LOC_WORD_BUFFER)
  }

  lemma ReadingFrame(st: State)
    requires StacksOk(st) && !Full(st.data)
    ensures SameOn(st.mem, Named(st), SYSTEM_END, st.data.where) && SameOn(st.mem, Named(st), DATA_TOP, SIZE)
  {
    hide ReadToken;
    ReadTokenFrame(Store16(st.mem, st.data.where, 32), 32);
  }

  lemma ReadingSame(st: State, m: Memory, b: cell)
    requires Live(st) && !Full(st.data) && Intact(m, b, st)
    ensures var v := Reading(st);
            Live(v) && Intact(m, b, v) && SameFrame(st, v) && DataOf(v) == DataOf(st) && Running(v, v.mem)
              && Over(m, v.mem, b)
  {
    hide Fetch16, Cells, Named;
    ReadingFrame(st);
    CellsFrame(st.mem, Named(st), DATA_BOTTOM, st.data.where);
    CellsFrame(st.mem, Named(st), CONTROL_BOTTOM, st.control.where);
    CellsFrame(st.mem, Named(st), RETURN_BOTTOM, st.ret.where);
  }

  lemma FindReads(st: State)
    requires StacksOk(st) && !Full(st.data) && Readable(st) && !Sought(Reading(st)).Cyclic?
    ensures Find(st) == Continue(PushData(Reading(st), Answer(Sought(Reading(st)))))
  {
    hide ReadToken, Fetch16, Store16, FindName;
    FetchStored(st.mem, st.data.where, 32);
  }

  // A turn begins, over the core words below e and the vocabulary below b, and the
  // input can be read.  The program starts INTERPRET at its first instruction with
  // an empty return stack, and that is where ABORT goes.
  ghost predicate Beginning(st: State, m: Memory, b: cell, w: Words, c: Core, at: seq<cell>, e: cell) {
    && Live(st) && Intact(m, b, st) && Vocabulary(m, w, c, b) && CoreAt(m, at, e) && e <= b
    && |at| == 39 && (!Empty(st.ret) || st.recover == st.ip)
    && !Full(st.data) && Readable(st) && !Sought(Reading(st)).Cyclic?
  }

  // And it has the three free cells it takes.
  ghost predicate Turning(st: State, m: Memory, b: cell, w: Words, c: Core, at: seq<cell>, e: cell) {
    Beginning(st, m, b, w, c, at, e) && |DataOf(st)| + 3 <= DATA_DEPTH
  }

  // What follows the first IF.
  function Rest(at: seq<cell>): Body
    requires |at| == 39
  {
    Both(Line([Plain(at[16]), Number(0), Plain(at[15])]), IfElse(OnNumber(at), OnWord(at)))
  }

  function Refill(at: seq<cell>): Body
    requires |at| == 39
  {
    Line([Plain(at[17]), Number(79), Plain(at[8]), Number(75), Plain(at[8]), Plain(at[10])])
  }

  function Fork(at: seq<cell>): Body
    requires |at| == 39
  {
    IfElse(Refill(at), Rest(at))
  }

  lemma {:induction false} LineSize(ps: seq<Body>)
    requires forall i :: 0 <= i < |ps| ==> IsLeaf(ps[i])
    ensures Size(Line(ps)) <= 4 * |ps|
    decreases |ps|
  {
    if ps != [] {
      LineSize(ps[1..]);
    }
  }

  lemma ForkSize(at: seq<cell>)
    requires |at| == 39
    ensures Size(Fork(at)) <= 200
  {
    hide Line, Size;
    LineSize([Plain(at[17]), Number(79), Plain(at[8]), Number(75), Plain(at[8]), Plain(at[10])]);
    LineSize([Plain(at[16]), Number(0), Plain(at[15])]);
    LineSize([Plain(at[17]), Plain(at[21]), Plain(at[18])]);
    LineSize([Plain(at[2]), Plain(at[6])]);
    LineSize([Plain(at[22])]);
    LineSize([Plain(at[9])]);
    LineSize([Plain(at[17]), Number(63), Plain(at[8]), Plain(at[23])]);
    LineSize([Plain(at[16]), Plain(at[12])]);
    LineSize([Plain(at[20])]);
    LineSize([Plain(at[4])]);
    var mode, test := Line([Plain(at[2]), Plain(at[6])]), Line([Plain(at[16]), Number(0), Plain(at[15])]);
    var number, now := Line([Plain(at[17]), Plain(at[21]), Plain(at[18])]), Line([Plain(at[16]), Plain(at[12])]);
    var one, other := Line([Plain(at[20])]), Line([Plain(at[4])]);
    var value := Both(mode, IfElse(Line([Plain(at[22])]), Line([Plain(at[9])])));
    var unknown := Line([Plain(at[17]), Number(63), Plain(at[8]), Plain(at[23])]);
    BranchSize(mode, Line([Plain(at[22])]), Line([Plain(at[9])]));
    BranchSize(number, value, unknown);
    BranchSize(now, one, other);
    BranchSize(mode, Both(now, IfElse(one, other)), one);
    BranchSize(test, OnNumber(at), OnWord(at));
    BranchSize(Nothing, Refill(at), Rest(at));
    assert OnNumber(at) == Both(number, IfElse(value, unknown));
    assert OnWord(at) == Both(mode, IfElse(Both(now, IfElse(one, other)), one));
  }

  lemma {:induction false} BranchSize(p: Body, q: Body, r: Body)
    ensures Size(Both(p, IfElse(q, r))) == Size(p) + Size(IfElse(q, r))
    ensures Size(IfElse(q, r)) == 8 + Size(q) + Size(r) && Size(Nothing) == 0
  {
  }

  // FIND
  lemma TurnFinds(st: State, m: Memory, b: cell, w: Words, c: Core, at: seq<cell>, e: cell, k: nat, fuel: nat)
    returns (t: State)
    requires Beginning(st, m, b, w, c, at, e) && k < 0x8000
    ensures var v := Reading(st);
            && StacksOk(v) && Spelled(v.mem, w, at) && |at| == 39
            && Amid(v, t, v.mem, m, b, DataOf(st) + [Answer(Sought(v))], k)
            && Mean(m, b, w, Plain(at[13]), st, fuel) == Normal(t)
  {
    hide Fetch16, Cells, SameOn, Named, ReadToken, FindName, Vocabulary, CoreAt, MeanWord, MeanFork, MeanLoop, Store16;
    hide IsWord;
    var v := Reading(st);
    var x := Answer(Sought(v));
    ReadingSame(st, m, b);
    StillSpelled(m, b, w, c, at, e, st);
    StillSpelled(m, b, w, c, at, e, v);
    FindReads(st);
    PushEffect(v, v.mem, x);
    PushIntact(m, b, v, x);
    t := FindStep(st, v, m, b, w, at[13], x, fuel);
  }

  // FIND WORDBUFFER C@ 0 =
  lemma TurnAsks(st: State, m: Memory, b: cell, w: Words, c: Core, at: seq<cell>, e: cell, fuel: nat) returns (t: State)
    requires Turning(st, m, b, w, c, at, e)
    ensures var v := Reading(st);
            && StacksOk(v) && Spelled(v.mem, w, at)
            && Amid(v, t, v.mem, m, b,
               DataOf(st) + [Answer(Sought(v))] + [if v.mem[LOC_WORD_BUFFER] == 0 then 1 else 0], Size(Fork(at)))
            && |at| == 39
            && Mean(m, b, w, Line([Plain(at[13]), Plain(at[21]), Plain(at[7]), Number(0), Plain(at[15])]), st, fuel)
               == Normal(t)
  {
    hide Fetch16, Cells, SameOn, Named, ReadToken, Sought, Vocabulary, CoreAt, MeanWord, MeanFork, MeanLoop, IsWord;
    hide Line, BodyEffect;
    var v := Reading(st);
    var s := DataOf(st) + [Answer(Sought(v))];
    var qs := [Plain(at[21]), Plain(at[7]), Number(0), Plain(at[15])];
    LineSize(qs);
    ForkSize(at);
    var t1 := TurnFinds(st, m, b, w, c, at, e, Size(Line(qs)) + Size(Fork(at)), fuel);
    AskEffect(v.mem, w, at, s, |ReturnOf(t1)|, fuel);
    t := Advance(v, t1, v.mem, m, b, w, Line(qs), s, s + [if v.mem[LOC_WORD_BUFFER] == 0 then 1 else 0],
                 Size(Fork(at)), fuel);
    LineFirst(Plain(at[13]), qs, [Plain(at[13])] + qs);
    assert [Plain(at[13])] + qs == [Plain(at[13]), Plain(at[21]), Plain(at[7]), Number(0), Plain(at[15])];
  }

  // With fewer than three free cells every turn aborts, whatever the token.
  lemma TurnFull(st: State, m: Memory, b: cell, w: Words, c: Core, at: seq<cell>, e: cell, fuel: nat)
    requires Beginning(st, m, b, w, c, at, e) && |DataOf(st)| + 3 > DATA_DEPTH
    ensures |at| == 39
    ensures var r := Mean(m, b, w, Turn(at), st, fuel);
            r.Recovered? && Scrubbed(st.dictHead, st.recover, r.st, Reading(st).mem)
  {
    hide Fetch16, Cells, SameOn, Named, ReadToken, Sought, Vocabulary, CoreAt, MeanWord, MeanFork, MeanLoop, IsWord;
    hide Line, BodyEffect;
    hide Refill, Rest, Scrubbed;
    var v := Reading(st);
    var s := DataOf(st) + [Answer(Sought(v))];
    var qs := [Plain(at[21]), Plain(at[7]), Number(0), Plain(at[15])];
    LineSize(qs);
    var t1 := TurnFinds(st, m, b, w, c, at, e, Size(Line(qs)), fuel);
    AskAborts(v.mem, w, at, s, |ReturnOf(t1)|, fuel);
    BodyAgrees(t1, m, v.mem, b, w, Line(qs), fuel);
    LineFirst(Plain(at[13]), qs, [Plain(at[13])] + qs);
    assert [Plain(at[13])] + qs == [Plain(at[13]), Plain(at[21]), Plain(at[7]), Number(0), Plain(at[15])];
    TurnIs(at);
  }

  lemma LineFirst(p: Body, ps: seq<Body>, qs: seq<Body>)
    requires qs == [p] + ps
    ensures Line(qs) == Both(p, Line(ps))
  {
    assert qs[1..] == ps;
  }

  lemma FindStep(st: State, v: State, m: Memory, b: cell, w: Words, xt: cell, x: cell, fuel: nat) returns (t: State)
    requires Live(st) && !Full(st.data) && Intact(m, b, st) && IsWord(st.mem, w, xt, OP_FIND)
    requires v == Reading(st) && Live(v) && Find(st) == Continue(PushData(v, x)) && Intact(m, b, PushData(v, x))
    ensures t == PushData(v, x).(ip := Wrap(st.ip + 2)) && Mean(m, b, w, Plain(xt), st, fuel) == Normal(t)
  {
    hide Fetch16, SameOn, Find, Named, MeanStep, CodeField;
    OtherWord(m, b, w, xt, OP_FIND, st, fuel);
    t := PushData(v, x).(ip := Wrap(st.ip + 2));
    assert Simple(st, OP_FIND, xt) == Find(st);
    assert MeanStep(m, b, st, Find(st)) == Normal(t) by { StepIs(m, b, st, PushData(v, x)); }
  }

  lemma StepIs(m: Memory, b: cell, st: State, s: State)
    requires Live(st) && Live(s) && Intact(m, b, st) && Intact(m, b, s)
    requires s.ip == st.ip && s.ret == st.ret && s.recover == st.recover
    ensures MeanStep(m, b, st, Continue(s)) == Normal(s.(ip := Wrap(st.ip + 2)))
  {
    hide SameOn;
  }

  lemma TurnIs(at: seq<cell>)
    requires |at| == 39
    ensures Turn(at) == Both(Line([Plain(at[13]), Plain(at[21]), Plain(at[7]), Number(0), Plain(at[15])]),
                             IfElse(Refill(at), Rest(at)))
  {
    hide Line, OnNumber, OnWord;
  }

  // Parts whose meaning is normal lead to what follows.
  lemma BothIs(m: Memory, b: cell, w: Words, p: Body, q: Body, st: State, t: State, fuel: nat)
    requires Live(st) && Intact(m, b, st) && Mean(m, b, w, p, st, fuel) == Normal(t)
    ensures Live(t) && Intact(m, b, t) && Mean(m, b, w, Both(p, q), st, fuel) == Mean(m, b, w, q, t, fuel)
  {
    hide MeanWord, MeanFork, MeanLoop, SameOn;
  }

  // A line of one word.
  lemma OneIs(m: Memory, b: cell, w: Words, p: Body, st: State, fuel: nat)
    requires Live(st) && Intact(m, b, st)
    ensures Mean(m, b, w, Line([p]), st, fuel) == Mean(m, b, w, p, st, fuel)
  {
    hide MeanWord, MeanFork, MeanLoop, SameOn;
    LineFirst(p, [], [p]);
    assert Line([]) == Nothing;
  }

  lemma LandedTwice(r: Result, y: cell, z: cell)
    ensures Landed(Landed(r, y), z) == Landed(r, z)
  {
  }

  // The turn up to its first branch.
  lemma TurnBranches(st: State, m: Memory, b: cell, w: Words, c: Core, at: seq<cell>, e: cell, fuel: nat)
    returns (t: State, z: cell)
    requires Turning(st, m, b, w, c, at, e)
    ensures var v := Reading(st);
            && StacksOk(v) && Spelled(v.mem, w, at) && |at| == 39
            && Amid(v, t, v.mem, m, b, DataOf(st) + [Answer(Sought(v))],
                    Size(if v.mem[LOC_WORD_BUFFER] == 0 then Refill(at) else Rest(at)))
            && Mean(m, b, w, Turn(at), st, fuel)
               == Landed(Mean(m, b, w, if v.mem[LOC_WORD_BUFFER] == 0 then Refill(at) else Rest(at), t, fuel), z)
  {
    hide Fetch16, Cells, SameOn, Named, ReadToken, Sought, Vocabulary, CoreAt, Mean, Turn, Refill, Rest, IsWord, Line;
    hide Wrap;
    var v := Reading(st);
    var a := TurnAsks(st, m, b, w, c, at, e, fuel);
    TurnIs(at);
    var ask := Line([Plain(at[13]), Plain(at[21]), Plain(at[7]), Number(0), Plain(at[15])]);
    BothIs(m, b, w, ask, IfElse(Refill(at), Rest(at)), st, a, fuel);
    z := Wrap(a.ip + Size(Fork(at)));
    t := Branch(v, a, v.mem, m, b, w, Refill(at), Rest(at), DataOf(st) + [Answer(Sought(v))],
                if v.mem[LOC_WORD_BUFFER] == 0 then 1 else 0, fuel);
  }

  // DUP 0 = IF, and where it leads.
  lemma RestBranches(v: State, t: State, n: Memory, m: Memory, b: cell, w: Words, at: seq<cell>, s: seq<cell>, x: cell,
      fuel: nat)
    returns (t': State, z: cell)
    requires StacksOk(v) && Spelled(n, w, at) && |s| + 3 <= DATA_DEPTH && Amid(v, t, n, m, b, s + [x], Size(Rest(at)))
    ensures Amid(v, t', n, m, b, s + [x], Size(if x == 0 then OnNumber(at) else OnWord(at)))
    ensures Mean(m, b, w, Rest(at), t, fuel)
            == Landed(Mean(m, b, w, if x == 0 then OnNumber(at) else OnWord(at), t', fuel), z)
  {
    hide Fetch16, Cells, SameOn, Mean, OnNumber, OnWord, IsWord, Line, Wrap, BodyEffect;
    TestEffect(n, w, at, s, x, |ReturnOf(t)|, fuel);
    var p := Line([Plain(at[16]), Number(0), Plain(at[15])]);
    var a := Advance(v, t, n, m, b, w, p, s + [x], s + [x] + [if x == 0 then 1 else 0],
                     Size(IfElse(OnNumber(at), OnWord(at))), fuel);
    BothIs(m, b, w, p, IfElse(OnNumber(at), OnWord(at)), t, a, fuel);
    z := Wrap(a.ip + Size(IfElse(OnNumber(at), OnWord(at))));
    t' := Branch(v, a, n, m, b, w, OnNumber(at), OnWord(at), s + [x], if x == 0 then 1 else 0, fuel);
  }

  // The word that deals with the entry found: `,` for one that is not immediate
  // while STATE is not 0, EXECUTE for any other.
  ghost function Handler(n: Memory, at: seq<cell>, x: cell): cell
    requires |at| == 39
  {
    if Fetch16(n, LOC_STATE) != 0 && !IsImmediate(n, x) then at[4] else at[20]
  }

  lemma WordBranches(v: State, t: State, n: Memory, m: Memory, b: cell, w: Words, at: seq<cell>, s: seq<cell>, x: cell,
      fuel: nat)
    returns (t': State, z: cell)
    requires StacksOk(v) && Spelled(n, w, at) && |s| + 3 <= DATA_DEPTH && Amid(v, t, n, m, b, s + [x], Size(OnWord(at)))
             && x + DE_SIZE_MIN <= SPACE_TOP
    ensures Amid(v, t', n, m, b, s + [x], 0)
    ensures Mean(m, b, w, OnWord(at), t, fuel) == Landed(Mean(m, b, w, Plain(Handler(n, at, x)), t', fuel), z)
  {
    hide Fetch16, Cells, SameOn, Mean, IsWord, Line, Wrap, BodyEffect, IsImmediate;
    var mode := Fetch16(n, LOC_STATE);
    var p, now := Line([Plain(at[2]), Plain(at[6])]), Line([Plain(at[16]), Plain(at[12])]);
    var one, other := Line([Plain(at[20])]), Line([Plain(at[4])]);
    var yes := Both(now, IfElse(one, other));
    assert OnWord(at) == Both(p, IfElse(yes, one));
    ModeEffect(n, w, at, s + [x], |ReturnOf(t)|, fuel);
    var a := Advance(v, t, n, m, b, w, p, s + [x], s + [x] + [mode], Size(IfElse(yes, one)), fuel);
    BothIs(m, b, w, p, IfElse(yes, one), t, a, fuel);
    z := Wrap(a.ip + Size(IfElse(yes, one)));
    t' := Branch(v, a, n, m, b, w, yes, one, s + [x], mode, fuel);
    if mode != 0 {
      NowEffect(n, w, at, s, x, |ReturnOf(t')|, fuel);
      var d := Advance(v, t', n, m, b, w, now, s + [x], s + [x] + [if IsImmediate(n, x) then 1 else 0],
                       Size(IfElse(one, other)), fuel);
      BothIs(m, b, w, now, IfElse(one, other), t', d, fuel);
      var y := Wrap(d.ip + Size(IfElse(one, other)));
      t' := Branch(v, d, n, m, b, w, one, other, s + [x], if IsImmediate(n, x) then 1 else 0, fuel);
      LandedTwice(Mean(m, b, w, if IsImmediate(n, x) then one else other, t', fuel), y, z);
    }
    AmidLess(v, t', n, m, b, s + [x], Size(if mode != 0 && !IsImmediate(n, x) then other else one), 0);
    OneIs(m, b, w, Plain(Handler(n, at, x)), t', fuel);
  }

  // (NUMBER) reads the word buffer.

  lemma NumberSame(m: Memory, n: Memory)
    requires SameOn(m, n, 0, SPACE_TOP)
    ensures ReadNumber(m, LOC_WORD_BUFFER) == ReadNumber(n, LOC_WORD_BUFFER)
  {
    hide SameOn, Fetch16, ReadText;
    ByteSame(m, n, 0, SPACE_TOP, LOC_WORD_BUFFER);
    FetchSame(m, n, 0, SPACE_TOP, LOC_BASE);
    TextSame(m, n, SPACE_TOP, LOC_WORD_BUFFER + 1, m[LOC_WORD_BUFFER], Fetch16(m, LOC_BASE));
  }

  // What (NUMBER) leaves: the number and 1, or the address and 0.
  function Shown(r: Conversion): cell {
    if r.Converted? then r.value else LOC_WORD_BUFFER
  }

  function Success(r: Conversion): cell {
    if r.Converted? then 1 else 0
  }

  lemma NumberStep(v: State, t: State, n: Memory, m: Memory, b: cell, w: Words, at: seq<cell>, s: seq<cell>,
      left: nat, fuel: nat)
    returns (t': State)
    requires StacksOk(v) && Spelled(n, w, at) && |s| + 3 <= DATA_DEPTH
             && Amid(v, t, n, m, b, s + [LOC_WORD_BUFFER], 2 + left)
    ensures var r := ReadNumber(n, LOC_WORD_BUFFER); Amid(v, t', n, m, b, s + [Shown(r)] + [Success(r)], left)
    ensures Mean(m, b, w, Plain(at[18]), t, fuel) == Normal(t')
  {
    hide Fetch16, Store16, Cells, SameOn, MeanStep, CodeField, ReadNumber, Wrap;
    var r := ReadNumber(n, LOC_WORD_BUFFER);
    NumberSame(n, t.mem);
    StackDepth(t);
    PopEffect(t, n);
    assert Front(s + [LOC_WORD_BUFFER]) == s;
    var t1 := DropData(t);
    PushEffect(t1, n, Shown(r));
    var t2 := PushData(t1, Shown(r));
    StackDepth(t2);
    PushEffect(t2, n, Success(r));
    var t3 := PushData(t2, Success(r));
    RunningIntact(t3, m, n, b);
    HeaderSame(n, t.mem, at[18]);
    OtherWord(m, b, w, at[18], OP_BNUMBER, t, fuel);
    assert Simple(t, OP_BNUMBER, at[18]) == PNumber(t) == Continue(t3);
    StepIs(m, b, t, t3);
    t' := t3.(ip := Wrap(t.ip + 2));
    ClearPart(t, 2 + left, t', 2, left);
  }

  // DROP WORDBUFFER (NUMBER) IF
  lemma NumberBranches(v: State, t: State, n: Memory, m: Memory, b: cell, w: Words, at: seq<cell>, s: seq<cell>,
      x: cell, fuel: nat)
    returns (t': State, z: cell)
    requires StacksOk(v) && Spelled(n, w, at) && |s| + 3 <= DATA_DEPTH
             && Amid(v, t, n, m, b, s + [x], Size(OnNumber(at)))
    ensures var r := ReadNumber(n, LOC_WORD_BUFFER);
            && Amid(v, t', n, m, b, s + [Shown(r)], Size(if r.Converted? then OnValue(at) else OnUnknown(at)))
            && Mean(m, b, w, OnNumber(at), t, fuel)
               == Landed(Mean(m, b, w, if r.Converted? then OnValue(at) else OnUnknown(at), t', fuel), z)
  {
    hide Fetch16, Cells, SameOn, Mean, IsWord, Wrap, BodyEffect, OnValue, OnUnknown, ReadNumber, Line;
    var r := ReadNumber(n, LOC_WORD_BUFFER);
    var p1, p2, p3 := Plain(at[17]), Plain(at[21]), Plain(at[18]);
    var ask, q := Line([p1, p2, p3]), IfElse(OnValue(at), OnUnknown(at));
    NumberIs(at);
    assert Size(OnNumber(at)) == 6 + Size(q) by { NumberSize(at); }
    AgainEffect(n, w, at, s, x, |ReturnOf(t)|, fuel);
    var t1 := Advance(v, t, n, m, b, w, p1, s + [x], s, 4 + Size(q), fuel);
    var t2 := Advance(v, t1, n, m, b, w, p2, s, s + [LOC_WORD_BUFFER], 2 + Size(q), fuel);
    var t3 := NumberStep(v, t2, n, m, b, w, at, s, Size(q), fuel);
    LineFirst(p1, [p2, p3], [p1, p2, p3]);
    LineFirst(p2, [p3], [p2, p3]);
    BothIs(m, b, w, p1, Line([p2, p3]), t, t1, fuel);
    BothIs(m, b, w, p2, Line([p3]), t1, t2, fuel);
    OneIs(m, b, w, p3, t2, fuel);
    BothIs(m, b, w, ask, q, t, t3, fuel);
    z := Wrap(t3.ip + Size(q));
    t' := Branch(v, t3, n, m, b, w, OnValue(at), OnUnknown(at), s + [Shown(r)], Success(r), fuel);
  }

  lemma NumberSize(at: seq<cell>)
    requires |at| == 39
    ensures Size(OnNumber(at)) == 6 + Size(IfElse(OnValue(at), OnUnknown(at)))
  {
    hide OnValue, OnUnknown, Line;
    var p1, p2, p3 := Plain(at[17]), Plain(at[21]), Plain(at[18]);
    NumberIs(at);
    BranchSize(Line([p1, p2, p3]), OnValue(at), OnUnknown(at));
    NoLine();
    assert [] + [p1] == [p1] && [p1] + [p2] == [p1, p2] && [p1, p2] + [p3] == [p1, p2, p3];
    LineLonger([], p1);
    LineLonger([p1], p2);
    LineLonger([p1, p2], p3);
  }

  // Where (NUMBER) has led.
  function OnValue(at: seq<cell>): Body
    requires |at| == 39
  {
    Both(Line([Plain(at[2]), Plain(at[6])]), IfElse(Line([Plain(at[22])]), Line([Plain(at[9])])))
  }

  function OnUnknown(at: seq<cell>): Body
    requires |at| == 39
  {
    Line([Plain(at[17]), Number(63), Plain(at[8]), Plain(at[23])])
  }

  lemma NumberIs(at: seq<cell>)
    requires |at| == 39
    ensures OnNumber(at)
            == Both(Line([Plain(at[17]), Plain(at[21]), Plain(at[18])]), IfElse(OnValue(at), OnUnknown(at)))
  {
    hide Line;
  }

  // STATE @ IF (LITERAL) ELSE PASS THEN
  lemma ValueBranches(v: State, t: State, n: Memory, m: Memory, b: cell, w: Words, at: seq<cell>, s: seq<cell>, k: cell,
      fuel: nat)
    returns (t': State, z: cell)
    requires StacksOk(v) && Spelled(n, w, at) && |s| + 3 <= DATA_DEPTH
             && Amid(v, t, n, m, b, s + [k], Size(OnValue(at)))
    ensures Amid(v, t', n, m, b, s + [k], 0)
    ensures Mean(m, b, w, OnValue(at), t, fuel)
            == Landed(Mean(m, b, w, Plain(if Fetch16(n, LOC_STATE) != 0 then at[22] else at[9]), t', fuel), z)
  {
    hide Fetch16, Cells, SameOn, Mean, IsWord, Wrap, BodyEffect, Line;
    var mode := Fetch16(n, LOC_STATE);
    var p := Line([Plain(at[2]), Plain(at[6])]);
    var yes, no := Line([Plain(at[22])]), Line([Plain(at[9])]);
    ModeEffect(n, w, at, s + [k], |ReturnOf(t)|, fuel);
    var a := Advance(v, t, n, m, b, w, p, s + [k], s + [k] + [mode], Size(IfElse(yes, no)), fuel);
    BothIs(m, b, w, p, IfElse(yes, no), t, a, fuel);
    z := Wrap(a.ip + Size(IfElse(yes, no)));
    t' := Branch(v, a, n, m, b, w, yes, no, s + [k], mode, fuel);
    AmidLess(v, t', n, m, b, s + [k], Size(if mode == 0 then no else yes), 0);
    OneIs(m, b, w, Plain(if mode != 0 then at[22] else at[9]), t', fuel);
  }

  // DROP 63 EMIT ABORT
  lemma UnknownEffect(n: Memory, w: Words, at: seq<cell>, s: seq<cell>, x: cell, depth: nat, fuel: nat)
    requires Spelled(n, w, at) && |s| + 1 <= DATA_DEPTH
    ensures BodyEffect(n, w, OnUnknown(at), s + [x], depth, fuel) == Aborts
  {
    hide CodeField, WordEffect, Line;
    var p1, p2, p3, p4 := Plain(at[17]), Number(63), Plain(at[8]), Plain(at[23]);
    PrimitiveWord(n, w, at[17], OP_DROP, s + [x], depth, fuel);
    assert Front(s + [x]) == s && Front(s + [63]) == s;
    LineStep(n, w, [p1, p2, p3, p4], [p2, p3, p4], s + [x], s, depth, fuel);
    LineStep(n, w, [p2, p3, p4], [p3, p4], s, s + [63], depth, fuel);
    PrimitiveWord(n, w, at[8], OP_EMIT, s + [63], depth, fuel);
    LineStep(n, w, [p3, p4], [p4], s + [63], s, depth, fuel);
    PrimitiveWord(n, w, at[23], OP_ABORT, s, depth, fuel);
    LineFirst(p4, [], [p4]);
  }

  // DROP 79 EMIT 75 EMIT
  lemma PromptEffect(n: Memory, w: Words, at: seq<cell>, s: seq<cell>, x: cell, depth: nat, fuel: nat)
    requires Spelled(n, w, at) && |s| + 1 <= DATA_DEPTH
    ensures BodyEffect(n, w, Prompt(at), s + [x], depth, fuel) == Gives(s)
  {
    hide CodeField, WordEffect, Line;
    var p1, p2, p3, p4 := Plain(at[17]), Number(79), Plain(at[8]), Number(75);
    PrimitiveWord(n, w, at[17], OP_DROP, s + [x], depth, fuel);
    assert Front(s + [x]) == s && Front(s + [79]) == s && Front(s + [75]) == s;
    LineStep(n, w, [p1, p2, p3, p4, p3], [p2, p3, p4, p3], s + [x], s, depth, fuel);
    LineStep(n, w, [p2, p3, p4, p3], [p3, p4, p3], s, s + [79], depth, fuel);
    PrimitiveWord(n, w, at[8], OP_EMIT, s + [79], depth, fuel);
    LineStep(n, w, [p3, p4, p3], [p4, p3], s + [79], s, depth, fuel);
    LineStep(n, w, [p4, p3], [p3], s, s + [75], depth, fuel);
    PrimitiveWord(n, w, at[8], OP_EMIT, s + [75], depth, fuel);
    LineStep(n, w, [p3], [], s + [75], s, depth, fuel);
    LineEnd(n, w, s, depth, fuel);
  }

  function Prompt(at: seq<cell>): Body
    requires |at| == 39
  {
    Line([Plain(at[17]), Number(79), Plain(at[8]), Number(75), Plain(at[8])])
  }

  // A line and one more word.
  lemma {:induction false} LineLast(m: Memory, b: cell, w: Words, ps: seq<Body>, q: Body, st: State, t: State,
      fuel: nat)
    requires Live(st) && Intact(m, b, st) && Mean(m, b, w, Line(ps), st, fuel) == Normal(t)
    ensures Live(t) && Intact(m, b, t) && Mean(m, b, w, Line(ps + [q]), st, fuel) == Mean(m, b, w, q, t, fuel)
    decreases |ps|
  {
    hide MeanWord, MeanFork, MeanLoop, SameOn, Line;
    if ps == [] {
      assert Line([]) == Nothing by { NoLine(); }
      assert ps + [q] == [q];
      OneIs(m, b, w, q, st, fuel);
    } else {
      LineFirst(ps[0], ps[1..], ps);
      LineFirst(ps[0], ps[1..] + [q], ps + [q]);
      var u := Mean(m, b, w, ps[0], st, fuel).st;
      LineLast(m, b, w, ps[1..], q, u, t, fuel);
    }
  }

  lemma NoLine()
    ensures Line([]) == Nothing
  {
  }

  // The turns.  In each, v is the state after FIND has read its token, t a state
  // that differs from it in its data stack only, and z the end of the turn.

  // No token is left: print OK and ask for another line.
  lemma TurnRefills(st: State, m: Memory, b: cell, w: Words, c: Core, at: seq<cell>, e: cell, fuel: nat)
    returns (t: State, z: cell)
    requires Turning(st, m, b, w, c, at, e) && Reading(st).mem[LOC_WORD_BUFFER] == 0
    ensures var v := Reading(st);
            && StacksOk(v) && Amid(v, t, v.mem, m, b, DataOf(st), 0) && |at| == 39
            && Mean(m, b, w, Turn(at), st, fuel) == Landed(MeanStep(m, b, t, Query(t)), z)
  {
    hide Fetch16, Cells, SameOn, Named, ReadToken, Sought, Vocabulary, CoreAt, Mean, Turn, IsWord, Line, BodyEffect;
    hide Query, CodeField, MeanStep;
    var v := Reading(st);
    var a;
    a, z := TurnBranches(st, m, b, w, c, at, e, fuel);
    var x := Answer(Sought(v));
    PromptEffect(v.mem, w, at, DataOf(st), x, |ReturnOf(a)|, fuel);
    PromptSize(at);
    t := Advance(v, a, v.mem, m, b, w, Prompt(at), DataOf(st) + [x], DataOf(st), 2, fuel);
    AmidLess(v, t, v.mem, m, b, DataOf(st), 2, 0);
    var ps := [Plain(at[17]), Number(79), Plain(at[8]), Number(75), Plain(at[8])];
    LineLast(m, b, w, ps, Plain(at[10]), a, t, fuel);
    assert ps + [Plain(at[10])] == [Plain(at[17]), Number(79), Plain(at[8]), Number(75), Plain(at[8]), Plain(at[10])];
    QueryWord(m, b, w, at, v.mem, t, fuel);
    PlainIs(m, b, w, at[10], t, fuel);
  }

  lemma PromptSize(at: seq<cell>)
    requires |at| == 39
    ensures Size(Refill(at)) == Size(Prompt(at)) + 2
  {
    hide Line;
    var ps := [Plain(at[17]), Number(79), Plain(at[8]), Number(75), Plain(at[8])];
    LineLonger(ps, Plain(at[10]));
    assert ps + [Plain(at[10])] == [Plain(at[17]), Number(79), Plain(at[8]), Number(75), Plain(at[8]), Plain(at[10])];
  }

  lemma {:induction false} LineLonger(ps: seq<Body>, q: Body)
    ensures Size(Line(ps + [q])) == Size(Line(ps)) + Size(q)
    decreases |ps|
  {
    hide Line;
    NoLine();
    if ps == [] {
      LineFirst(q, [], [q]);
      assert ps + [q] == [q];
    } else {
      LineFirst(ps[0], ps[1..], ps);
      LineFirst(ps[0], ps[1..] + [q], ps + [q]);
      LineLonger(ps[1..], q);
    }
  }

  lemma QueryWord(m: Memory, b: cell, w: Words, at: seq<cell>, n: Memory, t: State, fuel: nat)
    requires Live(t) && Intact(m, b, t) && Running(t, n) && Spelled(n, w, at)
    ensures MeanWord(m, b, w, at[10], t, fuel) == MeanStep(m, b, t, Query(t))
  {
    hide Fetch16, SameOn, CodeField, MeanStep, Query;
    HeaderSame(n, t.mem, at[10]);
    OtherWord(m, b, w, at[10], OP_QUERY, t, fuel);
    assert Simple(t, OP_QUERY, at[10]) == Query(t);
  }

  lemma PlainIs(m: Memory, b: cell, w: Words, xt: cell, t: State, fuel: nat)
    requires Live(t) && Intact(m, b, t)
    ensures Mean(m, b, w, Plain(xt), t, fuel) == MeanWord(m, b, w, xt, t, fuel)
  {
    hide MeanWord, SameOn;
  }

  // The token names an entry: its handler deals with it.
  lemma TurnHandles(st: State, m: Memory, b: cell, w: Words, c: Core, at: seq<cell>, e: cell, x: cell, fuel: nat)
    returns (t: State, z: cell)
    requires Turning(st, m, b, w, c, at, e) && Sought(Reading(st)) == Found(x) && 0 < x && x + DE_SIZE_MIN <= SPACE_TOP
    ensures var v := Reading(st);
            && StacksOk(v) && Amid(v, t, v.mem, m, b, DataOf(st) + [x], 0) && |at| == 39 && Spelled(v.mem, w, at)
            && Mean(m, b, w, Turn(at), st, fuel) == Landed(MeanWord(m, b, w, Handler(v.mem, at, x), t, fuel), z)
  {
    hide Fetch16, Cells, SameOn, Named, ReadToken, FindName, Vocabulary, CoreAt, Mean, Turn, IsWord, Rest, Refill;
    hide Handler, OnWord;
    var v := Reading(st);
    var a, d, y1, y2;
    a, z := TurnBranches(st, m, b, w, c, at, e, fuel);
    d, y1 := RestBranches(v, a, v.mem, m, b, w, at, DataOf(st), x, fuel);
    t, y2 := WordBranches(v, d, v.mem, m, b, w, at, DataOf(st), x, fuel);
    var r := Mean(m, b, w, Plain(Handler(v.mem, at, x)), t, fuel);
    LandedTwice(r, y2, y1);
    LandedTwice(r, y1, z);
    PlainIs(m, b, w, Handler(v.mem, at, x), t, fuel);
  }

  // What compiling a token does in t, as the end of a turn that has put it on the
  // stack in u.
  ghost function Compiled(m: Memory, b: cell, t: State, u: State, token: Token): Result
    requires Live(u) && Intact(m, b, u) && StacksOk(t) && t.recover == u.recover
  {
    hide CompileToken, SameOn;
    MeanStep(m, b, u, CompileToken(t, token))
  }

  // So while compiling, a turn does with the entry what the compiler is proved
  // for: u is t with the entry on its stack.
  lemma TurnCompiles(st: State, m: Memory, b: cell, w: Words, c: Core, at: seq<cell>, e: cell, x: cell, fuel: nat)
    returns (t: State, u: State, z: cell)
    requires Turning(st, m, b, w, c, at, e) && Sought(Reading(st)) == Found(x) && 0 < x && x + DE_SIZE_MIN <= SPACE_TOP
    requires Fetch16(Reading(st).mem, LOC_STATE) == COMPILING && x !in w
    ensures var v := Reading(st);
            && StacksOk(v) && Amid(v, t, v.mem, m, b, DataOf(st), 0) && |at| == 39
            && !Full(t.data) && u == PushData(t, x) && Amid(v, u, v.mem, m, b, DataOf(st) + [x], 0)
            && Mean(m, b, w, Turn(at), st, fuel) == Landed(Compiled(m, b, t, u, Entry(x)), z)
  {
    hide Fetch16, Store16, Cells, SameOn, Named, ReadToken, Sought, Vocabulary, CoreAt, Mean, Turn, MeanStep, Spelled;
    hide Handler;
    hide CompileToken, MeanWord, Readable;
    var v := Reading(st);
    u, z := TurnHandles(st, m, b, w, c, at, e, x, fuel);
    t := Dropped(v, u, v.mem, m, b, DataOf(st), x);
    HandlerCompiles(m, b, w, at, v, v.mem, t, u, DataOf(st), x, fuel);
  }

  lemma HandlerCompiles(m: Memory, b: cell, w: Words, at: seq<cell>, v: State, n: Memory, t: State, u: State,
      s: seq<cell>, x: cell, fuel: nat)
    requires StacksOk(v) && Spelled(n, w, at) && Amid(v, t, n, m, b, s, 0) && Amid(v, u, n, m, b, s + [x], 0) && x !in w
    requires !Full(t.data) && u == PushData(t, x) && x + DE_SIZE_MIN <= SPACE_TOP && Fetch16(n, LOC_STATE) == COMPILING
    ensures MeanWord(m, b, w, Handler(n, at, x), u, fuel) == Compiled(m, b, t, u, Entry(x))
  {
    hide Fetch16, Store16, Cells, SameOn, MeanStep, CodeField, IsImmediate, Execute, Comma, MeanWord;
    var h := Handler(n, at, x);
    HeaderSame(n, t.mem, x);
    HeaderSame(n, u.mem, h);
    if h == at[4] && !IsImmediate(n, x) {
      CommaWord(m, b, w, h, u, fuel);
    } else {
      PushedTop(t, x);
      ExecuteWord(m, b, w, h, u, fuel);
    }
  }

  lemma PushedTop(t: State, x: cell)
    requires StacksOk(t) && !Full(t.data)
    ensures !Empty(PushData(t, x).data) && TopData(PushData(t, x)) == x
  {
    FetchStored(t.mem, t.data.where, x);
  }

  lemma CommaWord(m: Memory, b: cell, w: Words, xt: cell, st: State, fuel: nat)
    requires Live(st) && Intact(m, b, st) && IsWord(st.mem, w, xt, OP_COMMA)
    ensures MeanWord(m, b, w, xt, st, fuel) == MeanStep(m, b, st, Comma(st))
  {
    hide Fetch16, SameOn, CodeField, MeanStep, Comma;
    OtherWord(m, b, w, xt, OP_COMMA, st, fuel);
    assert Simple(st, OP_COMMA, xt) == Comma(st);
  }

  // EXECUTE of a word that is not called.
  lemma ExecuteWord(m: Memory, b: cell, w: Words, xt: cell, st: State, fuel: nat)
    requires Live(st) && Intact(m, b, st) && IsWord(st.mem, w, xt, OP_EXECUTE)
    requires Empty(st.data) || TopData(st) !in w
    ensures MeanWord(m, b, w, xt, st, fuel) == MeanStep(m, b, st, Execute(st))
  {
    hide Fetch16, CodeField, SameOn, Execute;
    assert Perform(st, xt) == Execute(st);
  }

  // The top value taken off, and put back, is the same state.
  lemma Dropped(v: State, a: State, n: Memory, m: Memory, b: cell, s: seq<cell>, x: cell) returns (t: State)
    requires StacksOk(v) && Amid(v, a, n, m, b, s + [x], 0)
    ensures Amid(v, t, n, m, b, s, 0) && !Full(t.data) && PushData(t, x) == a && t.ip == a.ip
  {
    hide Fetch16, Cells, SameOn;
    StackDepth(a);
    PopEffect(a, n);
    assert Front(s + [x]) == s && Last(s + [x]) == x;
    t := DropData(a);
    StoredAgain(a.mem, t.data.where, x);
  }

  lemma StoredAgain(m: Memory, a: cell, v: cell)
    requires Fetch16(m, a) == v
    ensures Store16(m, a, v) == m
  {
  }

  // The token is a number: compiled as the compiler is proved to do while STATE is
  // not 0, left on the stack otherwise.
  lemma TurnNumbers(st: State, m: Memory, b: cell, w: Words, c: Core, at: seq<cell>, e: cell, k: cell, fuel: nat)
    returns (t: State, u: State, z: cell)
    requires Turning(st, m, b, w, c, at, e) && Reading(st).mem[LOC_WORD_BUFFER] != 0 && Sought(Reading(st)) == Absent
    requires ReadNumber(Reading(st).mem, LOC_WORD_BUFFER) == Converted(k)
    ensures var v := Reading(st);
            && StacksOk(v) && Amid(v, t, v.mem, m, b, DataOf(st), 0) && |at| == 39
            && !Full(t.data) && u == PushData(t, k) && Amid(v, u, v.mem, m, b, DataOf(st) + [k], 0)
            && Mean(m, b, w, Turn(at), st, fuel)
               == Landed(if Fetch16(v.mem, LOC_STATE) != 0 then Compiled(m, b, t, u, Token.Numeral(k))
                         else Normal(u), z)
  {
    hide Fetch16, Store16, Cells, SameOn, Named, ReadToken, FindName, Vocabulary, CoreAt, Mean, Turn, IsWord;
    hide ReadNumber, MeanStep;
    hide MeanWord, CompileToken, Sought, Readable, Spelled;
    var v := Reading(st);
    var n := v.mem;
    u, z := TurnValue(st, m, b, w, c, at, e, k, fuel);
    t := Dropped(v, u, n, m, b, DataOf(st), k);
    ValueCompiles(m, b, w, at, v, n, t, u, DataOf(st), k, fuel);
  }

  lemma TurnValue(st: State, m: Memory, b: cell, w: Words, c: Core, at: seq<cell>, e: cell, k: cell, fuel: nat)
    returns (u: State, z: cell)
    requires Turning(st, m, b, w, c, at, e) && Reading(st).mem[LOC_WORD_BUFFER] != 0 && Sought(Reading(st)) == Absent
    requires ReadNumber(Reading(st).mem, LOC_WORD_BUFFER) == Converted(k)
    ensures var v := Reading(st);
            && StacksOk(v) && Amid(v, u, v.mem, m, b, DataOf(st) + [k], 0) && |at| == 39 && Spelled(v.mem, w, at)
            && Mean(m, b, w, Turn(at), st, fuel)
               == Landed(MeanWord(m, b, w, if Fetch16(v.mem, LOC_STATE) != 0 then at[22] else at[9], u, fuel), z)
  {
    hide Fetch16, Store16, Cells, SameOn, Named, ReadToken, Sought, Vocabulary, CoreAt, Mean, Turn, IsWord, Rest;
    hide Refill, OnNumber;
    hide ReadNumber, OnValue, OnUnknown, Readable, MeanWord;
    var v := Reading(st);
    var s, n := DataOf(st), v.mem;
    var a1, a2, a3, y1, y2, y3;
    a1, z := TurnBranches(st, m, b, w, c, at, e, fuel);
    a2, y1 := RestBranches(v, a1, n, m, b, w, at, s, 0, fuel);
    a3, y2 := NumberBranches(v, a2, n, m, b, w, at, s, 0, fuel);
    u, y3 := ValueBranches(v, a3, n, m, b, w, at, s, k, fuel);
    var xt := if Fetch16(n, LOC_STATE) != 0 then at[22] else at[9];
    var r := Mean(m, b, w, Plain(xt), u, fuel);
    LandedTwice(r, y3, y2);
    LandedTwice(r, y2, y1);
    LandedTwice(r, y1, z);
    PlainIs(m, b, w, xt, u, fuel);
  }

  lemma ValueCompiles(m: Memory, b: cell, w: Words, at: seq<cell>, v: State, n: Memory, t: State, u: State,
      s: seq<cell>, k: cell, fuel: nat)
    requires StacksOk(v) && Spelled(n, w, at) && Amid(v, u, n, m, b, s + [k], 0)
    requires StacksOk(t) && !Full(t.data) && u == PushData(t, k) && t.recover == u.recover
    ensures var compiling := Fetch16(n, LOC_STATE) != 0;
            MeanWord(m, b, w, if compiling then at[22] else at[9], u, fuel)
            == if compiling then Compiled(m, b, t, u, Token.Numeral(k)) else Normal(u.(ip := Wrap(u.ip + 2)))
  {
    hide Fetch16, Store16, SameOn, CodeField, MeanStep, Literal, Cells;
    var compiling := Fetch16(n, LOC_STATE) != 0;
    var op := if compiling then OP_PLITERAL else OP_PASS;
    var xt := if compiling then at[22] else at[9];
    assert IsWord(n, w, xt, op);
    HeaderSame(n, u.mem, xt);
    OtherWord(m, b, w, xt, op, u, fuel);
    assert Simple(u, op, xt) == if compiling then Literal(u) else Continue(u);
    StepIs(m, b, u, u);
  }

  // The token is neither: print a question mark and ABORT.
  lemma TurnAborts(st: State, m: Memory, b: cell, w: Words, c: Core, at: seq<cell>, e: cell, fuel: nat)
    requires Turning(st, m, b, w, c, at, e) && Reading(st).mem[LOC_WORD_BUFFER] != 0 && Sought(Reading(st)) == Absent
    requires ReadNumber(Reading(st).mem, LOC_WORD_BUFFER) == Wrong
    ensures |at| == 39
    ensures var r := Mean(m, b, w, Turn(at), st, fuel);
            r.Recovered? && Scrubbed(st.dictHead, st.recover, r.st, Reading(st).mem)
  {
    hide Fetch16, Store16, Cells, SameOn, Named, ReadToken, FindName, Vocabulary, CoreAt, Mean, Turn, IsWord, Rest;
    hide Refill, OnNumber;
    hide ReadNumber, OnValue, OnUnknown, MeanStep, CodeField, Scrubbed, BodyEffect;
    var v := Reading(st);
    var s, n := DataOf(st), v.mem;
    var a1, z := TurnBranches(st, m, b, w, c, at, e, fuel);
    var a2, y1 := RestBranches(v, a1, n, m, b, w, at, s, 0, fuel);
    var a, y2 := NumberBranches(v, a2, n, m, b, w, at, s, 0, fuel);
    UnknownEffect(n, w, at, s, LOC_WORD_BUFFER, |ReturnOf(a)|, fuel);
    BodyAgrees(a, m, n, b, w, OnUnknown(at), fuel);
  }

  // No word named in p is EXIT.
  ghost predicate NoExit(m: Memory, b: cell, w: Words, p: Body) {
    match p
    case Plain(xt) => xt in w || (SYSTEM_END <= xt && xt + DE_SIZE_MIN <= b && CodeField(m, xt) != OP_EXIT)
    case Both(p, q) => NoExit(m, b, w, p) && NoExit(m, b, w, q)
    case IfThen(p) => NoExit(m, b, w, p)
    case IfElse(p, q) => NoExit(m, b, w, p) && NoExit(m, b, w, q)
    case Loop(p) => NoExit(m, b, w, p)
    case _ => true
  }

  // Such a body is left at its end only.
  lemma {:induction false} NeverLeft(m: Memory, b: cell, w: Words, p: Body, st: State, fuel: nat)
    requires Live(st) && Intact(m, b, st) && NoExit(m, b, w, p)
    ensures !Mean(m, b, w, p, st, fuel).Left?
    decreases fuel, p
  {
    hide SameOn, CodeField, MeanWord, Fetch16, AbortState;
    match p
    case Nothing =>
    case Plain(xt) => WordNeverLeft(m, b, w, xt, st, fuel);
    case Number(_) =>
    case Both(p1, p2) =>
      NeverLeft(m, b, w, p1, st, fuel);
      var r := Mean(m, b, w, p1, st, fuel);
      if r.Normal? { NeverLeft(m, b, w, p2, r.st, fuel); }
    case IfThen(p1) =>
      if !Empty(st.data) { NeverLeft(m, b, w, p1, Tested(st, st.ip + 4), fuel); }
    case IfElse(p1, p2) =>
      if !Empty(st.data) {
        NeverLeft(m, b, w, p1, Tested(st, st.ip + 4), fuel);
        NeverLeft(m, b, w, p2, Tested(st, st.ip + 8 + Size(p1)), fuel);
      }
    case Loop(p1) =>
      if fuel > 0 {
        NeverLeft(m, b, w, p1, st, fuel);
        var r := Mean(m, b, w, p1, st, fuel);
        if r.Normal? { NeverLeft(m, b, w, Loop(p1), GoTo(r.st, st.ip), fuel - 1); }
      }
  }

  lemma WordNeverLeft(m: Memory, b: cell, w: Words, xt: cell, st: State, fuel: nat)
    requires Live(st) && Intact(m, b, st) && NoExit(m, b, w, Plain(xt))
    ensures !MeanWord(m, b, w, xt, st, fuel).Left?
  {
    hide SameOn, CodeField, MeanEnter, MeanStep, Fetch16;
    if xt !in w {
      HeaderKept(m, st.mem, SYSTEM_END, b, xt);
    }
  }

  lemma {:induction false} LineNoExit(m: Memory, b: cell, w: Words, ps: seq<Body>)
    requires forall i :: 0 <= i < |ps| ==> NoExit(m, b, w, ps[i])
    ensures NoExit(m, b, w, Line(ps))
    decreases |ps|
  {
    if ps != [] {
      LineNoExit(m, b, w, ps[1..]);
    }
  }

  lemma PlainNoExit(m: Memory, b: cell, w: Words, at: seq<cell>)
    requires Spelled(m, w, at) && |at| == 39
    requires forall i :: 0 <= i < 39 ==> SYSTEM_END <= at[i] && at[i] + DE_SIZE_MIN <= b
    ensures forall i :: i in {2, 4, 6, 7, 8, 9, 10, 12, 13, 15, 16, 17, 18, 20, 21, 22, 23} ==>
            NoExit(m, b, w, Plain(at[i]))
  {
    hide CodeField;
  }

  lemma InterpretNoExit(m: Memory, b: cell, w: Words, at: seq<cell>)
    requires |at| == 39
    requires forall i :: i in {2, 4, 6, 7, 8, 9, 10, 12, 13, 15, 16, 17, 18, 20, 21, 22, 23} ==>
             NoExit(m, b, w, Plain(at[i]))
    ensures NoExit(m, b, w, Interpret(at))
  {
    hide Line, CodeField, NoExit;
    var number, mode := Line([Plain(at[17]), Plain(at[21]), Plain(at[18])]), Line([Plain(at[2]), Plain(at[6])]);
    var now, one, other := Line([Plain(at[16]), Plain(at[12])]), Line([Plain(at[20])]), Line([Plain(at[4])]);
    var ask := Line([Plain(at[13]), Plain(at[21]), Plain(at[7]), Number(0), Plain(at[15])]);
    var test := Line([Plain(at[16]), Number(0), Plain(at[15])]);
    NumbersNoExit(m, b, w);
    LineNoExit(m, b, w, [Plain(at[17]), Plain(at[21]), Plain(at[18])]);
    LineNoExit(m, b, w, [Plain(at[2]), Plain(at[6])]);
    LineNoExit(m, b, w, [Plain(at[22])]);
    LineNoExit(m, b, w, [Plain(at[9])]);
    LineNoExit(m, b, w, [Plain(at[17]), Number(63), Plain(at[8]), Plain(at[23])]);
    ForkNoExit(m, b, w, mode, Line([Plain(at[22])]), Line([Plain(at[9])]));
    ForkNoExit(m, b, w, number, OnValue(at), OnUnknown(at));
    NumberIs(at);
    LineNoExit(m, b, w, [Plain(at[16]), Plain(at[12])]);
    LineNoExit(m, b, w, [Plain(at[20])]);
    LineNoExit(m, b, w, [Plain(at[4])]);
    ForkNoExit(m, b, w, now, one, other);
    ForkNoExit(m, b, w, mode, Both(now, IfElse(one, other)), one);
    assert OnWord(at) == Both(mode, IfElse(Both(now, IfElse(one, other)), one));
    LineNoExit(m, b, w, [Plain(at[13]), Plain(at[21]), Plain(at[7]), Number(0), Plain(at[15])]);
    LineNoExit(m, b, w, [Plain(at[17]), Number(79), Plain(at[8]), Number(75), Plain(at[8]), Plain(at[10])]);
    LineNoExit(m, b, w, [Plain(at[16]), Number(0), Plain(at[15])]);
    ForkNoExit(m, b, w, test, OnNumber(at), OnWord(at));
    ForkNoExit(m, b, w, ask, Refill(at), Rest(at));
    TurnIs(at);
    LoopNoExit(m, b, w, Turn(at));
  }

  lemma NumbersNoExit(m: Memory, b: cell, w: Words)
    ensures forall k :: NoExit(m, b, w, Number(k))
  {
  }

  lemma {:induction false} ForkNoExit(m: Memory, b: cell, w: Words, p: Body, yes: Body, no: Body)
    requires NoExit(m, b, w, p) && NoExit(m, b, w, yes) && NoExit(m, b, w, no)
    ensures NoExit(m, b, w, Both(p, IfElse(yes, no)))
  {
    hide CodeField;
  }

  lemma {:induction false} LoopNoExit(m: Memory, b: cell, w: Words, p: Body)
    requires NoExit(m, b, w, p)
    ensures NoExit(m, b, w, Loop(p))
  {
    hide CodeField;
  }

  // INTERPRET started as the program starts it, at its parameter field, which is
  // where ABORT goes, in a state q that holds the dictionary of a running system:
  // the machine realises the meaning of its source, and never comes to its end or
  // returns: it goes back to the start by ABORT, with the dictionary still there,
  // ends at BYE, stops, leaves the structure or runs on.
  lemma InterpretRuns(s: State, w: Words, c: Core, k: Keywords, d: Definers, at: seq<cell>, e: cell, q: State,
      fuel: nat)
    returns (n: nat)
    requires Equipped(s, w, c, k, d) && CoreAt(s.mem, at, e) && |at| == 39 && e in w && w[e] == Threaded(Interpret(at))
    requires Live(q) && Intact(s.mem, Here(s.mem), q) && q.ip == ParameterField(s.mem, e) && q.recover == q.ip
    ensures var r := Mean(s.mem, Here(s.mem), w, Interpret(at), q, fuel);
            && Realises(q, n, r, fuel, q.ip, q.ip + Size(Interpret(at))) && !r.Normal? && !r.Left?
            && (r.Recovered? ==> && Live(r.st) && Intact(s.mem, Here(s.mem), r.st) && r.st.ip == q.ip
                                 && r.st.recover == q.recover && Empty(r.st.ret))
  {
    hide Fetch16, SameOn, CodeField, Realises, Mean, Holds, CORE, Interpret, Dictionary, DefinersOk, Lookups, KeywordOk;
    hide AbortState, HasOp, Spelled, NoExit, ParameterField, CodeAt, Code, Size;
    var m, b := s.mem, Here(s.mem);
    ReadyVocabulary(s, w, c, k, d.semi);
    assert Placed(m, w, c, e, b);
    assert Intact(m, b, s) by { SelfIntact(s, b); }
    StillSpelled(m, b, w, c, at, e, s);
    forall i | 0 <= i < 39 ensures SYSTEM_END <= at[i] && at[i] + DE_SIZE_MIN <= b {
      assert |CORE| == 39 by { InputOps(); }
      CoreHeader(m, at[i], CORE[i], e);
    }
    PlainNoExit(m, b, w, at);
    InterpretNoExit(m, b, w, at);
    CodeSplit(m, q.ip, Code(c, Interpret(at), q.ip), [c.exit]);
    n := RunBody(q, m, b, w, c, Interpret(at), q.ip, fuel);
    NeverLeft(m, b, w, Interpret(at), q, fuel);
    LoopsOn(m, b, w, at, q, fuel);
  }

  lemma SelfIntact(st: State, b: cell)
    requires b <= SPACE_TOP
    ensures Intact(st.mem, b, st)
  {
  }

  lemma LoopsOn(m: Memory, b: cell, w: Words, at: seq<cell>, t: State, fuel: nat)
    requires |at| == 39 && Live(t) && Intact(m, b, t)
    ensures !Mean(m, b, w, Interpret(at), t, fuel).Normal?
  {
    hide MeanLoop, SameOn, Turn;
  }
}
