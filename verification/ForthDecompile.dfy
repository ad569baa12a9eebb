// The decompiler's sweep over threaded code, and where the compiler put the
// instruction boundaries.
module ForthDecompile {
  import opened Dataspace
  import opened ForthState
  import opened ForthWords
  import opened ForthSource

  // Starting at ip the sweep shows the instructions at xs and gets to `end`.
  ghost predicate Sweeps(m: Memory, ip: nat, xs: seq<nat>, end: nat)
    decreases xs
  {
    ip <= SPACE_TOP
    && if xs == [] then ip == end
       else xs[0] == ip && GoesOn(OpcodeAt(m, ip)) && Sweeps(m, ip + Width(OpcodeAt(m, ip)), xs[1..], end)
  }

  lemma {:induction false} SweepsJoin(m: Memory, ip: nat, xs: seq<nat>, mid: nat, ys: seq<nat>, end: nat)
    requires Sweeps(m, ip, xs, mid) && Sweeps(m, mid, ys, end)
    ensures Sweeps(m, ip, xs + ys, end)
    decreases xs
  {
    hide OpcodeAt;
    if xs == [] {
      assert xs + ys == ys;
    } else {
      SweepsJoin(m, ip + Width(OpcodeAt(m, ip)), xs[1..], mid, ys, end);
      assert (xs + ys)[1..] == xs[1..] + ys;
    }
  }

  lemma SweepsOne(m: Memory, ip: cell, w: nat)
    requires ip + 4 <= SPACE_TOP && GoesOn(OpcodeAt(m, ip)) && w == Width(OpcodeAt(m, ip))
    ensures Sweeps(m, ip, [ip], ip + w)
  {
    hide OpcodeAt;
    assert [ip][1..] == [];
    assert Sweeps(m, ip + w, [], ip + w);
  }

  // Where the instructions of p start when its code is placed at a.
  function Boundaries(p: Body, a: nat): seq<nat> {
    match p
    case Nothing => []
    case Plain(_) => [a]
    case Number(_) => [a]
    case Both(p, q) => Boundaries(p, a) + Boundaries(q, a + Size(p))
    case IfThen(p) => [a] + Boundaries(p, a + 4)
    case IfElse(p, q) => [a] + Boundaries(p, a + 4) + [a + 4 + Size(p)] + Boundaries(q, a + 8 + Size(p))
    case Loop(p) => Boundaries(p, a) + [a + Size(p)]
  }

  // The words named in p are one cell wide and do not end a definition.
  ghost predicate NoInnerExit(m: Memory, p: Body) {
    match p
    case Nothing => true
    case Plain(xt) => GoesOn(CodeField(m, xt)) && Width(CodeField(m, xt)) == 2
    case Number(_) => true
    case Both(p, q) => NoInnerExit(m, p) && NoInnerExit(m, q)
    case IfThen(p) => NoInnerExit(m, p)
    case IfElse(p, q) => NoInnerExit(m, p) && NoInnerExit(m, q)
    case Loop(p) => NoInnerExit(m, p)
  }

  ghost predicate CoreOps(m: Memory, c: Core) {
    && CodeField(m, c.push) == OP_PUSH && CodeField(m, c.jump) == OP_JUMP
    && CodeField(m, c.jumpIf) == OP_JUMP_IF && CodeField(m, c.exit) == OP_EXIT
  }

  // The sweep shows exactly the instructions the compiler emitted: it never
  // takes a literal or a branch operand for a word.
  lemma {:induction false} SweepShowsCode(m: Memory, c: Core, p: Body, a: nat)
    requires CodeAt(m, a, Code(c, p, a)) && CoreOps(m, c) && NoInnerExit(m, p) && a + Size(p) + 2 <= SPACE_TOP
    ensures Sweeps(m, a, Boundaries(p, a), a + Size(p))
    decreases p
  {
    hide Fetch16, CodeField, CodeAt, Code, Sweeps, Size;
    match p
    case Nothing =>
      SweepsNone(m, a);
    case Plain(xt) =>
      LeafCells(m, c, p, a);
      SweepsOne(m, a, 2);
    case Number(n) =>
      LeafCells(m, c, p, a);
      SweepsOne(m, a, 4);
    case Both(p1, p2) =>
      BothShape(c, Keywords(0, 0, 0, 0, 0), p1, p2, a);
      CodeSplit(m, a, Code(c, p1, a), Code(c, p2, a + Size(p1)));
      SweepShowsCode(m, c, p1, a);
      SweepShowsCode(m, c, p2, a + Size(p1));
      SweepsJoin(m, a, Boundaries(p1, a), a + Size(p1), Boundaries(p2, a + Size(p1)), a + Size(p));
    case IfThen(p1) =>
      SweepIfThen(m, c, p1, a);
      SweepShowsCode(m, c, p1, a + 4);
      SweepsJoin(m, a, [a], a + 4, Boundaries(p1, a + 4), a + Size(p));
    case IfElse(p1, p2) =>
      var b := a + 4 + Size(p1);
      SweepIfElse(m, c, p1, p2, a);
      SweepShowsCode(m, c, p1, a + 4);
      SweepShowsCode(m, c, p2, b + 4);
      SweepsJoin(m, a, [a], a + 4, Boundaries(p1, a + 4), b);
      SweepsJoin(m, a, [a] + Boundaries(p1, a + 4), b, [b], b + 4);
      SweepsJoin(m, a, [a] + Boundaries(p1, a + 4) + [b], b + 4, Boundaries(p2, b + 4), a + Size(p));
    case Loop(p1) =>
      SweepLoop(m, c, p1, a);
      SweepShowsCode(m, c, p1, a);
      SweepsJoin(m, a, Boundaries(p1, a), a + Size(p1), [a + Size(p1)], a + Size(p));
  }

  lemma SweepsNone(m: Memory, a: nat)
    requires a <= SPACE_TOP
    ensures Sweeps(m, a, [], a) && Size(Nothing) == 0
  {
  }

  lemma FirstCell(m: Memory, a: nat, x: nat, ys: seq<nat>)
    requires CodeAt(m, a, [x] + ys)
    ensures a + 2 <= SPACE_TOP && Fetch16(m, a) == x
  {
    hide Fetch16;
    assert ([x] + ys)[0] == x;
  }

  lemma {:induction false} LeafCells(m: Memory, c: Core, p: Body, a: nat)
    requires (p.Plain? || p.Number?) && CodeAt(m, a, Code(c, p, a))
    ensures Size(p) == (if p.Plain? then 2 else 4)
    ensures a + 2 <= SPACE_TOP && Fetch16(m, a) == if p.Plain? then p.xt else c.push
  {
    hide Fetch16;
    if p.Plain? {
      assert [p.xt][0] == p.xt;
    } else {
      assert [c.push, p.n][0] == c.push;
    }
  }

  lemma {:induction false} SweepIfThen(m: Memory, c: Core, p: Body, a: nat)
    requires CodeAt(m, a, Code(c, IfThen(p), a)) && CoreOps(m, c) && a + Size(IfThen(p)) + 2 <= SPACE_TOP
    ensures Size(IfThen(p)) == 4 + Size(p) && CodeAt(m, a + 4, Code(c, p, a + 4)) && Sweeps(m, a, [a], a + 4)
  {
    hide Fetch16, CodeField, CodeAt, Code, Sweeps, Size;
    var t := [c.jumpIf, a + 4 + Size(p)];
    IfThenShape(c, Keywords(0, 0, 0, 0, 0), p, a);
    CodeSplit(m, a, t, Code(c, p, a + 4));
    assert t == [c.jumpIf] + [a + 4 + Size(p)];
    FirstCell(m, a, c.jumpIf, [a + 4 + Size(p)]);
    SweepsOne(m, a, 4);
  }

  lemma {:induction false} SweepIfElse(m: Memory, c: Core, p: Body, q: Body, a: nat)
    requires CodeAt(m, a, Code(c, IfElse(p, q), a)) && CoreOps(m, c) && a + Size(IfElse(p, q)) + 2 <= SPACE_TOP
    ensures Size(IfElse(p, q)) == 8 + Size(p) + Size(q)
    ensures CodeAt(m, a + 4, Code(c, p, a + 4)) && CodeAt(m, a + 8 + Size(p), Code(c, q, a + 8 + Size(p)))
    ensures Sweeps(m, a, [a], a + 4) && Sweeps(m, a + 4 + Size(p), [a + 4 + Size(p)], a + 8 + Size(p))
  {
    hide Fetch16, CodeField, CodeAt, Code, Sweeps, Size;
    var b := a + 4 + Size(p);
    var t, u := [c.jumpIf, b + 4], [c.jump, b + 4 + Size(q)];
    IfElseShape(c, Keywords(0, 0, 0, 0, 0), p, q, a);
    assert u == [c.jump, a + 8 + Size(p) + Size(q)];
    CodeSplit(m, a, t + Code(c, p, a + 4) + u, Code(c, q, b + 4));
    CodeSplit(m, a, t + Code(c, p, a + 4), u);
    CodeSplit(m, a, t, Code(c, p, a + 4));
    assert t == [c.jumpIf] + [b + 4] && u == [c.jump] + [b + 4 + Size(q)];
    FirstCell(m, a, c.jumpIf, [b + 4]);
    FirstCell(m, b, c.jump, [b + 4 + Size(q)]);
    SweepsOne(m, a, 4);
    SweepsOne(m, b, 4);
  }

  lemma {:induction false} SweepLoop(m: Memory, c: Core, p: Body, a: nat)
    requires CodeAt(m, a, Code(c, Loop(p), a)) && CoreOps(m, c) && a + Size(Loop(p)) + 2 <= SPACE_TOP
    ensures Size(Loop(p)) == Size(p) + 4 && CodeAt(m, a, Code(c, p, a))
    ensures Sweeps(m, a + Size(p), [a + Size(p)], a + Size(p) + 4)
  {
    hide Fetch16, CodeField, CodeAt, Code, Sweeps, Size;
    var t := [c.jump, a];
    LoopShape(c, Keywords(0, 0, 0, 0, 0), p, a);
    CodeSplit(m, a, Code(c, p, a), t);
    assert t == [c.jump] + [a];
    FirstCell(m, a + Size(p), c.jump, [a]);
    SweepsOne(m, a + Size(p), 4);
  }

  // The whole definition: the sweep ends at the EXIT that `;` laid.
  lemma {:induction false} SweepEndsAtExit(m: Memory, c: Core, p: Body, a: nat)
    requires CodeAt(m, a, Code(c, p, a) + [c.exit]) && CoreOps(m, c) && NoInnerExit(m, p)
    ensures a + Size(p) + 2 <= SPACE_TOP
    ensures Sweeps(m, a, Boundaries(p, a), a + Size(p)) && OpcodeAt(m, a + Size(p)) == OP_EXIT
  {
    hide Fetch16, CodeField, CodeAt, Code, Sweeps, Size, Boundaries;
    CodeSplit(m, a, Code(c, p, a), [c.exit]);
    assert [c.exit] == [c.exit] + [];
    FirstCell(m, a + Size(p), c.exit, []);
    SweepShowsCode(m, c, p, a);
  }

  // The words named in p are one cell wide, EXIT among them or not.
  ghost predicate Shown(m: Memory, p: Body) {
    match p
    case Nothing => true
    case Plain(xt) => CodeField(m, xt) == OP_EXIT || (GoesOn(CodeField(m, xt)) && Width(CodeField(m, xt)) == 2)
    case Number(_) => true
    case Both(p, q) => Shown(m, p) && Shown(m, q)
    case IfThen(p) => Shown(m, p)
    case IfElse(p, q) => Shown(m, p) && Shown(m, q)
    case Loop(p) => Shown(m, p)
  }

  // The kth of these instructions is an EXIT and the sweep gets to it.
  ghost predicate StopsAt(m: Memory, ip: nat, xs: seq<nat>, k: nat) {
    k < |xs| && xs[k] <= SPACE_TOP && Sweeps(m, ip, xs[..k], xs[k]) && OpcodeAt(m, xs[k]) == OP_EXIT
  }

  lemma StopsBefore(m: Memory, ip: nat, xs: seq<nat>, ys: seq<nat>, k: nat)
    requires StopsAt(m, ip, xs, k)
    ensures StopsAt(m, ip, xs + ys, k)
  {
    hide Sweeps, OpcodeAt;
    assert (xs + ys)[..k] == xs[..k];
  }

  lemma StopsAfter(m: Memory, ip: nat, xs: seq<nat>, mid: nat, ys: seq<nat>, k: nat)
    requires Sweeps(m, ip, xs, mid) && StopsAt(m, mid, ys, k)
    ensures StopsAt(m, ip, xs + ys, |xs| + k)
  {
    hide Sweeps, OpcodeAt;
    SweepsJoin(m, ip, xs, mid, ys[..k], ys[k]);
    assert (xs + ys)[..|xs| + k] == xs + ys[..k];
  }

  // With an EXIT named inside, the sweep stops at the first of them, before
  // the end of the definition.
  lemma {:induction false} SweepStops(m: Memory, c: Core, p: Body, a: nat) returns (k: nat)
    requires CodeAt(m, a, Code(c, p, a)) && CoreOps(m, c) && Shown(m, p) && !NoInnerExit(m, p)
             && a + Size(p) + 2 <= SPACE_TOP
    ensures StopsAt(m, a, Boundaries(p, a), k)
    decreases p
  {
    hide Fetch16, CodeField, CodeAt, Code, Sweeps, Size, StopsAt;
    match p
    case Plain(xt) =>
      LeafCells(m, c, p, a);
      StopsHere(m, a);
      k := 0;
    case Both(p1, p2) =>
      var b := a + Size(p1);
      BothShape(c, Keywords(0, 0, 0, 0, 0), p1, p2, a);
      CodeSplit(m, a, Code(c, p1, a), Code(c, p2, b));
      if NoInnerExit(m, p1) {
        SweepShowsCode(m, c, p1, a);
        k := SweepStops(m, c, p2, b);
        StopsAfter(m, a, Boundaries(p1, a), b, Boundaries(p2, b), k);
        k := |Boundaries(p1, a)| + k;
      } else {
        k := SweepStops(m, c, p1, a);
        StopsBefore(m, a, Boundaries(p1, a), Boundaries(p2, b), k);
      }
    case IfThen(p1) =>
      SweepIfThen(m, c, p1, a);
      k := SweepStops(m, c, p1, a + 4);
      StopsAfter(m, a, [a], a + 4, Boundaries(p1, a + 4), k);
      k := 1 + k;
    case IfElse(p1, p2) =>
      k := ElseStops(m, c, p1, p2, a);
    case Loop(p1) =>
      SweepLoop(m, c, p1, a);
      k := SweepStops(m, c, p1, a);
      StopsBefore(m, a, Boundaries(p1, a), [a + Size(p1)], k);
  }

  lemma {:induction false} ElseStops(m: Memory, c: Core, p: Body, q: Body, a: nat) returns (k: nat)
    requires CodeAt(m, a, Code(c, IfElse(p, q), a)) && CoreOps(m, c) && Shown(m, IfElse(p, q))
             && !NoInnerExit(m, IfElse(p, q))
    requires a + Size(IfElse(p, q)) + 2 <= SPACE_TOP
    ensures StopsAt(m, a, Boundaries(IfElse(p, q), a), k)
    decreases IfElse(p, q), 0
  {
    hide Fetch16, CodeField, CodeAt, Code, Sweeps, Size, StopsAt;
    var b := a + 4 + Size(p);
    var x, y := Boundaries(p, a + 4), Boundaries(q, b + 4);
    SweepIfElse(m, c, p, q, a);
    assert Boundaries(IfElse(p, q), a) == [a] + x + [b] + y;
    if NoInnerExit(m, p) {
      SweepShowsCode(m, c, p, a + 4);
      SweepsJoin(m, a, [a], a + 4, x, b);
      SweepsJoin(m, a, [a] + x, b, [b], b + 4);
      k := SweepStops(m, c, q, b + 4);
      StopsAfter(m, a, [a] + x + [b], b + 4, y, k);
      k := |[a] + x + [b]| + k;
    } else {
      k := SweepStops(m, c, p, a + 4);
      StopsAfter(m, a, [a], a + 4, x, k);
      k := 1 + k;
      StopsBefore(m, a, [a] + x, [b] + y, k);
      assert [a] + x + ([b] + y) == [a] + x + [b] + y;
    }
  }

  lemma StopsHere(m: Memory, a: nat)
    requires a <= SPACE_TOP && OpcodeAt(m, a) == OP_EXIT
    ensures StopsAt(m, a, [a], 0)
  {
    assert [a][..0] == [];
  }

  lemma {:induction false} SweptGoesOn(m: Memory, ip: nat, xs: seq<nat>, end: nat, k: nat)
    requires Sweeps(m, ip, xs, end) && k < |xs|
    ensures xs[k] <= SPACE_TOP && OpcodeAt(m, xs[k]) != OP_EXIT
    decreases xs
  {
    hide OpcodeAt;
    if k > 0 {
      SweptGoesOn(m, ip + Width(OpcodeAt(m, ip)), xs[1..], end, k - 1);
    }
  }

  // The sweep shows the whole definition if and only if no EXIT is named in it.
  lemma SweepWhole(m: Memory, c: Core, p: Body, a: nat)
    requires CodeAt(m, a, Code(c, p, a)) && CoreOps(m, c) && Shown(m, p) && a + Size(p) + 2 <= SPACE_TOP
    ensures Sweeps(m, a, Boundaries(p, a), a + Size(p)) <==> NoInnerExit(m, p)
  {
    hide Fetch16, CodeField, CodeAt, Code, Sweeps, Size, Boundaries, Shown, NoInnerExit;
    if NoInnerExit(m, p) {
      SweepShowsCode(m, c, p, a);
    } else {
      var k := SweepStops(m, c, p, a);
      if Sweeps(m, a, Boundaries(p, a), a + Size(p)) {
        SweptGoesOn(m, a, Boundaries(p, a), a + Size(p), k);
      }
    }
  }

  // The branches among the instructions at xs go to instructions at ys or to
  // `end`.
  ghost predicate Lands(m: Memory, xs: seq<nat>, ys: seq<nat>, end: nat) {
    forall x :: x in xs ==> LandsAt(m, x, ys, end)
  }

  ghost predicate LandsAt(m: Memory, x: nat, ys: seq<nat>, end: nat) {
    x + 4 <= SPACE_TOP && (Width(OpcodeAt(m, x)) == 4 && OpcodeAt(m, x) != OP_PUSH ==>
                             Fetch16(m, x + 2) as nat in ys || Fetch16(m, x + 2) == end)
  }

  lemma {:induction false} FirstBoundary(p: Body, a: nat)
    ensures if Size(p) == 0 then Boundaries(p, a) == [] else a in Boundaries(p, a)
    decreases p
  {
    match p
    case Both(p1, p2) => FirstBoundary(p1, a); FirstBoundary(p2, a + Size(p1));
    case Loop(p1) => FirstBoundary(p1, a);
    case _ =>
  }

  lemma LandsMore(m: Memory, xs: seq<nat>, ys: seq<nat>, mid: nat, zs: seq<nat>, end: nat)
    requires Lands(m, xs, ys, mid) && (mid in zs || mid == end) && forall y :: y in ys ==> y in zs
    ensures Lands(m, xs, zs, end)
  {
    hide OpcodeAt, Fetch16;
    forall x | x in xs ensures LandsAt(m, x, zs, end) {
      assert LandsAt(m, x, ys, mid);
    }
  }

  lemma LandsJoin(m: Memory, xs: seq<nat>, ys: seq<nat>, zs: seq<nat>, end: nat)
    requires Lands(m, xs, zs, end) && Lands(m, ys, zs, end)
    ensures Lands(m, xs + ys, zs, end)
  {
    hide LandsAt;
  }

  lemma LandsOne(m: Memory, x: nat, ys: seq<nat>, end: nat)
    requires x + 4 <= SPACE_TOP && (Fetch16(m, x + 2) as nat in ys || Fetch16(m, x + 2) == end)
    ensures Lands(m, [x], ys, end)
  {
  }

  // Every branch in the code of a body goes to the start of an instruction of
  // that body, or to its end.
  lemma {:induction false} JumpsLand(m: Memory, c: Core, p: Body, a: nat)
    requires CodeAt(m, a, Code(c, p, a)) && CoreOps(m, c) && Shown(m, p) && a + Size(p) + 2 <= SPACE_TOP
    ensures Lands(m, Boundaries(p, a), Boundaries(p, a), a + Size(p))
    decreases p
  {
    hide Fetch16, CodeField, CodeAt, Code, Size, Lands, CoreOps;
    var k := Keywords(0, 0, 0, 0, 0);
    var all := Boundaries(p, a);
    match p
    case Nothing => NoBranches(m, a);
    case Plain(xt) =>
      LeafCells(m, c, p, a);
      LeafLands(m, c, p, a);
    case Number(n) =>
      LeafCells(m, c, p, a);
      LeafLands(m, c, p, a);
    case Both(p1, p2) =>
      var b := a + Size(p1);
      BothShape(c, k, p1, p2, a);
      CodeSplit(m, a, Code(c, p1, a), Code(c, p2, b));
      JumpsLand(m, c, p1, a);
      JumpsLand(m, c, p2, b);
      FirstBoundary(p2, b);
      LandsMore(m, Boundaries(p1, a), Boundaries(p1, a), b, all, a + Size(p));
      LandsMore(m, Boundaries(p2, b), Boundaries(p2, b), a + Size(p), all, a + Size(p));
      LandsJoin(m, Boundaries(p1, a), Boundaries(p2, b), all, a + Size(p));
    case IfThen(p1) =>
      SweepIfThen(m, c, p1, a);
      IfThenOperand(m, c, p1, a);
      JumpsLand(m, c, p1, a + 4);
      LandsOne(m, a, all, a + Size(p));
      LandsMore(m, Boundaries(p1, a + 4), Boundaries(p1, a + 4), a + Size(p), all, a + Size(p));
      LandsJoin(m, [a], Boundaries(p1, a + 4), all, a + Size(p));
    case IfElse(p1, p2) =>
      SweepIfElse(m, c, p1, p2, a);
      JumpsLand(m, c, p1, a + 4);
      JumpsLand(m, c, p2, a + 8 + Size(p1));
      IfElseLands(m, c, p1, p2, a);
    case Loop(p1) =>
      SweepLoop(m, c, p1, a);
      JumpsLand(m, c, p1, a);
      LoopLands(m, c, p1, a);
  }

  lemma {:induction false} IfElseLands(m: Memory, c: Core, p: Body, q: Body, a: nat)
    requires CodeAt(m, a, Code(c, IfElse(p, q), a)) && Size(IfElse(p, q)) == 8 + Size(p) + Size(q)
    requires Lands(m, Boundaries(p, a + 4), Boundaries(p, a + 4), a + 4 + Size(p))
    requires Lands(m, Boundaries(q, a + 8 + Size(p)), Boundaries(q, a + 8 + Size(p)), a + Size(IfElse(p, q)))
    ensures Lands(m, Boundaries(IfElse(p, q), a), Boundaries(IfElse(p, q), a), a + Size(IfElse(p, q)))
  {
    hide Fetch16, CodeAt, Code, Size, Lands;
    var b, z := a + 4 + Size(p), a + Size(IfElse(p, q));
    var all, x, y := Boundaries(IfElse(p, q), a), Boundaries(p, a + 4), Boundaries(q, b + 4);
    assert all == [a] + x + [b] + y;
    hide Boundaries;
    IfElseOperands(m, c, p, q, a);
    FirstBoundary(q, b + 4);
    assert b + 4 in all || b + 4 == z;
    LandsOne(m, a, all, z);
    LandsOne(m, b, all, z);
    LandsMore(m, x, x, b, all, z);
    LandsMore(m, y, y, z, all, z);
    LandsJoin(m, [a], x, all, z);
    LandsJoin(m, [a] + x, [b], all, z);
    LandsJoin(m, [a] + x + [b], y, all, z);
  }

  lemma {:induction false} LoopLands(m: Memory, c: Core, p: Body, a: nat)
    requires CodeAt(m, a, Code(c, Loop(p), a)) && Size(Loop(p)) == Size(p) + 4
    requires Lands(m, Boundaries(p, a), Boundaries(p, a), a + Size(p))
    ensures Lands(m, Boundaries(Loop(p), a), Boundaries(Loop(p), a), a + Size(Loop(p)))
  {
    hide Fetch16, CodeAt, Code, Size, Lands;
    var b, z := a + Size(p), a + Size(Loop(p));
    var all, x := Boundaries(Loop(p), a), Boundaries(p, a);
    assert all == x + [b];
    hide Boundaries;
    LoopOperand(m, c, p, a);
    FirstBoundary(p, a);
    assert a in all;
    LandsOne(m, b, all, z);
    LandsMore(m, x, x, b, all, z);
    LandsJoin(m, x, [b], all, z);
  }

  lemma NoBranches(m: Memory, a: nat)
    ensures Lands(m, [], [], a) && Size(Nothing) == 0
  {
  }

  lemma {:induction false} LeafLands(m: Memory, c: Core, p: Body, a: nat)
    requires (p.Plain? || p.Number?) && CoreOps(m, c) && Shown(m, p) && a + 4 <= SPACE_TOP
    requires Fetch16(m, a) == if p.Plain? then p.xt else c.push
    ensures Lands(m, Boundaries(p, a), Boundaries(p, a), a + Size(p))
  {
    hide Fetch16, CodeField;
  }

  lemma SecondCell(m: Memory, a: nat, x: nat, y: nat, zs: seq<nat>)
    requires CodeAt(m, a, [x, y] + zs)
    ensures a + 4 <= SPACE_TOP && Fetch16(m, a + 2) == y
  {
    hide Fetch16;
    assert ([x, y] + zs)[1] == y;
    assert a + 2 * 1 == a + 2;
  }

  lemma {:induction false} IfThenOperand(m: Memory, c: Core, p: Body, a: nat)
    requires CodeAt(m, a, Code(c, IfThen(p), a))
    ensures a + 4 <= SPACE_TOP && Fetch16(m, a + 2) == a + Size(IfThen(p))
  {
    hide Fetch16, Code, Size, CodeAt;
    IfThenShape(c, Keywords(0, 0, 0, 0, 0), p, a);
    SecondCell(m, a, c.jumpIf, a + 4 + Size(p), Code(c, p, a + 4));
  }

  lemma {:induction false} IfElseOperands(m: Memory, c: Core, p: Body, q: Body, a: nat)
    requires CodeAt(m, a, Code(c, IfElse(p, q), a))
    ensures var b := a + 4 + Size(p);
            && b + 4 <= SPACE_TOP && Fetch16(m, a + 2) == b + 4 && Fetch16(m, b + 2) == a + Size(IfElse(p, q))
  {
    hide Fetch16, Code, Size, CodeAt;
    var b := a + 4 + Size(p);
    IfElseShape(c, Keywords(0, 0, 0, 0, 0), p, q, a);
    var t, u := [c.jumpIf, b + 4], [c.jump, b + 4 + Size(q)];
    assert t + Code(c, p, a + 4) + u + Code(c, q, b + 4) == t + (Code(c, p, a + 4) + u + Code(c, q, b + 4));
    SecondCell(m, a, c.jumpIf, b + 4, Code(c, p, a + 4) + u + Code(c, q, b + 4));
    assert t + Code(c, p, a + 4) + u + Code(c, q, b + 4) == (t + Code(c, p, a + 4)) + (u + Code(c, q, b + 4));
    CodeSplit(m, a, t + Code(c, p, a + 4), u + Code(c, q, b + 4));
    SecondCell(m, b, c.jump, b + 4 + Size(q), Code(c, q, b + 4));
  }

  lemma {:induction false} LoopOperand(m: Memory, c: Core, p: Body, a: nat)
    requires CodeAt(m, a, Code(c, Loop(p), a))
    ensures a + Size(p) + 4 <= SPACE_TOP && Fetch16(m, a + Size(p) + 2) == a
  {
    hide Fetch16, Code, Size, CodeAt;
    LoopShape(c, Keywords(0, 0, 0, 0, 0), p, a);
    CodeSplit(m, a, Code(c, p, a), [c.jump, a]);
    assert [c.jump, a] == [c.jump, a] + [];
    SecondCell(m, a + Size(p), c.jump, a, []);
  }

  // The loop of DECOMPILE shows what the sweep does, and the instruction it ends at.
  lemma {:induction false} SweptShows(m: Memory, ip: cell, xs: seq<nat>, end: nat, fuel: nat)
    requires Sweeps(m, ip, xs, end) && end <= SPACE_TOP && !GoesOn(OpcodeAt(m, end)) && |xs| <= fuel
    ensures SweepEnds(m, ip, fuel) && Swept(m, ip, fuel) == xs + [end]
    decreases xs
  {
    hide OpcodeAt, Width, GoesOn;
    if xs == [] {
      assert [ip] + [] == xs + [end];
    } else {
      var next := ip + Width(OpcodeAt(m, ip));
      assert Wrap(next) == next;
      SweptShows(m, next, xs[1..], end, fuel - 1);
      assert [ip] + (xs[1..] + [end]) == xs + [end];
    }
  }

  // No instruction is shorter than a cell.
  lemma {:induction false} FewBoundaries(p: Body, a: nat)
    ensures 2 * |Boundaries(p, a)| <= Size(p)
    decreases p
  {
    match p
    case Nothing =>
    case Plain(_) =>
    case Number(_) =>
    case Both(p1, p2) =>
      FewBoundaries(p1, a);
      FewBoundaries(p2, a + Size(p1));
    case IfThen(p1) =>
      FewBoundaries(p1, a + 4);
    case IfElse(p1, p2) =>
      FewBoundaries(p1, a + 4);
      FewBoundaries(p2, a + 8 + Size(p1));
    case Loop(p1) =>
      FewBoundaries(p1, a);
  }

  // DECOMPILE of a colon word shows the instructions of its body, of a word made by a
  // defining word those of its does part, each with the EXIT behind them, and only
  // takes the word from the stack.
  lemma DecompileShows(st: State, c: Core, p: Body, xt: cell, a: cell)
    requires StacksOk(st) && !Empty(st.data) && TopData(st) == xt && a > 0
    requires || (CodeField(st.mem, xt) == OP_ENTER && ParameterField(st.mem, xt) == a)
             || (CodeField(st.mem, xt) == OP_DOES_ENTER && DoesCode(st.mem, xt) == a)
    requires CodeAt(st.mem, a, Code(c, p, a) + [c.exit]) && CoreOps(st.mem, c) && NoInnerExit(st.mem, p)
    ensures Decompile(st) == Continue(DropData(st))
    ensures Swept(st.mem, SweepStart(st.mem, xt), SWEEP_LIMIT) == Boundaries(p, a) + [a as nat + Size(p)]
  {
    hide CodeField, ParameterField, DoesCode, CodeAt, Code, NoInnerExit, Sweeps, SweepEnds, Swept, Boundaries, Fetch16;
    SweepEndsAtExit(st.mem, c, p, a);
    FewBoundaries(p, a);
    SweptShows(st.mem, a, Boundaries(p, a), a + Size(p), SWEEP_LIMIT);
  }

  // Of any other word it shows nothing.
  lemma DecompileNothing(st: State)
    requires StacksOk(st) && !Empty(st.data) && CodeField(st.mem, TopData(st)) !in {OP_ENTER, OP_DOES_ENTER}
    ensures Decompile(st) == Continue(DropData(st)) && SweepStart(st.mem, TopData(st)) == 0
  {
  }
}
