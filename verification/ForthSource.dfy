// Structured FORTH source: well-nested bodies of colon definitions, the tokens
// they are written as, and the threaded code they should become.
module ForthSource {
  import opened Dataspace
  import opened ForthState
  import opened ForthWords

  // Plain(xt) is a non-immediate dictionary word, Loop is BEGIN ... AGAIN.
  datatype Body =
    | Nothing
    | Plain(xt: cell)
    | Number(n: cell)
    | Both(first: Body, second: Body)
    | IfThen(yes: Body)
    | IfElse(yes: Body, no: Body)
    | Loop(body: Body)

  // The run-time words the compiler looks up by opcode.
  datatype Core = Core(push: cell, jump: cell, jumpIf: cell, exit: cell)

  // The immediate words that spell the control structures.
  datatype Keywords = Keywords(kif: cell, kelse: cell, kthen: cell, kbegin: cell, kagain: cell)

  datatype Token = Entry(xt: cell) | Numeral(n: cell)

  function Tokens(k: Keywords, p: Body): seq<Token> {
    match p
    case Nothing => []
    case Plain(xt) => [Entry(xt)]
    case Number(n) => [Numeral(n)]
    case Both(p, q) => Tokens(k, p) + Tokens(k, q)
    case IfThen(p) => [Entry(k.kif)] + Tokens(k, p) + [Entry(k.kthen)]
    case IfElse(p, q) =>
      [Entry(k.kif)] + Tokens(k, p) + [Entry(k.kelse)] + Tokens(k, q) + [Entry(k.kthen)]
    case Loop(p) => [Entry(k.kbegin)] + Tokens(k, p) + [Entry(k.kagain)]
  }

  // Control structures nested in one another.
  function Nesting(p: Body): nat {
    match p
    case Nothing => 0
    case Plain(_) => 0
    case Number(_) => 0
    case Both(p, q) => if Nesting(p) < Nesting(q) then Nesting(q) else Nesting(p)
    case IfThen(p) => 1 + Nesting(p)
    case IfElse(p, q) => 1 + if Nesting(p) < Nesting(q) then Nesting(q) else Nesting(p)
    case Loop(p) => 1 + Nesting(p)
  }

  // The threaded code of p placed at address a: every branch operand is the
  // address the structure says.
  function Code(c: Core, p: Body, a: nat): (code: seq<nat>)
    ensures 2 * |code| == Size(p)
    decreases p
  {
    match p
    case Nothing => []
    case Plain(xt) => [xt]
    case Number(n) => [c.push, n]
    case Both(p, q) => Code(c, p, a) + Code(c, q, a + Size(p))
    case IfThen(p) => [c.jumpIf, a + 4 + Size(p)] + Code(c, p, a + 4)
    case IfElse(p, q) =>
      Fork(c, a + 8 + Size(p), Code(c, p, a + 4), a + 8 + Size(p) + Size(q), Code(c, q, a + 8 + Size(p)))
    case Loop(p) => Code(c, p, a) + [c.jump, a]
  }

  // Two branches, each behind a jump over it.
  function Fork(c: Core, no: nat, x: seq<nat>, end: nat, y: seq<nat>): (r: seq<nat>)
    ensures |r| == |x| + |y| + 4
  {
    [c.jumpIf, no] + x + [c.jump, end] + y
  }

  // Bytes of code.
  function Size(p: Body): nat {
    match p
    case Nothing => 0
    case Plain(_) => 2
    case Number(_) => 4
    case Both(p, q) => Size(p) + Size(q)
    case IfThen(p) => 4 + Size(p)
    case IfElse(p, q) => 8 + Size(p) + Size(q)
    case Loop(p) => Size(p) + 4
  }

  // Tokens and code of each structure, unfolded once.

  lemma {:induction false} BothShape(c: Core, k: Keywords, p: Body, q: Body, a: nat)
    ensures Size(Both(p, q)) == Size(p) + Size(q)
    ensures Tokens(k, Both(p, q)) == Tokens(k, p) + Tokens(k, q)
    ensures Code(c, Both(p, q), a) == Code(c, p, a) + Code(c, q, a + Size(p))
  {
  }

  lemma {:induction false} IfThenShape(c: Core, k: Keywords, p: Body, a: nat)
    ensures Size(IfThen(p)) == 4 + Size(p)
    ensures Tokens(k, IfThen(p)) == [Entry(k.kif)] + Tokens(k, p) + [Entry(k.kthen)]
    ensures Code(c, IfThen(p), a) == [c.jumpIf, a + 4 + Size(p)] + Code(c, p, a + 4)
  {
  }

  lemma {:induction false} IfElseShape(c: Core, k: Keywords, p: Body, q: Body, a: nat)
    ensures Size(IfElse(p, q)) == 8 + Size(p) + Size(q)
    ensures Tokens(k, IfElse(p, q)) ==
            [Entry(k.kif)] + Tokens(k, p) + [Entry(k.kelse)] + Tokens(k, q) + [Entry(k.kthen)]
    ensures Code(c, IfElse(p, q), a) ==
            [c.jumpIf, a + 8 + Size(p)] + Code(c, p, a + 4)
            + [c.jump, a + 8 + Size(p) + Size(q)] + Code(c, q, a + 8 + Size(p))
  {
    IfElseTokens(k, p, q);
    IfElseCells(c, p, q, a);
    hide Tokens, Code;
  }

  lemma {:induction false} IfElseTokens(k: Keywords, p: Body, q: Body)
    ensures Tokens(k, IfElse(p, q)) ==
            [Entry(k.kif)] + Tokens(k, p) + [Entry(k.kelse)] + Tokens(k, q) + [Entry(k.kthen)]
  {
  }

  lemma {:induction false} IfElseFork(c: Core, p: Body, q: Body, a: nat)
    ensures Code(c, IfElse(p, q), a) ==
            Fork(c, a + 8 + Size(p), Code(c, p, a + 4), a + 8 + Size(p) + Size(q), Code(c, q, a + 8 + Size(p)))
  {
    hide Fork;
  }

  lemma {:induction false} IfElseCells(c: Core, p: Body, q: Body, a: nat)
    ensures Code(c, IfElse(p, q), a) ==
            [c.jumpIf, a + 8 + Size(p)] + Code(c, p, a + 4)
            + [c.jump, a + 8 + Size(p) + Size(q)] + Code(c, q, a + 8 + Size(p))
  {
    IfElseFork(c, p, q, a);
    hide Code, Size;
  }

  lemma {:induction false} LoopShape(c: Core, k: Keywords, p: Body, a: nat)
    ensures Size(Loop(p)) == Size(p) + 4
    ensures Tokens(k, Loop(p)) == [Entry(k.kbegin)] + Tokens(k, p) + [Entry(k.kagain)]
    ensures Code(c, Loop(p), a) == Code(c, p, a) + [c.jump, a]
  {
  }

  // Memory holds these cells from address a on.
  ghost predicate CodeAt(m: Memory, a: nat, code: seq<nat>) {
    && a + 2 * |code| <= SPACE_TOP
    && forall i :: 0 <= i < |code| ==> Fetch16(m, a + 2 * i) == code[i]
  }

  lemma CodeSplit(m: Memory, a: nat, x: seq<nat>, y: seq<nat>)
    ensures CodeAt(m, a, x + y) <==> CodeAt(m, a, x) && CodeAt(m, a + 2 * |x|, y)
  {
    hide Fetch16;
    if CodeAt(m, a, x + y) {
      forall i | 0 <= i < |x| ensures Fetch16(m, a + 2 * i) == x[i] {
        assert (x + y)[i] == x[i];
      }
      forall i | 0 <= i < |y| ensures Fetch16(m, a + 2 * |x| + 2 * i) == y[i] {
        assert (x + y)[|x| + i] == y[i];
      }
    }
    if CodeAt(m, a, x) && CodeAt(m, a + 2 * |x|, y) {
      forall i | 0 <= i < |x + y| ensures Fetch16(m, a + 2 * i) == (x + y)[i] {
        if i >= |x| {
          assert y[i - |x|] == Fetch16(m, a + 2 * |x| + 2 * (i - |x|));
        }
      }
    }
  }

  lemma CodeFrame(m: Memory, n: Memory, a: nat, code: seq<nat>)
    requires CodeAt(m, a, code) && SameOn(m, n, a, a + 2 * |code|)
    ensures CodeAt(n, a, code)
  {
    hide Fetch16;
    forall i | 0 <= i < |code| ensures Fetch16(n, a + 2 * i) == code[i] {
      FetchSame(m, n, a, a + 2 * |code|, a + 2 * i);
    }
  }

  // A header is the same where its bytes are.
  lemma HeaderKept(m: Memory, n: Memory, lo: int, hi: int, e: cell)
    requires SameOn(m, n, lo, hi) && 0 <= lo <= e && e + DE_SIZE_MIN <= hi <= SIZE
    ensures Previous(n, e) == Previous(m, e) && CodeField(n, e) == CodeField(m, e) && DoesCode(n, e) == DoesCode(m, e)
    ensures NameCount(n, e) == NameCount(m, e) && ParameterField(n, e) == ParameterField(m, e)
    ensures FlagsByte(n, e) == FlagsByte(m, e) && IsImmediate(n, e) == IsImmediate(m, e)
  {
    hide Fetch16, SameOn, Align;
    FetchSame(m, n, lo, hi, e);
    FetchSame(m, n, lo, hi, e + DE_CODE_FIELD);
    FetchSame(m, n, lo, hi, e + DE_CODE_FIELD + 2);
    FetchSame(m, n, lo, hi, e + DE_DOES_CODE);
    ByteSame(m, n, lo, hi, e + DE_NAME);
    ByteSame(m, n, lo, hi, e + DE_FLAGS);
  }

  // The dictionary chain from entry h: every header and name lies between the
  // system variables and the entry that comes after it, so links go down.
  ghost predicate Chain(m: Memory, h: cell, bound: int)
    decreases h
  {
    && SYSTEM_END <= h && NameCount(m, h) < 0x80 && h + DE_NAME + 1 + NameCount(m, h) <= bound <= SPACE_TOP
    && h + DE_SIZE_MIN <= bound
    && (Previous(m, h) == 0 || (Previous(m, h) < h && Chain(m, Previous(m, h), h)))
  }

  lemma ChainBound(m: Memory, h: cell, bound: int)
    requires Chain(m, h, bound)
    ensures SYSTEM_END <= h < bound <= SPACE_TOP
  {
  }

  lemma {:induction false} ChainFrame(m: Memory, n: Memory, h: cell, bound: int)
    requires Chain(m, h, bound) && SameOn(m, n, SYSTEM_END, bound)
    ensures Chain(n, h, bound)
    decreases h
  {
    hide Previous, NameCount;
    HeaderKept(m, n, SYSTEM_END, bound, h);
    if Previous(m, h) != 0 {
      ChainFrame(m, n, Previous(m, h), h);
    }
  }

  lemma {:induction false} FindOpcodeFrame(m: Memory, n: Memory, h: cell, bound: int, op: nat)
    requires Chain(m, h, bound) && SameOn(m, n, SYSTEM_END, bound)
    ensures FindOpcode(n, h, op) == FindOpcode(m, h, op) && !FindOpcode(m, h, op).Cyclic?
    decreases h
  {
    hide Previous, CodeField, NameCount;
    HeaderKept(m, n, SYSTEM_END, bound, h);
    if Previous(m, h) != 0 {
      FindOpcodeFrame(m, n, Previous(m, h), h, op);
    }
  }
}
