// Structured source for the first system: well-nested bodies of definitions, the
// tokens they are written as, and the byte code they should become.
module ByteSource {
  import opened Dataspace
  import opened ByteState
  import opened ByteWords
  import opened ByteCompile

  // Loop is BEGIN ... AGAIN.
  datatype Body =
    | Nothing
    | Use(xt: cell)
    | Value(n: cell)
    | Both(first: Body, second: Body)
    | IfThen(yes: Body)
    | IfElse(yes: Body, no: Body)
    | Loop(body: Body)

  function Tokens(p: Body): seq<Token> {
    match p
    case Nothing => []
    case Use(xt) => [Word(xt)]
    case Value(n) => [Number(n)]
    case Both(p, q) => Tokens(p) + Tokens(q)
    case IfThen(p) => [TokIf] + Tokens(p) + [TokThen]
    case IfElse(p, q) => [TokIf] + Tokens(p) + [TokElse] + Tokens(q) + [TokThen]
    case Loop(p) => [TokBegin] + Tokens(p) + [TokAgain]
  }

  // Control structures nested in one another.
  function Nest(p: Body): nat {
    match p
    case Nothing => 0
    case Use(_) => 0
    case Value(_) => 0
    case Both(p, q) => if Nest(p) < Nest(q) then Nest(q) else Nest(p)
    case IfThen(p) => 1 + Nest(p)
    case IfElse(p, q) => 1 + if Nest(p) < Nest(q) then Nest(q) else Nest(p)
    case Loop(p) => 1 + Nest(p)
  }

  // What a word is compiled to, by its header in m: its byte code, or a call of its
  // code.
  function Named(m: Memory, xt: cell): byte {
    if IsInstruction(m, xt) then Fetch8(m, Wrap(xt + H_SEMANTICS)) else ENTER
  }

  function Called(m: Memory, xt: cell): cell {
    Wrap(CodeStart(m, xt))
  }

  function Low(v: int): byte {
    Wrap(v) % 0x100
  }

  function High(v: int): byte {
    Wrap(v) / 0x100
  }

  function Operand(op: byte, v: int): seq<byte> {
    [op, Low(v), High(v)]
  }

  function UseSize(m: Memory, xt: cell): nat {
    if IsInstruction(m, xt) then 1 else 3
  }

  // Bytes of code.
  function Size(m: Memory, p: Body): nat {
    match p
    case Nothing => 0
    case Use(xt) => UseSize(m, xt)
    case Value(_) => 3
    case Both(p, q) => Size(m, p) + Size(m, q)
    case IfThen(p) => 4 + Size(m, p)
    case IfElse(p, q) => 7 + Size(m, p) + Size(m, q)
    case Loop(p) => 4 + Size(m, p)
  }

  // The code of p placed at a: every jump goes where the structure says, a THEN to
  // the NOP it lays, an ELSE behind its own jump.
  function Code(m: Memory, p: Body, a: nat): (code: seq<byte>)
    ensures |code| == Size(m, p)
    decreases p
  {
    match p
    case Nothing => []
    case Use(xt) => if IsInstruction(m, xt) then [Named(m, xt)] else Operand(ENTER, Called(m, xt))
    case Value(n) => Operand(LDN, n)
    case Both(p, q) => Code(m, p, a) + Code(m, q, a + Size(m, p))
    case IfThen(p) => Operand(JMP_FALSE, a + 3 + Size(m, p)) + Code(m, p, a + 3) + [NOP]
    case IfElse(p, q) =>
      var no := a + 6 + Size(m, p);
      Fork(no, Code(m, p, a + 3), no + Size(m, q), Code(m, q, no))
    case Loop(p) => [NOP] + Code(m, p, a + 1) + Operand(JMP, a)
  }

  function Fork(no: nat, x: seq<byte>, end: nat, y: seq<byte>): (r: seq<byte>)
    ensures |r| == |x| + |y| + 7
  {
    Operand(JMP_FALSE, no) + x + Operand(JMP, end) + y + [NOP]
  }

  // The headers of the words p names lie between the variables and bound.
  predicate Known(m: Memory, bound: int, p: Body) {
    match p
    case Nothing => true
    case Use(xt) => DICTIONARY_START <= xt && xt + H_SIZE <= bound
    case Value(_) => true
    case Both(p, q) => Known(m, bound, p) && Known(m, bound, q)
    case IfThen(p) => Known(m, bound, p)
    case IfElse(p, q) => Known(m, bound, p) && Known(m, bound, q)
    case Loop(p) => Known(m, bound, p)
  }

  lemma SameWord(m: Memory, n: Memory, bound: int, xt: cell)
    requires SameOn(m, n, DICTIONARY_START, bound) && bound <= SPACE_TOP
    requires DICTIONARY_START <= xt && xt + H_SIZE <= bound
    ensures Named(n, xt) == Named(m, xt) && Called(n, xt) == Called(m, xt) && UseSize(n, xt) == UseSize(m, xt)
    ensures IsInstruction(n, xt) == IsInstruction(m, xt) && CodeStart(n, xt) == CodeStart(m, xt)
  {
    HeaderSame(m, n, xt, bound);
  }

  // Code and size of each structure, unfolded once.

  lemma {:induction false} BothShape(m: Memory, p: Body, q: Body, a: nat)
    ensures Size(m, Both(p, q)) == Size(m, p) + Size(m, q)
    ensures Code(m, Both(p, q), a) == Code(m, p, a) + Code(m, q, a + Size(m, p))
  {
  }

  lemma {:induction false} IfThenShape(m: Memory, p: Body, a: nat)
    ensures Size(m, IfThen(p)) == 4 + Size(m, p)
    ensures Code(m, IfThen(p), a) == Operand(JMP_FALSE, a + 3 + Size(m, p)) + Code(m, p, a + 3) + [NOP]
  {
  }

  lemma {:induction false} IfElseShape(m: Memory, p: Body, q: Body, a: nat)
    ensures Size(m, IfElse(p, q)) == 7 + Size(m, p) + Size(m, q)
    ensures var no := a + 6 + Size(m, p);
            Code(m, IfElse(p, q), a)
            == Operand(JMP_FALSE, no) + Code(m, p, a + 3) + Operand(JMP, no + Size(m, q)) + Code(m, q, no) + [NOP]
  {
    hide Operand, Named, Called, UseSize, IsInstruction;
    var no := a + 6 + Size(m, p);
    assert Code(m, IfElse(p, q), a) == Fork(no, Code(m, p, a + 3), no + Size(m, q), Code(m, q, no)) by {
      hide Fork;
    }
  }

  lemma {:induction false} LoopShape(m: Memory, p: Body, a: nat)
    ensures Size(m, Loop(p)) == 4 + Size(m, p)
    ensures Code(m, Loop(p), a) == [NOP] + Code(m, p, a + 1) + Operand(JMP, a)
  {
  }

  // What p is compiled to depends on nothing but those headers.
  lemma {:induction false} SameCode(m: Memory, n: Memory, bound: int, p: Body, a: nat)
    requires SameOn(m, n, DICTIONARY_START, bound) && bound <= SPACE_TOP && Known(m, bound, p)
    ensures Known(n, bound, p) && Size(n, p) == Size(m, p) && Code(n, p, a) == Code(m, p, a)
    decreases p
  {
    hide Size, Code, SameOn;
    match p
    case Both(p1, p2) =>
      SameCode(m, n, bound, p1, a);
      SameCode(m, n, bound, p2, a + Size(m, p1));
      BothShape(m, p1, p2, a);
      BothShape(n, p1, p2, a);
    case IfThen(p1) =>
      SameCode(m, n, bound, p1, a + 3);
      IfThenShape(m, p1, a);
      IfThenShape(n, p1, a);
    case IfElse(p1, p2) =>
      SameCode(m, n, bound, p1, a + 3);
      SameCode(m, n, bound, p2, a + 6 + Size(m, p1));
      IfElseShape(m, p1, p2, a);
      IfElseShape(n, p1, p2, a);
    case Loop(p1) =>
      SameCode(m, n, bound, p1, a + 1);
      LoopShape(m, p1, a);
      LoopShape(n, p1, a);
    case _ => SameLeaf(m, n, bound, p, a);
  }

  lemma SameLeaf(m: Memory, n: Memory, bound: int, p: Body, a: nat)
    requires SameOn(m, n, DICTIONARY_START, bound) && bound <= SPACE_TOP && Known(m, bound, p)
    requires p.Nothing? || p.Use? || p.Value?
    ensures Known(n, bound, p) && Size(n, p) == Size(m, p) && Code(n, p, a) == Code(m, p, a)
  {
    hide SameOn, CodeStart, IsInstruction;
    if p.Use? { SameWord(m, n, bound, p.xt); }
  }

  lemma {:induction false} KnownMore(m: Memory, bound: int, bound': int, p: Body)
    requires Known(m, bound, p) && bound <= bound'
    ensures Known(m, bound', p)
    decreases p
  {
    hide CodeStart;
    match p
    case Both(p1, p2) =>
      KnownMore(m, bound, bound', p1);
      KnownMore(m, bound, bound', p2);
    case IfThen(p1) => KnownMore(m, bound, bound', p1);
    case IfElse(p1, p2) =>
      KnownMore(m, bound, bound', p1);
      KnownMore(m, bound, bound', p2);
    case Loop(p1) => KnownMore(m, bound, bound', p1);
    case _ =>
  }

  // These bytes stand at a.
  predicate CodeAt(m: Memory, a: int, code: seq<byte>) {
    0 <= a && a + |code| <= SPACE_TOP && m[a..a + |code|] == code
  }

  lemma CodeSplit(m: Memory, a: int, x: seq<byte>, y: seq<byte>)
    ensures CodeAt(m, a, x + y) <==> CodeAt(m, a, x) && CodeAt(m, a + |x|, y)
  {
    if 0 <= a && a + |x + y| <= SPACE_TOP {
      var b := a + |x|;
      assert m[a..a + |x + y|] == m[a..b] + m[b..b + |y|];
      if CodeAt(m, a, x + y) {
        assert m[a..b] == m[a..a + |x + y|][..|x|] == x;
        assert m[b..b + |y|] == m[a..a + |x + y|][|x|..] == y;
      }
    }
  }

  lemma CodeFrame(m: Memory, n: Memory, a: int, code: seq<byte>)
    requires CodeAt(m, a, code) && SameOn(m, n, a, a + |code|)
    ensures CodeAt(n, a, code)
  {
  }
}
