// One turn of the first system's INTERPRET, from its own byte code: what it does with
// the next name of the input.
module ByteTurn {
  import opened Dataspace
  import opened Letters
  import opened Numerals
  import opened ByteState
  import opened ByteWords
  import opened ByteCompile
  import opened ByteBootstrap
  import opened ByteSource
  import opened ByteMeaning
  import opened ByteRun
  import opened ByteEffect
  import opened ByteInterpret
  import opened ByteStorage
  import opened ByteAnswers

  // Where a machine is that started in `from`: memory below the stacks is m, s is on the
  // data stack, and nothing else has changed.
  ghost predicate On(from: State, u: State, m: Memory, s: seq<cell>)
    requires StacksOk(from)
  {
    Running(u, m) && SameFrame(from, u) && DataOf(u) == s
  }

  // The result of some code is such a machine at ip.
  ghost predicate Came(from: State, r: Result, m: Memory, s: seq<cell>, ip: int)
    requires StacksOk(from)
  {
    r.Normal? && On(from, r.st, m, s) && r.st.ip == ip
  }

  // The code of p stands at a.
  ghost predicate InCode(code: Memory, b: cell, p: Body, a: int) {
    DICTIONARY_START <= a && a + Size(code, p) <= b <= SPACE_TOP && CodeAt(code, a, Code(code, p, a))
  }

  function One(t: Token): Body {
    if t.Word? then Use(t.xt) else if t.Number? then Value(t.n) else Nothing
  }

  // A result whose end goes on at z.
  function Landed(r: Result, z: int): Result {
    match r
    case Normal(t) => Normal(At(t, z))
    case r => r
  }

  lemma LandedTwice(r: Result, y: int, z: int)
    ensures Landed(Landed(r, y), z) == Landed(r, z)
  {
  }

  lemma OnOn(from: State, u: State, v: State, m: Memory, n: Memory, s: seq<cell>, t: seq<cell>)
    requires StacksOk(from) && On(from, u, m, s) && On(u, v, n, t)
    ensures On(from, v, n, t)
  {
    hide Running, DataOf, ReturnOf, ControlOf;
  }

  lemma OnMoved(from: State, u: State, m: Memory, s: seq<cell>, a: int)
    requires StacksOk(from) && On(from, u, m, s)
    ensures On(from, At(u, a), m, s)
  {
    Moved(u, m, a);
    hide Running, DataOf, ReturnOf, ControlOf;
  }

  // Lines of words.

  lemma LineCode(code: Memory, b: cell, p: Body, q: Body, a: int)
    requires InCode(code, b, Both(p, q), a)
    ensures InCode(code, b, p, a) && InCode(code, b, q, a + Size(code, p))
    ensures Size(code, Both(p, q)) == Size(code, p) + Size(code, q)
  {
    hide Code, Size, CodeAt;
    BothShape(code, p, q, a);
    CodeSplit(code, a, Code(code, p, a), Code(code, q, a + Size(code, p)));
  }

  // A body that the list semantics knows.
  lemma BodyGoes(u: State, code: Memory, b: cell, w: Words, p: Body, m: Memory, s: seq<cell>, fuel: nat)
    requires Vocabulary(code, w, b) && Running(u, m) && Over(code, m, b) && InCode(code, b, p, u.ip)
    requires BodyEffect(code, m, w, p, DataOf(u), |ReturnOf(u)|, fuel) == Gives(s)
    ensures Intact(code, b, u) && Came(u, Mean(code, b, w, Real, p, u, fuel), m, s, u.ip + Size(code, p))
  {
    hide Fetch16, SameOn, Code, CodeAt, Size, Vocabulary, Running, DataOf, ReturnOf, ControlOf, BodyEffect, Intact;
    hide Over;
    hide Mean, Came;
    RunningOk(u, m);
    RunningIntact(u, code, m, b);
    BodyAgrees(u, code, m, b, w, Real, p, u.ip, fuel);
    WrapSum(u.ip, 0, Size(code, p));
    GivesCame(u, Mean(code, b, w, Real, p, u, fuel), m, s, u.ip + Size(code, p), code, b);
  }

  lemma GivesCame(u: State, r: Result, m: Memory, s: seq<cell>, z: int, code: Memory, b: cell)
    requires StacksOk(u) && Agrees(u, m, r, Gives(s)) && Proper(code, b, u, r, Wrap(z)) && 0 <= z < SIZE
    ensures Came(u, r, m, s, z)
  {
    hide Running, SameFrame, DataOf;
  }

  // A line, and one more word of any kind.
  lemma LineBy(st: State, code: Memory, b: cell, w: Words, ts: seq<Token>, t: Token, m: Memory, s: seq<cell>, n: Memory,
      s': seq<cell>, fuel: nat)
    requires StacksOk(st) && Intact(code, b, st) && InCode(code, b, Line(ts + [t]), st.ip)
    requires Came(st, Mean(code, b, w, Real, Line(ts), st, fuel), m, s, st.ip + Size(code, Line(ts)))
    requires var u := Mean(code, b, w, Real, Line(ts), st, fuel).st;
             && StacksOk(u) && Intact(code, b, u)
             && Came(u, Mean(code, b, w, Real, One(t), u, fuel), n, s', u.ip + Size(code, One(t)))
    ensures Came(st, Mean(code, b, w, Real, Line(ts + [t]), st, fuel), n, s', st.ip + Size(code, Line(ts + [t])))
  {
    hide Fetch16, SameOn, Code, CodeAt, Size, Running, DataOf, ReturnOf, ControlOf, Intact;
    hide Mean, One;
    LineShape(ts, t);
    hide Line;
    LineCode(code, b, Line(ts), One(t), st.ip);
    var u := Mean(code, b, w, Real, Line(ts), st, fuel).st;
    BothMeans(code, b, w, Line(ts), One(t), st, fuel);
    OnOn(st, u, Mean(code, b, w, Real, One(t), u, fuel).st, m, n, s, s');
  }

  // The code of a line, word by word.
  lemma LinePart(code: Memory, b: cell, ts: seq<Token>, t: Token, a: int)
    requires InCode(code, b, Line(ts + [t]), a)
    ensures InCode(code, b, Line(ts), a) && InCode(code, b, One(t), a + Size(code, Line(ts)))
    ensures Size(code, Line(ts + [t])) == Size(code, Line(ts)) + Size(code, One(t))
  {
    hide Code, Size, CodeAt, One;
    LineShape(ts, t);
    hide Line;
    LineCode(code, b, Line(ts), One(t), a);
  }

  lemma EffectMore(code: Memory, m: Memory, w: Words, ts: seq<Token>, t: Token, s: seq<cell>, depth: nat, fuel: nat)
    ensures BodyEffect(code, m, w, Line(ts + [t]), s, depth, fuel) ==
            match BodyEffect(code, m, w, Line(ts), s, depth, fuel)
            case Gives(r) => BodyEffect(code, m, w, One(t), r, depth, fuel)
            case e => e
  {
    LineShape(ts, t);
    hide Line, One, UseEffect, LoopEffect;
  }

  lemma EffectNone(code: Memory, m: Memory, w: Words, s: seq<cell>, depth: nat, fuel: nat)
    ensures BodyEffect(code, m, w, Line([]), s, depth, fuel) == Gives(s)
  {
  }

  lemma LineShape(ts: seq<Token>, t: Token)
    ensures Line(ts + [t]) == Both(Line(ts), One(t))
  {
    assert (ts + [t])[..|ts|] == ts;
  }

  lemma BothMeans(code: Memory, b: cell, w: Words, p: Body, q: Body, st: State, fuel: nat)
    requires StacksOk(st) && Intact(code, b, st)
    ensures Mean(code, b, w, Real, Both(p, q), st, fuel) ==
            match Mean(code, b, w, Real, p, st, fuel)
            case Normal(t) => Mean(code, b, w, Real, q, t, fuel)
            case r => r
  {
    hide Fetch16, Intact, MeanCode, MeanThen, MeanFork, MeanLoop, Perform;
  }

  // What the words of a turn do to the list of values.

  ghost predicate Codes(code: Memory, at: seq<cell>) {
    |at| == |CORE| == 34 && forall i :: 0 <= i < 34 ==> IsInstruction(code, at[i]) && Named(code, at[i]) == CORE[i].op
  }

  // What is asked of the system: its code is that of INTERPRET's words and STATE.
  ghost predicate Working(code: Memory, b: cell, w: Words, at: seq<cell>, state: cell) {
    && Codes(code, at) && Vocabulary(code, w, b) && !IsInstruction(code, state)
    && Called(code, state) in w && w[Called(code, state)] == Value(LOC_STATE)
  }

  lemma FirstOps()
    ensures |CORE| == 34 && CORE[0].op == HALT && CORE[2].op == FETCH && CORE[6].op == DUP && CORE[7].op == DROP
    ensures CORE[8].op == EQUAL && CORE[9].op == EMIT && CORE[11].op == NOP
  {
  }

  lemma MiddleOps()
    ensures |CORE| == 34 && CORE[21].op == PARSE_NAME && CORE[22].op == PREMAIN && CORE[23].op == PACCEPT
    ensures CORE[24].op == CR && CORE[25].op == COMPILE && CORE[26].op == EXECUTE
  {
  }

  lemma LastOps()
    ensures |CORE| == 34 && CORE[27].op == FIND2 && CORE[28].op == PNUM && CORE[29].op == OVER
    ensures CORE[30].op == SWAP && CORE[33].op == LITERAL
  {
  }

  lemma Coded(code: Memory, at: seq<cell>)
    requires Codes(code, at)
    ensures |at| == 34 && forall i :: 0 <= i < 34 ==> IsInstruction(code, at[i])
    ensures Named(code, at[0]) == HALT && Named(code, at[2]) == FETCH && Named(code, at[6]) == DUP
    ensures Named(code, at[7]) == DROP && Named(code, at[8]) == EQUAL && Named(code, at[9]) == EMIT
    ensures Named(code, at[11]) == NOP && Named(code, at[21]) == PARSE_NAME && Named(code, at[22]) == PREMAIN
    ensures Named(code, at[23]) == PACCEPT && Named(code, at[24]) == CR && Named(code, at[25]) == COMPILE
    ensures Named(code, at[26]) == EXECUTE && Named(code, at[27]) == FIND2 && Named(code, at[28]) == PNUM
    ensures Named(code, at[29]) == OVER && Named(code, at[30]) == SWAP && Named(code, at[33]) == LITERAL
  {
    hide IsInstruction, Named, CORE;
    FirstOps();
    MiddleOps();
    LastOps();
  }

  lemma CodeGives(code: Memory, m: Memory, w: Words, xt: cell, s: seq<cell>, depth: nat, fuel: nat)
    requires IsInstruction(code, xt) && Named(code, xt) != EXECUTE
    ensures BodyEffect(code, m, w, Use(xt), s, depth, fuel) == CodeEffect(m, Named(code, xt), s, depth)
  {
    hide IsInstruction, Named, CodeEffect;
  }

  lemma TopMoves(m: Memory, r: seq<cell>, x: cell, depth: nat)
    ensures CodeEffect(m, DROP, r + [x], depth) == Gives(r) && CodeEffect(m, EMIT, r + [x], depth) == Gives(r)
    ensures |r| + 2 <= DATA_DEPTH ==> CodeEffect(m, DUP, r + [x], depth) == Gives(r + [x, x])
    ensures x + 2 <= SPACE_TOP ==> CodeEffect(m, FETCH, r + [x], depth) == Gives(r + [Fetch16(m, x)])
  {
    hide Fetch16;
    assert Front(r + [x]) == r && Last(r + [x]) == x;
    assert r + [x] + [x] == r + [x, x];
  }

  lemma PairMoves(m: Memory, r: seq<cell>, x: cell, y: cell, depth: nat)
    ensures CodeEffect(m, SWAP, r + [x, y], depth) == Gives(r + [y, x])
    ensures CodeEffect(m, EQUAL, r + [x, y], depth) == Gives(r + [if x == y then 0xFFFF else 0])
    ensures |r| + 3 <= DATA_DEPTH ==> CodeEffect(m, OVER, r + [x, y], depth) == Gives(r + [x, y, x])
  {
    var s := r + [x, y];
    assert s[..|s| - 2] == r && s[|s| - 2] == x && s[|s| - 1] == y;
    assert r + [x, y] + [x] == r + [x, y, x];
  }

  // STATE pushes its address.
  lemma StateGives(code: Memory, b: cell, m: Memory, w: Words, at: seq<cell>, state: cell, s: seq<cell>, depth: nat,
      fuel: nat)
    requires Working(code, b, w, at, state) && |s| < DATA_DEPTH && depth < RETURN_DEPTH && fuel > 0
    ensures BodyEffect(code, m, w, Use(state), s, depth, fuel) == Gives(s + [LOC_STATE])
  {
    hide IsInstruction, Called, Codes, Vocabulary;
    var z := Called(code, state);
    assert BodyEffect(code, m, w, Value(LOC_STATE), s, depth + 1, fuel - 1) == Gives(s + [LOC_STATE]);
    assert CallEffect(code, m, w, w[z], s, depth, fuel) == Gives(s + [LOC_STATE]);
    assert UseEffect(code, m, w, state, s, depth, fuel) == Gives(s + [LOC_STATE]);
  }

  // Branches: after x has left v on the stack, u is where the branch taken starts.
  lemma ForkGoes(st: State, code: Memory, b: cell, w: Words, x: Body, p: Body, q: Body, m: Memory, s: seq<cell>,
      v: cell, fuel: nat)
    returns (u: State)
    requires Vocabulary(code, w, b) && StacksOk(st) && Intact(code, b, st) && Over(code, m, b)
    requires InCode(code, b, Both(x, IfElse(p, q)), st.ip)
    requires Came(st, Mean(code, b, w, Real, x, st, fuel), m, s + [v], st.ip + Size(code, x))
    ensures On(st, u, m, s) && StacksOk(u) && Intact(code, b, u)
    ensures InCode(code, b, if v != 0 then p else q, u.ip)
    ensures Mean(code, b, w, Real, Both(x, IfElse(p, q)), st, fuel)
            == Landed(Mean(code, b, w, Real, if v != 0 then p else q, u, fuel),
                      st.ip + Size(code, Both(x, IfElse(p, q))))
  {
    hide Fetch16, SameOn, Code, CodeAt, Size, Vocabulary, DataOf, ReturnOf, ControlOf, Intact, Over, Running, Mean;
    hide PopData, StacksOk;
    LineCode(code, b, x, IfElse(p, q), st.ip);
    var t := Mean(code, b, w, Real, x, st, fuel).st;
    RunningIntact(t, code, m, b);
    RunningOk(t, m);
    BothMeans(code, b, w, x, IfElse(p, q), st, fuel);
    BranchCode(code, b, p, q, t.ip);
    Pops1(t, m);
    assert Last(s + [v]) == v && Front(s + [v]) == s;
    var d := PopData(t).st;
    u := At(d, if v != 0 then t.ip + 3 else t.ip + 6 + Size(code, p));
    WrapSum(t.ip, 0, if v != 0 then 3 else 6 + Size(code, p));
    OnOn(st, t, d, m, m, s + [v], s);
    RunningIntact(d, code, m, b);
    OnMoved(st, d, m, s, u.ip);
    RunningOk(u, m);
    RunningIntact(u, code, m, b);
    ForkMeans(t, d, v, code, b, w, p, q, fuel);
  }

  lemma BranchCode(code: Memory, b: cell, p: Body, q: Body, a: int)
    requires InCode(code, b, IfElse(p, q), a)
    ensures InCode(code, b, p, a + 3) && InCode(code, b, q, a + 6 + Size(code, p))
    ensures Size(code, IfElse(p, q)) == 7 + Size(code, p) + Size(code, q)
  {
    hide Code, CodeAt, Size;
    IfElseShape(code, p, q, a);
    ForkParts(code, a, Code(code, p, a + 3), Code(code, q, a + 6 + Size(code, p)));
  }

  lemma ForkMeans(t: State, d: State, v: cell, code: Memory, b: cell, w: Words, p: Body, q: Body, fuel: nat)
    requires StacksOk(t) && Intact(code, b, t) && PopData(t) == Popped(d, v)
    requires StacksOk(d) && Intact(code, b, d)
    ensures var u := At(d, if v != 0 then t.ip + 3 else t.ip + 6 + Size(code, p));
            Mean(code, b, w, Real, IfElse(p, q), t, fuel)
            == Landed(Mean(code, b, w, Real, if v != 0 then p else q, u, fuel),
                      t.ip + 7 + Size(code, p) + Size(code, q))
  {
    hide Fetch16, Intact, PopData, Size, MeanCode, MeanThen, MeanLoop, Perform;
  }

  // The words of a turn that read the input or ask for an answer.

  // The rest of the input is x, which is white space, the name, and y.
  ghost predicate Ahead(m: Memory, x: seq<byte>, name: seq<byte>, y: seq<byte>) {
    var i, n := Fetch16(m, LOC_INPUT_BUFFER_INDEX), Fetch16(m, LOC_INPUT_BUFFER_COUNT);
    && i <= n <= INPUT_BUFFER_SIZE && m[LOC_INPUT_BUFFER + i..LOC_INPUT_BUFFER + n] == x + name + y
    && Alike(x, true) && Alike(name, false) && (y == [] || IsWhite(y[0])) && (name == [] ==> y == [])
  }

  // Memory with the name read, and where the name is.
  function Read(m: Memory, x: seq<byte>, name: seq<byte>): Memory {
    Store16(m, LOC_INPUT_BUFFER_INDEX, Wrap(Fetch16(m, LOC_INPUT_BUFFER_INDEX) + |x| + |name|))
  }

  function Place(m: Memory, x: seq<byte>): cell {
    Wrap(LOC_INPUT_BUFFER + Fetch16(m, LOC_INPUT_BUFFER_INDEX) + |x|)
  }

  // What PARSE-NAME leaves: where the name is, and how long.
  function Got(m: Memory, x: seq<byte>, name: seq<byte>): seq<cell>
    requires |name| <= INPUT_BUFFER_SIZE
  {
    [Place(m, x), |name|]
  }

  lemma AheadSame(m: Memory, n: Memory, x: seq<byte>, name: seq<byte>, y: seq<byte>)
    requires Ahead(m, x, name, y) && SameOn(m, n, 0, SPACE_TOP)
    ensures Ahead(n, x, name, y) && Place(n, x) == Place(m, x)
            && SameOn(Read(m, x, name), Read(n, x, name), 0, SPACE_TOP)
  {
    hide Fetch16, Alike, IsWhite;
    FetchSame(m, n, 0, SPACE_TOP, LOC_INPUT_BUFFER_INDEX);
    FetchSame(m, n, 0, SPACE_TOP, LOC_INPUT_BUFFER_COUNT);
  }

  // A byte code that goes to the next byte means what its routine does.
  lemma CodeMeans(u: State, code: Memory, b: cell, w: Words, xt: cell, o: Outcome, fuel: nat)
    requires StacksOk(u) && Intact(code, b, u) && IsInstruction(code, xt) && Perform(u, Named(code, xt), Real) == o
    requires o.Next? ==> StacksOk(o.st) && Intact(code, b, o.st) && o.st.ret == u.ret && o.st.ip == Wrap(u.ip + 1)
    ensures Mean(code, b, w, Real, Use(xt), u, fuel) ==
            match o case Stop(why) => Stopped(why) case Next(t) => Normal(t)
    ensures Size(code, Use(xt)) == 1
  {
    hide Fetch16, Intact, Perform, MeanCall, IsInstruction, Named, StacksOk;
  }

  // PARSE-NAME.
  lemma ParseGoes(u: State, code: Memory, b: cell, w: Words, xt: cell, m: Memory, x: seq<byte>, name: seq<byte>,
      y: seq<byte>, fuel: nat)
    requires Running(u, m) && Over(code, m, b) && InCode(code, b, Use(xt), u.ip)
    requires IsInstruction(code, xt) && Named(code, xt) == PARSE_NAME && |DataOf(u)| + 2 <= DATA_DEPTH
    requires Ahead(m, x, name, y)
    ensures Over(code, Read(m, x, name), b) && Intact(code, b, u)
    ensures Came(u, Mean(code, b, w, Real, Use(xt), u, fuel), Read(m, x, name), DataOf(u) + [Place(m, x), |name|],
                 u.ip + 1)
  {
    hide Fetch16, Store16, Cells, SameOn, Mean, Perform, IsInstruction, Named, CodeAt, Code, Ahead, ParseName, PushMany;
    RunningOk(u, m);
    RunningIntact(u, code, m, b);
    AheadSame(m, u.mem, x, name, y);
    ParseIs(u, x, name, y);
    var n := Read(m, x, name);
    ReadAbove(m, x, name, code, b);
    var v := u.(mem := Read(u.mem, x, name));
    ReadKeeps(u, v, m, n, x, name);
    PushesMany(v, n, [Place(m, x), |name|]);
    var t := PushMany(v, [Place(m, x), |name|]).st;
    RunningIntact(t, code, n, b);
    RunningOk(t, n);
    var r := t.(ip := Wrap(u.ip + 1));
    Rested(u, v, t, r, n);
    RunningIntact(r, code, n, b);
    CodeMeans(u, code, b, w, xt, Next(r), fuel);
    WrapSum(u.ip, 0, 1);
  }

  lemma ParseIs(u: State, x: seq<byte>, name: seq<byte>, y: seq<byte>)
    requires StacksOk(u) && Ahead(u.mem, x, name, y)
    ensures |name| <= INPUT_BUFFER_SIZE
    ensures Perform(u, PARSE_NAME, Real)
            == After(PushMany(u.(mem := Read(u.mem, x, name)), [Place(u.mem, x), |name|]), u.ip)
  {
    hide Fetch16, Alike, IsWhite, PushMany, ParseName, Perform;
    PerformsParse(u);
    NameParsed(u.mem, x, name, y);
  }

  // Byte codes that go to the next byte, by their row of the table.

  lemma PerformsOnward(u: State, op: byte)
    requires StacksOk(u) && (OnDictionary(op) || op in {IF, ELSE, THEN, BEGIN, AGAIN})
    ensures Perform(u, op, Real) == Onward(u, op, Real)
  {
    hide Fetch16, Onward, Execute, PushReturn, PopReturn, PushData, PopData;
  }

  lemma PerformsDictionary(u: State, op: byte)
    requires StacksOk(u) && OnDictionary(op)
    ensures Perform(u, op, Real) == After(DictionaryStep(u, op), u.ip)
  {
    PerformsOnward(u, op);
    hide Perform, DictionaryStep, DataStep, ControlWord;
  }

  lemma PerformsParse(u: State)
    requires StacksOk(u)
    ensures Perform(u, PARSE_NAME, Real) == After(ParseWord(u), u.ip)
  {
    PerformsDictionary(u, PARSE_NAME);
    hide Perform, ParseWord, Compile, Literal, Colon, Accept, After;
  }

  lemma NameParsed(m: Memory, x: seq<byte>, name: seq<byte>, y: seq<byte>)
    requires Ahead(m, x, name, y)
    ensures |name| <= INPUT_BUFFER_SIZE && ParseName(m) == Name(Read(m, x, name), Place(m, x), name)
  {
    hide Fetch16, Store16, Alike, IsWhite, ParseName;
    ParseReads(m, x, name, y);
    assert |x + name + y| == |x| + |name| + |y|;
  }

  lemma ReadAbove(m: Memory, x: seq<byte>, name: seq<byte>, code: Memory, b: cell)
    requires Over(code, m, b)
    ensures Over(code, Read(m, x, name), b)
  {
    hide Fetch16;
  }

  lemma ReadKeeps(u: State, v: State, m: Memory, n: Memory, x: seq<byte>, name: seq<byte>)
    requires Running(u, m) && v == u.(mem := Read(u.mem, x, name)) && n == Read(m, x, name)
    requires SameOn(n, v.mem, 0, SPACE_TOP)
    ensures Running(v, n) && SameFrame(u, v) && DataOf(v) == DataOf(u)
  {
    hide Fetch16;
    var j := Wrap(Fetch16(u.mem, LOC_INPUT_BUFFER_INDEX) + |x| + |name|);
    StoreOutside(u.mem, LOC_INPUT_BUFFER_INDEX, j, DATA_BOTTOM, SIZE);
    hide Store16, SameOn;
    SamePart(u.mem, v.mem, DATA_BOTTOM, SIZE, DATA_BOTTOM, u.data);
    SamePart(u.mem, v.mem, DATA_BOTTOM, SIZE, CONTROL_BOTTOM, u.control);
    SamePart(u.mem, v.mem, DATA_BOTTOM, SIZE, RETURN_BOTTOM, u.ret);
    CellsFrame(u.mem, v.mem, DATA_BOTTOM, u.data);
    CellsFrame(u.mem, v.mem, CONTROL_BOTTOM, u.control);
    CellsFrame(u.mem, v.mem, RETURN_BOTTOM, u.ret);
  }

  lemma Rested(u: State, v: State, t: State, r: State, n: Memory)
    requires StacksOk(u) && SameFrame(u, v) && Running(t, n) && SameFrame(v, t) && r == t.(ip := r.ip)
    ensures Running(r, n) && SameFrame(u, r) && DataOf(r) == DataOf(t)
  {
    hide DataOf, ReturnOf, ControlOf, SameOn;
    assert DataOf(r) == DataOf(t) && ReturnOf(r) == ReturnOf(t) && ControlOf(r) == ControlOf(t)
      by { Moved(t, n, r.ip); }
  }

  // FIND2 and (NUMBER).
  lemma AnswerGoes(u: State, code: Memory, b: cell, w: Words, xt: cell, m: Memory, s: seq<cell>, a: cell, k: cell,
      v: (cell, cell), fuel: nat)
    requires Running(u, m) && Over(code, m, b) && InCode(code, b, Use(xt), u.ip) && DataOf(u) == s + [a, k]
    requires IsInstruction(code, xt) && Named(code, xt) in {FIND2, PNUM} && v == Real(Named(code, xt), u, [k, a])
    ensures Intact(code, b, u) && Came(u, Mean(code, b, w, Real, Use(xt), u, fuel), m, s + [v.0, v.1], u.ip + 1)
  {
    hide Fetch16, Store16, Cells, Mean, Perform, IsInstruction, Named, CodeAt, Code, Real, DataOf, ReturnOf, ControlOf;
    RunningOk(u, m);
    RunningIntact(u, code, m, b);
    var op := Named(code, xt);
    AnswersLeft(u, op, s, a, k, Real);
    var r := Perform(u, op, Real).st;
    SameBoth(m, u.mem, r.mem, 0, SPACE_TOP);
    RunningIntact(r, code, m, b);
    CodeMeans(u, code, b, w, xt, Next(r), fuel);
    WrapSum(u.ip, 0, 1);
  }

  // What they answer depends on the text, the chain and what is below the stacks.

  lemma {:induction false} SearchSame(m: Memory, n: Memory, h: cell, bound: int, a: cell, k: byte)
    requires SameOn(m, n, 0, SPACE_TOP) && DictionaryOk(m, h, bound) && a + k <= SPACE_TOP
    ensures FindEntry(m, h, a, k) == FindEntry(n, h, a, k)
    ensures FindEntry(m, h, a, k).Entry? ==> FindEntry(m, h, a, k).at <= h
    decreases h
  {
    hide SameOn, NameIs, Fetch16, CodeStart;
    HeaderInside(m, h, bound);
    NameSame(m, n, h, a, k);
    FetchSame(m, n, 0, SPACE_TOP, h);
    if h != 0 && !NameIs(m, h, a, k) && Fetch16(m, h) != 0 { SearchSame(m, n, Fetch16(m, h), h, a, k); }
  }

  lemma HeaderInside(m: Memory, h: cell, bound: int)
    requires DictionaryOk(m, h, bound)
    ensures h + H_SIZE <= SPACE_TOP && (h != 0 ==> h + H_SIZE + m[h + H_LENGTH] < SPACE_TOP)
  {
    hide Fetch16;
  }

  lemma NameSame(m: Memory, n: Memory, e: cell, a: cell, k: byte)
    requires SameOn(m, n, 0, SPACE_TOP) && e + H_SIZE <= SPACE_TOP && a + k <= SPACE_TOP
    requires e == 0 || e + H_SIZE + m[e + H_LENGTH] < SPACE_TOP
    ensures NameIs(m, e, a, k) == NameIs(n, e, a, k)
  {
    hide SameName;
    if m[e + H_LENGTH] == k { LettersSame(m, n, e + H_NAME, a, k); }
  }

  lemma {:induction false} LettersSame(m: Memory, n: Memory, a: cell, b: cell, k: nat)
    requires SameOn(m, n, 0, SPACE_TOP) && a + k <= SPACE_TOP && b + k <= SPACE_TOP
    ensures SameName(m, a, b, k) == SameName(n, a, b, k)
    decreases k
  {
    if k > 1 { LettersSame(m, n, a + 1, b + 1, k - 1); }
  }

  lemma AnswerSame(u: State, v: State, bound: int, a: cell, k: cell)
    requires SameOn(u.mem, v.mem, 0, SPACE_TOP) && u.dictHead == v.dictHead && DictionaryOk(u.mem, u.dictHead, bound)
    requires a + k <= SPACE_TOP && a + 3 <= SPACE_TOP && k < 0x100
    ensures Find2(u, a, k) == Find2(v, a, k) && Number2(u, a, k) == Number2(v, a, k)
  {
    hide SameOn, Fetch16, ReadText, FindEntry;
    SearchSame(u.mem, v.mem, u.dictHead, bound, a, k);
    TextSame(u.mem, v.mem, SPACE_TOP, a, k, 10);
    if FindEntry(u.mem, u.dictHead, a, k).Entry? {
      HeaderInside(u.mem, u.dictHead, bound);
      FlagsSame(u.mem, v.mem, FindEntry(u.mem, u.dictHead, a, k).at);
    }
  }

  lemma FlagsSame(m: Memory, n: Memory, e: cell)
    requires SameOn(m, n, 0, SPACE_TOP) && e + H_SIZE <= SPACE_TOP
    ensures IsImmediate(m, e) == IsImmediate(n, e)
  {
    FetchSame(m, n, 0, SPACE_TOP, e + H_FLAGS);
  }

  // One turn.

  function TurnBody(at: seq<cell>, state: cell): Body
    requires |at| == 34
  {
    InterpretBody(at, state).body
  }

  function RestBody(at: seq<cell>, state: cell): Body
    requires |at| == 34
  {
    Both(Line([Word(at[21]), Word(at[6])]), IfElse(NameBody(at, state), Line([Word(at[7]), Word(at[7])])))
  }

  function Refill(at: seq<cell>): Body
    requires |at| == 34
  {
    Line([Word(at[24]), Number(75), Number(79), Word(at[9]), Word(at[9]), Word(at[24]), Word(at[23])])
  }

  lemma TurnShape(at: seq<cell>, state: cell)
    requires |at| == 34
    ensures TurnBody(at, state)
            == Both(Line([Word(at[22]), Number(0), Word(at[8])]), IfElse(Refill(at), RestBody(at, state)))
  {
    hide Line, NameBody;
  }

  // What is asked of a machine that is at the code of p.
  ghost predicate Fine(st: State, code: Memory, b: cell, w: Words, at: seq<cell>, state: cell, p: Body, m: Memory) {
    && Working(code, b, w, at, state) && Running(st, m) && Over(code, m, b) && InCode(code, b, p, st.ip)
  }

  lemma FineOk(st: State, code: Memory, b: cell, w: Words, at: seq<cell>, state: cell, p: Body, m: Memory)
    requires Fine(st, code, b, w, at, state, p, m)
    ensures StacksOk(st) && Intact(code, b, st) && Vocabulary(code, w, b) && |at| == 34
  {
    hide Vocabulary, CodeAt, Code, CORE, Named, IsInstruction;
    RunningIntact(st, code, m, b);
  }

  // Effects of two words or numbers in a row.
  lemma EffectTwo(code: Memory, m: Memory, w: Words, x: Token, y: Token, s: seq<cell>, r: seq<cell>, t: seq<cell>,
      depth: nat, fuel: nat)
    requires BodyEffect(code, m, w, One(x), s, depth, fuel) == Gives(r)
    requires BodyEffect(code, m, w, One(y), r, depth, fuel) == Gives(t)
    ensures BodyEffect(code, m, w, Line([x, y]), s, depth, fuel) == Gives(t)
  {
    hide BodyEffect, Line, One;
    EffectNone(code, m, w, s, depth, fuel);
    assert [] + [x] == [x] && [x] + [y] == [x, y];
    EffectMore(code, m, w, [], x, s, depth, fuel);
    EffectMore(code, m, w, [x], y, s, depth, fuel);
  }

  lemma ValueGives(code: Memory, m: Memory, w: Words, v: cell, s: seq<cell>, depth: nat, fuel: nat)
    requires |s| < DATA_DEPTH
    ensures BodyEffect(code, m, w, One(Number(v)), s, depth, fuel) == Gives(s + [v])
  {
  }

  // Is there more on the line?
  lemma Asks(code: Memory, m: Memory, w: Words, at: seq<cell>, s: seq<cell>, depth: nat, fuel: nat)
    requires Codes(code, at) && |s| + 2 <= DATA_DEPTH
    ensures BodyEffect(code, m, w, Line([Word(at[22]), Number(0), Word(at[8])]), s, depth, fuel)
            == Gives(s + [if Remaining(m) == 0 then 0xFFFF else 0])
  {
    hide BodyEffect, Line, Codes, IsInstruction, Named, Remaining, CORE;
    Coded(code, at);
    var x, y, z := Word(at[22]), Number(0), Word(at[8]);
    CodeGives(code, m, w, at[22], s, depth, fuel);
    ValueGives(code, m, w, 0, s + [Remaining(m)], depth, fuel);
    assert s + [Remaining(m)] + [0] == s + [Remaining(m), 0];
    EffectTwo(code, m, w, x, y, s, s + [Remaining(m)], s + [Remaining(m), 0], depth, fuel);
    CodeGives(code, m, w, at[8], s + [Remaining(m), 0], depth, fuel);
    PairMoves(m, s, Remaining(m), 0, depth);
    EffectMore(code, m, w, [x, y], z, s, depth, fuel);
    assert [x, y] + [z] == [x, y, z];
  }

  // With something left of the line, on to PARSE-NAME.
  lemma ToRest(st: State, code: Memory, b: cell, w: Words, at: seq<cell>, state: cell, m: Memory, fuel: nat)
    returns (u: State)
    requires |at| == 34 && Fine(st, code, b, w, at, state, TurnBody(at, state), m) && |DataOf(st)| + 2 <= DATA_DEPTH
    ensures StacksOk(st) && Intact(code, b, st) && On(st, u, m, DataOf(st)) && StacksOk(u) && Intact(code, b, u)
    ensures Fine(u, code, b, w, at, state, if Remaining(m) == 0 then Refill(at) else RestBody(at, state), m)
    ensures Mean(code, b, w, Real, TurnBody(at, state), st, fuel)
            == Landed(Mean(code, b, w, Real, if Remaining(m) == 0 then Refill(at) else RestBody(at, state), u, fuel),
                      st.ip + Size(code, TurnBody(at, state)))
  {
    hide BodyEffect, Line, Codes, Vocabulary, Mean, Code, CodeAt, Size, Running, Over, DataOf, ReturnOf, RestBody;
    hide Refill;
    hide Intact, Remaining, Landed;
    FineOk(st, code, b, w, at, state, TurnBody(at, state), m);
    var s := DataOf(st);
    TurnShape(at, state);
    hide TurnBody;
    var more := Line([Word(at[22]), Number(0), Word(at[8])]);
    LineCode(code, b, more, IfElse(Refill(at), RestBody(at, state)), st.ip);
    Asks(code, m, w, at, s, |ReturnOf(st)|, fuel);
    var v: cell := if Remaining(m) == 0 then 0xFFFF else 0;
    BodyGoes(st, code, b, w, more, m, s + [v], fuel);
    u := ForkGoes(st, code, b, w, more, Refill(at), RestBody(at, state), m, s, v, fuel);
  }

  // What is done with a name.
  function Chosen(at: seq<cell>, state: cell, name: seq<byte>): Body
    requires |at| == 34
  {
    if name != [] then NameBody(at, state) else Line([Word(at[7]), Word(at[7])])
  }

  // PARSE-NAME, and on with the name it has found.
  lemma ToName(st: State, code: Memory, b: cell, w: Words, at: seq<cell>, state: cell, m: Memory, x: seq<byte>,
      name: seq<byte>, y: seq<byte>, fuel: nat)
    returns (u: State)
    requires |at| == 34 && Fine(st, code, b, w, at, state, RestBody(at, state), m) && |DataOf(st)| + 3 <= DATA_DEPTH
    requires Ahead(m, x, name, y)
    ensures |name| <= INPUT_BUFFER_SIZE
    ensures StacksOk(st) && Intact(code, b, st) && StacksOk(u) && Intact(code, b, u)
    ensures On(st, u, Read(m, x, name), DataOf(st) + Got(m, x, name))
    ensures Fine(u, code, b, w, at, state, Chosen(at, state, name), Read(m, x, name))
    ensures Mean(code, b, w, Real, RestBody(at, state), st, fuel)
            == Landed(Mean(code, b, w, Real, Chosen(at, state, name), u, fuel), st.ip + Size(code, RestBody(at, state)))
  {
    hide BodyEffect, Line, Codes, Vocabulary, Mean, Code, CodeAt, Size, Running, Over, DataOf, ReturnOf, NameBody;
    hide Intact, Landed, IsInstruction, Named, Read, Place, Ahead;
    FineOk(st, code, b, w, at, state, RestBody(at, state), m);
    var s, drop := DataOf(st), Line([Word(at[7]), Word(at[7])]);
    var p, d := Word(at[21]), Word(at[6]);
    LineCode(code, b, Line([p, d]), IfElse(NameBody(at, state), drop), st.ip);
    Shorter(m, x, name, y);
    Named2(st, code, b, w, at, m, x, name, y, fuel);
    u := ForkGoes(st, code, b, w, Line([p, d]), NameBody(at, state), drop, Read(m, x, name), s + [Place(m, x), |name|],
                  |name|, fuel);
  }

  lemma Shorter(m: Memory, x: seq<byte>, name: seq<byte>, y: seq<byte>)
    requires Ahead(m, x, name, y)
    ensures |name| <= INPUT_BUFFER_SIZE
  {
    hide Fetch16, Alike;
  }

  // PARSE-NAME DUP
  lemma Named2(st: State, code: Memory, b: cell, w: Words, at: seq<cell>, m: Memory, x: seq<byte>, name: seq<byte>,
      y: seq<byte>, fuel: nat)
    requires Codes(code, at) && Vocabulary(code, w, b) && StacksOk(st) && Intact(code, b, st) && Running(st, m)
    requires Over(code, m, b) && InCode(code, b, Line([Word(at[21]), Word(at[6])]), st.ip)
    requires |DataOf(st)| + 3 <= DATA_DEPTH && Ahead(m, x, name, y) && |name| <= INPUT_BUFFER_SIZE
    ensures Over(code, Read(m, x, name), b)
    ensures Came(st, Mean(code, b, w, Real, Line([Word(at[21]), Word(at[6])]), st, fuel), Read(m, x, name),
                 DataOf(st) + [Place(m, x), |name|] + [|name|], st.ip + Size(code, Line([Word(at[21]), Word(at[6])])))
  {
    hide BodyEffect, Line, Codes, Vocabulary, Mean, Code, CodeAt, Size, Running, Over, DataOf, ReturnOf, CORE;
    hide Intact, IsInstruction, Named, Read, Place, Ahead, ControlOf, SameOn;
    Coded(code, at);
    var s, p, d, n := DataOf(st), Word(at[21]), Word(at[6]), Read(m, x, name);
    var k: cell := |name|;
    assert [] + [p] == [p] && [p] + [d] == [p, d];
    LinePart(code, b, [p], d, st.ip);
    LinePart(code, b, [], p, st.ip);
    LineStart(st, code, b, w, m, fuel);
    ParseGoes(st, code, b, w, at[21], m, x, name, y, fuel);
    UseOne(code, at[21]);
    LineBy(st, code, b, w, [], p, m, s, n, s + [Place(m, x), k], fuel);
    var v := Mean(code, b, w, Real, Line([p]), st, fuel).st;
    RunningOk(v, n);
    TopMoves(n, s + [Place(m, x)], k, |ReturnOf(v)|);
    assert s + [Place(m, x)] + [k] == s + [Place(m, x), k] && s + [Place(m, x)] + [k, k] == s + [Place(m, x), k] + [k];
    CodeGives(code, n, w, at[6], s + [Place(m, x), k], |ReturnOf(v)|, fuel);
    BodyGoes(v, code, b, w, Use(at[6]), n, s + [Place(m, x), k] + [k], fuel);
    LineBy(st, code, b, w, [p], d, n, s + [Place(m, x), k], n, s + [Place(m, x), k] + [k], fuel);
  }

  lemma UseOne(code: Memory, xt: cell)
    requires IsInstruction(code, xt)
    ensures Size(code, Use(xt)) == 1
  {
  }

  // An empty line stays where it is.
  lemma LineStart(st: State, code: Memory, b: cell, w: Words, m: Memory, fuel: nat)
    requires Running(st, m) && StacksOk(st) && Intact(code, b, st)
    ensures Mean(code, b, w, Real, Line([]), st, fuel) == Normal(st) && Size(code, Line([])) == 0
    ensures Came(st, Normal(st), m, DataOf(st), st.ip)
  {
    hide Intact;
    SameSelf(st, m);
  }

  // What the dictionary, or the number, answers for a name at a.
  function Found(st: State, m: Memory, a: cell, k: cell): (cell, cell) {
    Find2(st.(mem := m), a, k)
  }

  function Valued(st: State, m: Memory, a: cell, k: cell): (cell, cell) {
    Number2(st.(mem := m), a, k)
  }

  // SWAP OVER FIND2 DUP
  lemma Sought(st: State, code: Memory, b: cell, w: Words, at: seq<cell>, m: Memory, s: seq<cell>, a: cell, k: cell,
      bound: int, fuel: nat)
    requires Codes(code, at) && Vocabulary(code, w, b) && StacksOk(st) && Intact(code, b, st) && Running(st, m)
    requires Over(code, m, b) && InCode(code, b, Line([Word(at[30]), Word(at[29]), Word(at[27]), Word(at[6])]), st.ip)
    requires |s| + 4 <= DATA_DEPTH && DataOf(st) == s + [a, k]
    requires DictionaryOk(m, st.dictHead, bound) && a + k <= SPACE_TOP && a + 3 <= SPACE_TOP && k < 0x100
    ensures var v := Found(st, m, a, k);
            Came(st, Mean(code, b, w, Real, Line([Word(at[30]), Word(at[29]), Word(at[27]), Word(at[6])]), st, fuel), m,
                 s + [k, v.0, v.1] + [v.1],
                 st.ip + Size(code, Line([Word(at[30]), Word(at[29]), Word(at[27]), Word(at[6])])))
  {
    hide BodyEffect, Line, Codes, Vocabulary, Mean, Code, CodeAt, Size, Running, Over, DataOf, ReturnOf, CORE, Find2;
    hide Intact, IsInstruction, Named, ControlOf, SameOn, DictionaryOk, Number2;
    Coded(code, at);
    var p, o, f, d := Word(at[30]), Word(at[29]), Word(at[27]), Word(at[6]);
    assert [p, o] + [f] == [p, o, f] && [p, o, f] + [d] == [p, o, f, d];
    LinePart(code, b, [p, o, f], d, st.ip);
    LinePart(code, b, [p, o], f, st.ip);
    SwapOver(code, m, w, at, s, a, k, |ReturnOf(st)|, fuel);
    BodyGoes(st, code, b, w, Line([p, o]), m, s + [k, a, k], fuel);
    var u := Mean(code, b, w, Real, Line([p, o]), st, fuel).st;
    var v := Real(FIND2, u, [k, a]);
    AnswerIs(st, u, m, bound, a, k);
    assert s + [k] + [a, k] == s + [k, a, k] && s + [k] + [v.0, v.1] == s + [k, v.0, v.1];
    RunningOk(u, m);
    RunningIntact(u, code, m, b);
    AnswerGoes(u, code, b, w, at[27], m, s + [k], a, k, v, fuel);
    UseOne(code, at[27]);
    LineBy(st, code, b, w, [p, o], f, m, s + [k, a, k], m, s + [k, v.0, v.1], fuel);
    var t := Mean(code, b, w, Real, Line([p, o, f]), st, fuel).st;
    RunningOk(t, m);
    TopMoves(m, s + [k, v.0], v.1, |ReturnOf(t)|);
    assert s + [k, v.0] + [v.1] == s + [k, v.0, v.1] && s + [k, v.0] + [v.1, v.1] == s + [k, v.0, v.1] + [v.1];
    CodeGives(code, m, w, at[6], s + [k, v.0, v.1], |ReturnOf(t)|, fuel);
    BodyGoes(t, code, b, w, Use(at[6]), m, s + [k, v.0, v.1] + [v.1], fuel);
    LineBy(st, code, b, w, [p, o, f], d, m, s + [k, v.0, v.1], m, s + [k, v.0, v.1] + [v.1], fuel);
  }

  lemma SwapOver(code: Memory, m: Memory, w: Words, at: seq<cell>, s: seq<cell>, a: cell, k: cell, depth: nat,
      fuel: nat)
    requires Codes(code, at) && |s| + 3 <= DATA_DEPTH
    ensures BodyEffect(code, m, w, Line([Word(at[30]), Word(at[29])]), s + [a, k], depth, fuel) == Gives(s + [k, a, k])
  {
    hide BodyEffect, Line, Codes, IsInstruction, Named, CORE;
    Coded(code, at);
    CodeGives(code, m, w, at[30], s + [a, k], depth, fuel);
    PairMoves(m, s, a, k, depth);
    CodeGives(code, m, w, at[29], s + [k, a], depth, fuel);
    PairMoves(m, s, k, a, depth);
    EffectTwo(code, m, w, Word(at[30]), Word(at[29]), s + [a, k], s + [k, a], s + [k, a, k], depth, fuel);
  }

  lemma AnswerIs(st: State, u: State, m: Memory, bound: int, a: cell, k: cell)
    requires StacksOk(st) && Running(u, m) && SameFrame(st, u) && DictionaryOk(m, st.dictHead, bound)
    requires a + k <= SPACE_TOP && a + 3 <= SPACE_TOP && k < 0x100
    ensures Real(FIND2, u, [k, a]) == Found(st, m, a, k) && Real(PNUM, u, [k, a]) == Valued(st, m, a, k)
  {
    hide SameOn, DictionaryOk, Find2, Number2, ReturnOf, ControlOf;
    AnswerSame(st.(mem := m), u, bound, a, k);
  }

  // On with what FIND2 has answered.
  lemma ToBranch(st: State, code: Memory, b: cell, w: Words, at: seq<cell>, state: cell, m: Memory, s: seq<cell>,
      a: cell, k: cell, bound: int, fuel: nat)
    returns (u: State)
    requires |at| == 34 && Fine(st, code, b, w, at, state, NameBody(at, state), m) && |s| + 4 <= DATA_DEPTH
    requires DataOf(st) == s + [a, k]
    requires DictionaryOk(m, st.dictHead, bound) && a + k <= SPACE_TOP && a + 3 <= SPACE_TOP && k < 0x100
    ensures StacksOk(st) && Intact(code, b, st) && StacksOk(u) && Intact(code, b, u)
    ensures var v := Found(st, m, a, k);
            var p := if v.1 != 0 then WordBody(at, state) else NumberBody(at, state);
            && On(st, u, m, s + [k, v.0, v.1]) && Fine(u, code, b, w, at, state, p, m)
            && Mean(code, b, w, Real, NameBody(at, state), st, fuel)
               == Landed(Mean(code, b, w, Real, p, u, fuel), st.ip + Size(code, NameBody(at, state)))
  {
    hide BodyEffect, Line, Codes, Vocabulary, Mean, Code, CodeAt, Size, Running, Over, DataOf, ReturnOf, WordBody;
    hide NumberBody, Intact, Landed, Found, DictionaryOk;
    FineOk(st, code, b, w, at, state, NameBody(at, state), m);
    var look := Line([Word(at[30]), Word(at[29]), Word(at[27]), Word(at[6])]);
    LineCode(code, b, look, IfElse(WordBody(at, state), NumberBody(at, state)), st.ip);
    Sought(st, code, b, w, at, m, s, a, k, bound, fuel);
    var v := Found(st, m, a, k);
    u := ForkGoes(st, code, b, w, look, WordBody(at, state), NumberBody(at, state), m, s + [k, v.0, v.1], v.1, fuel);
  }

  // STATE @
  lemma StateLine(code: Memory, b: cell, m: Memory, w: Words, at: seq<cell>, state: cell, s: seq<cell>, depth: nat,
      fuel: nat)
    requires Working(code, b, w, at, state) && |s| < DATA_DEPTH && depth < RETURN_DEPTH && fuel > 0
    ensures BodyEffect(code, m, w, Line([Word(state), Word(at[2])]), s, depth, fuel)
            == Gives(s + [Fetch16(m, LOC_STATE)])
  {
    hide BodyEffect, Line, Codes, IsInstruction, Named, Vocabulary, CORE, Fetch16;
    Coded(code, at);
    StateGives(code, b, m, w, at, state, s, depth, fuel);
    CodeGives(code, m, w, at[2], s + [LOC_STATE], depth, fuel);
    TopMoves(m, s, LOC_STATE, depth);
    EffectTwo(code, m, w, Word(state), Word(at[2]), s, s + [LOC_STATE], s + [Fetch16(m, LOC_STATE)], depth, fuel);
  }

  // 1 =
  lemma OneLine(code: Memory, m: Memory, w: Words, at: seq<cell>, s: seq<cell>, f: cell, depth: nat, fuel: nat)
    requires Codes(code, at) && |s| + 2 <= DATA_DEPTH
    ensures BodyEffect(code, m, w, Line([Number(1), Word(at[8])]), s + [f], depth, fuel)
            == Gives(s + [if f == 1 then 0xFFFF else 0])
  {
    hide BodyEffect, Line, Codes, IsInstruction, Named, CORE;
    Coded(code, at);
    ValueGives(code, m, w, 1, s + [f], depth, fuel);
    assert s + [f] + [1] == s + [f, 1];
    CodeGives(code, m, w, at[8], s + [f, 1], depth, fuel);
    PairMoves(m, s, f, 1, depth);
    EffectTwo(code, m, w, Number(1), Word(at[8]), s + [f], s + [f, 1], s + [if f == 1 then 0xFFFF else 0], depth, fuel);
  }

  // SWAP DROP
  lemma NipLine(code: Memory, m: Memory, w: Words, at: seq<cell>, s: seq<cell>, k: cell, e: cell, depth: nat, fuel: nat)
    requires Codes(code, at)
    ensures BodyEffect(code, m, w, Line([Word(at[30]), Word(at[7])]), s + [k, e], depth, fuel) == Gives(s + [e])
  {
    hide BodyEffect, Line, Codes, IsInstruction, Named, CORE;
    Coded(code, at);
    CodeGives(code, m, w, at[30], s + [k, e], depth, fuel);
    PairMoves(m, s, k, e, depth);
    assert s + [e] + [k] == s + [e, k];
    CodeGives(code, m, w, at[7], s + [e, k], depth, fuel);
    TopMoves(m, s + [e], k, depth);
    EffectTwo(code, m, w, Word(at[30]), Word(at[7]), s + [k, e], s + [e, k], s + [e], depth, fuel);
  }

  // DROP SWAP, and DROP SWAP DROP
  lemma UnderLine(code: Memory, m: Memory, w: Words, at: seq<cell>, s: seq<cell>, k: cell, e: cell, f: cell, depth: nat,
      fuel: nat)
    requires Codes(code, at)
    ensures BodyEffect(code, m, w, Line([Word(at[7]), Word(at[30])]), s + [k, e, f], depth, fuel) == Gives(s + [e, k])
    ensures BodyEffect(code, m, w, Line([Word(at[7]), Word(at[30]), Word(at[7])]), s + [k, e, f], depth, fuel)
            == Gives(s + [e])
  {
    hide BodyEffect, Line, Codes, IsInstruction, Named, CORE;
    Coded(code, at);
    var d, p := Word(at[7]), Word(at[30]);
    assert s + [k, e] + [f] == s + [k, e, f] && s + [e] + [k] == s + [e, k] && [d, p] + [d] == [d, p, d];
    CodeGives(code, m, w, at[7], s + [k, e, f], depth, fuel);
    TopMoves(m, s + [k, e], f, depth);
    CodeGives(code, m, w, at[30], s + [k, e], depth, fuel);
    PairMoves(m, s, k, e, depth);
    EffectTwo(code, m, w, d, p, s + [k, e, f], s + [k, e], s + [e, k], depth, fuel);
    CodeGives(code, m, w, at[7], s + [e, k], depth, fuel);
    TopMoves(m, s + [e], k, depth);
    EffectMore(code, m, w, [d, p], d, s + [k, e, f], depth, fuel);
  }

  // A line that ends in a byte code of any kind means that, in the state before it.
  lemma LastWord(st: State, code: Memory, b: cell, w: Words, ts: seq<Token>, xt: cell, m: Memory, s: seq<cell>,
      fuel: nat)
    returns (u: State)
    requires Vocabulary(code, w, b) && StacksOk(st) && Intact(code, b, st) && Running(st, m) && Over(code, m, b)
    requires InCode(code, b, Line(ts + [Word(xt)]), st.ip) && IsInstruction(code, xt)
    requires BodyEffect(code, m, w, Line(ts), DataOf(st), |ReturnOf(st)|, fuel) == Gives(s)
    ensures On(st, u, m, s) && StacksOk(u) && Intact(code, b, u)
    ensures Mean(code, b, w, Real, Line(ts + [Word(xt)]), st, fuel)
            == MeanCode(code, b, w, Real, Named(code, xt), 1, u, fuel)
  {
    hide BodyEffect, Vocabulary, Mean, Code, CodeAt, Size, Running, Over, DataOf, ReturnOf, ControlOf, MeanCode;
    hide Intact, IsInstruction, Named, SameOn;
    LinePart(code, b, ts, Word(xt), st.ip);
    LineShape(ts, Word(xt));
    hide Line;
    BodyGoes(st, code, b, w, Line(ts), m, s, fuel);
    u := Mean(code, b, w, Real, Line(ts), st, fuel).st;
    RunningOk(u, m);
    RunningIntact(u, code, m, b);
    BothMeans(code, b, w, Line(ts), Use(xt), st, fuel);
    UseMeans(u, code, b, w, xt, fuel);
  }

  lemma UseMeans(u: State, code: Memory, b: cell, w: Words, xt: cell, fuel: nat)
    requires StacksOk(u) && Intact(code, b, u) && IsInstruction(code, xt)
    ensures Mean(code, b, w, Real, Use(xt), u, fuel) == MeanCode(code, b, w, Real, Named(code, xt), 1, u, fuel)
  {
    hide Fetch16, Intact, Perform, MeanCode, IsInstruction, Named, StacksOk;
  }

  // The word found is performed, or compiled where STATE is on and it is not immediate.
  lemma WordEnds(st: State, code: Memory, b: cell, w: Words, at: seq<cell>, state: cell, m: Memory, s: seq<cell>,
      k: cell, e: cell, flag: cell, fuel: nat)
    returns (u: State)
    requires |at| == 34 && Fine(st, code, b, w, at, state, WordBody(at, state), m) && |s| + 4 <= DATA_DEPTH
    requires DataOf(st) == s + [k, e, flag] && |ReturnOf(st)| < RETURN_DEPTH && fuel > 0
    ensures StacksOk(st) && Intact(code, b, st) && On(st, u, m, s + [e]) && StacksOk(u) && Intact(code, b, u)
    ensures Mean(code, b, w, Real, WordBody(at, state), st, fuel)
            == Landed(MeanCode(code, b, w, Real,
                               if Fetch16(m, LOC_STATE) != 0 && flag != 1 then COMPILE else EXECUTE, 1, u, fuel),
                      st.ip + Size(code, WordBody(at, state)))
  {
    hide BodyEffect, Line, Vocabulary, Mean, Code, CodeAt, Size, Running, Over, DataOf, ReturnOf, Codes, MeanCode;
    hide Intact, Landed, IsInstruction, Named, CORE, SameOn, Fetch16, ControlOf;
    FineOk(st, code, b, w, at, state, WordBody(at, state), m);
    var on, d, p := Fetch16(m, LOC_STATE), Word(at[7]), Word(at[30]);
    var look, test := Line([Word(state), Word(at[2])]), Line([Number(1), Word(at[8])]);
    var now, later, run := Line([p, d, Word(at[26])]), Line([p, d, Word(at[25])]), Line([d, p, d, Word(at[26])]);
    assert [p, d] + [Word(at[26])] == [p, d, Word(at[26])] && [p, d] + [Word(at[25])] == [p, d, Word(at[25])];
    assert [d, p, d] + [Word(at[26])] == [d, p, d, Word(at[26])];
    Coded(code, at);
    LineCode(code, b, look, IfElse(Both(test, IfElse(now, later)), run), st.ip);
    StateLine(code, b, m, w, at, state, s + [k, e, flag], |ReturnOf(st)|, fuel);
    BodyGoes(st, code, b, w, look, m, s + [k, e, flag] + [on], fuel);
    var t := ForkGoes(st, code, b, w, look, Both(test, IfElse(now, later)), run, m, s + [k, e, flag], on, fuel);
    var z := st.ip + Size(code, WordBody(at, state));
    if on == 0 {
      UnderLine(code, m, w, at, s, k, e, flag, |ReturnOf(t)|, fuel);
      u := LastWord(t, code, b, w, [d, p, d], at[26], m, s + [e], fuel);
      OnOn(st, t, u, m, m, s + [k, e, flag], s + [e]);
    } else {
      assert s + [k, e] + [flag] == s + [k, e, flag];
      LineCode(code, b, test, IfElse(now, later), t.ip);
      OneLine(code, m, w, at, s + [k, e], flag, |ReturnOf(t)|, fuel);
      var v: cell := if flag == 1 then 0xFFFF else 0;
      BodyGoes(t, code, b, w, test, m, s + [k, e] + [v], fuel);
      var t' := ForkGoes(t, code, b, w, test, now, later, m, s + [k, e], v, fuel);
      NipLine(code, m, w, at, s, k, e, |ReturnOf(t')|, fuel);
      u := LastWord(t', code, b, w, [p, d], if flag == 1 then at[26] else at[25], m, s + [e], fuel);
      OnOn(t, t', u, m, m, s + [k, e], s + [e]);
      OnOn(st, t, u, m, m, s + [k, e, flag], s + [e]);
      LandedTwice(Mean(code, b, w, Real, if flag == 1 then now else later, t', fuel),
                  t.ip + Size(code, Both(test, IfElse(now, later))), z);
    }
  }

  // DROP SWAP (NUMBER)
  lemma Numbered(st: State, code: Memory, b: cell, w: Words, at: seq<cell>, m: Memory, s: seq<cell>, k: cell, a: cell,
      f: cell, bound: int, fuel: nat)
    requires Codes(code, at) && Vocabulary(code, w, b) && StacksOk(st) && Intact(code, b, st) && Running(st, m)
    requires Over(code, m, b) && InCode(code, b, Line([Word(at[7]), Word(at[30]), Word(at[28])]), st.ip)
    requires |s| + 4 <= DATA_DEPTH && DataOf(st) == s + [k, a, f]
    requires DictionaryOk(m, st.dictHead, bound) && a + k <= SPACE_TOP && a + 3 <= SPACE_TOP && k < 0x100
    ensures var v := Valued(st, m, a, k);
            Came(st, Mean(code, b, w, Real, Line([Word(at[7]), Word(at[30]), Word(at[28])]), st, fuel), m,
                 s + [v.0] + [v.1], st.ip + Size(code, Line([Word(at[7]), Word(at[30]), Word(at[28])])))
  {
    hide BodyEffect, Line, Codes, Vocabulary, Mean, Code, CodeAt, Size, Running, Over, DataOf, ReturnOf, CORE, Find2;
    hide Intact, IsInstruction, Named, ControlOf, SameOn, DictionaryOk, Number2;
    Coded(code, at);
    var d, p, n := Word(at[7]), Word(at[30]), Word(at[28]);
    assert [d, p] + [n] == [d, p, n];
    LinePart(code, b, [d, p], n, st.ip);
    UnderLine(code, m, w, at, s, k, a, f, |ReturnOf(st)|, fuel);
    BodyGoes(st, code, b, w, Line([d, p]), m, s + [a, k], fuel);
    var u := Mean(code, b, w, Real, Line([d, p]), st, fuel).st;
    var v := Real(PNUM, u, [k, a]);
    AnswerIs(st, u, m, bound, a, k);
    RunningOk(u, m);
    RunningIntact(u, code, m, b);
    AnswerGoes(u, code, b, w, at[28], m, s, a, k, v, fuel);
    UseOne(code, at[28]);
    assert s + [v.0, v.1] == s + [v.0] + [v.1];
    LineBy(st, code, b, w, [d, p], n, m, s + [a, k], m, s + [v.0] + [v.1], fuel);
  }

  // The number is compiled where STATE is on and left on the stack where it is off; what
  // is no number stops the system.
  lemma NumberEnds(st: State, code: Memory, b: cell, w: Words, at: seq<cell>, state: cell, m: Memory, s: seq<cell>,
      k: cell, a: cell, f: cell, bound: int, fuel: nat)
    returns (u: State)
    requires |at| == 34 && Fine(st, code, b, w, at, state, NumberBody(at, state), m) && |s| + 4 <= DATA_DEPTH
    requires DataOf(st) == s + [k, a, f] && |ReturnOf(st)| < RETURN_DEPTH && fuel > 0
    requires DictionaryOk(m, st.dictHead, bound) && a + k <= SPACE_TOP && a + 3 <= SPACE_TOP && k < 0x100
    ensures StacksOk(st) && Intact(code, b, st) && StacksOk(u) && Intact(code, b, u)
    ensures var v := Valued(st, m, a, k);
            var r, z := Mean(code, b, w, Real, NumberBody(at, state), st, fuel),
              st.ip + Size(code, NumberBody(at, state));
            if v.1 == 0 then r == Stopped(Halted)
            else
              && On(st, u, m, s + [v.0])
              && r == if Fetch16(m, LOC_STATE) != 0 then Landed(MeanCode(code, b, w, Real, LITERAL, 1, u, fuel), z)
                      else Normal(At(u, z))
  {
    hide BodyEffect, Line, Vocabulary, Mean, Code, CodeAt, Size, Running, Over, DataOf, ReturnOf, Codes, MeanCode;
    hide Intact, Landed, IsInstruction, Named, CORE, SameOn, Fetch16, ControlOf, Valued, DictionaryOk;
    FineOk(st, code, b, w, at, state, NumberBody(at, state), m);
    var v, on := Valued(st, m, a, k), Fetch16(m, LOC_STATE);
    var read := Line([Word(at[7]), Word(at[30]), Word(at[28])]);
    var look, lay, keep, halt := Line([Word(state), Word(at[2])]), Line([Word(at[33])]), Line([Word(at[11])]),
      Line([Word(at[0])]);
    Coded(code, at);
    LineCode(code, b, read, IfElse(Both(look, IfElse(lay, keep)), halt), st.ip);
    Numbered(st, code, b, w, at, m, s, k, a, f, bound, fuel);
    var t := ForkGoes(st, code, b, w, read, Both(look, IfElse(lay, keep)), halt, m, s + [v.0], v.1, fuel);
    var z := st.ip + Size(code, NumberBody(at, state));
    u := t;
    if v.1 == 0 {
      Halts(t, code, b, w, at, fuel);
      LandedStopped(z);
    } else {
      LineCode(code, b, look, IfElse(lay, keep), t.ip);
      StateLine(code, b, m, w, at, state, s + [v.0], |ReturnOf(t)|, fuel);
      BodyGoes(t, code, b, w, look, m, s + [v.0] + [on], fuel);
      var t' := ForkGoes(t, code, b, w, look, lay, keep, m, s + [v.0], on, fuel);
      u := Single(t', code, b, w, at, if on != 0 then 33 else 11, m, s + [v.0], fuel);
      OnOn(t, t', u, m, m, s + [v.0], s + [v.0]);
      OnOn(st, t, u, m, m, s + [v.0], s + [v.0]);
      LandedTwice(Mean(code, b, w, Real, if on != 0 then lay else keep, t', fuel),
                  t.ip + Size(code, Both(look, IfElse(lay, keep))), z);
      if on == 0 { LandedNormal(u, z); }
    }
  }

  lemma LandedStopped(z: int)
    ensures Landed(Stopped(Halted), z) == Stopped(Halted)
  {
  }

  lemma LandedNormal(u: State, z: int)
    ensures Landed(Normal(u), z) == Normal(At(u, z))
  {
  }

  // (HALT)
  lemma Halts(t: State, code: Memory, b: cell, w: Words, at: seq<cell>, fuel: nat)
    requires StacksOk(t) && Intact(code, b, t) && Codes(code, at)
    ensures Mean(code, b, w, Real, Line([Word(at[0])]), t, fuel) == Stopped(Halted)
  {
    hide Intact, Mean, Codes, IsInstruction, Named, MeanCode, Fetch16, CORE;
    Coded(code, at);
    assert [] + [Word(at[0])] == [Word(at[0])];
    LineShape([], Word(at[0]));
    BothMeans(code, b, w, Line([]), Use(at[0]), t, fuel);
    Self(t);
    LineStart(t, code, b, w, t.mem, fuel);
    UseMeans(t, code, b, w, at[0], fuel);
    HaltMeans(t, code, b, w, fuel);
  }

  lemma HaltMeans(t: State, code: Memory, b: cell, w: Words, fuel: nat)
    requires StacksOk(t) && Intact(code, b, t)
    ensures MeanCode(code, b, w, Real, HALT, 1, t, fuel) == Stopped(Halted)
  {
    hide Fetch16, Intact, StacksOk;
  }

  // A branch of one byte code: NOP, which does nothing, or any other.
  lemma Single(t: State, code: Memory, b: cell, w: Words, at: seq<cell>, i: nat, m: Memory, s: seq<cell>, fuel: nat)
    returns (u: State)
    requires Vocabulary(code, w, b) && Running(t, m) && Over(code, m, b) && Codes(code, at) && i < 34 && DataOf(t) == s
    requires InCode(code, b, Line([Word(at[i])]), t.ip) && StacksOk(t) && Intact(code, b, t)
    ensures On(t, u, m, s) && StacksOk(u) && Intact(code, b, u)
    ensures Mean(code, b, w, Real, Line([Word(at[i])]), t, fuel)
            == if i == 11 then Normal(u) else MeanCode(code, b, w, Real, Named(code, at[i]), 1, u, fuel)
  {
    hide BodyEffect, Vocabulary, Mean, Code, CodeAt, Size, Running, Over, DataOf, ReturnOf, Codes, MeanCode;
    hide Intact, IsInstruction, Named, CORE, SameOn, ControlOf, Line;
    Coded(code, at);
    assert [] + [Word(at[i])] == [Word(at[i])];
    if i == 11 {
      EffectNone(code, m, w, s, |ReturnOf(t)|, fuel);
      EffectMore(code, m, w, [], Word(at[11]), s, |ReturnOf(t)|, fuel);
      CodeGives(code, m, w, at[11], s, |ReturnOf(t)|, fuel);
      BodyGoes(t, code, b, w, Line([Word(at[11])]), m, s, fuel);
      u := Mean(code, b, w, Real, Line([Word(at[11])]), t, fuel).st;
      RunningOk(u, m);
      RunningIntact(u, code, m, b);
    } else {
      EffectNone(code, m, w, s, |ReturnOf(t)|, fuel);
      u := LastWord(t, code, b, w, [], at[i], m, s, fuel);
    }
  }

  // Reading a name changes nothing of the dictionary, and STATE is what it was.
  lemma AfterRead(m: Memory, x: seq<byte>, name: seq<byte>, y: seq<byte>, h: cell, bound: int)
    requires Ahead(m, x, name, y) && DictionaryOk(m, h, bound)
    ensures var n := Read(m, x, name);
            DictionaryOk(n, h, bound) && Fetch16(n, LOC_STATE) == Fetch16(m, LOC_STATE)
    ensures name != [] ==> Remaining(m) != 0
    ensures Place(m, x) + |name| <= SPACE_TOP && Place(m, x) + 3 <= SPACE_TOP
  {
    hide Fetch16, Alike, IsWhite, DictionaryOk;
    var j := Wrap(Fetch16(m, LOC_INPUT_BUFFER_INDEX) + |x| + |name|);
    var i, n := Fetch16(m, LOC_INPUT_BUFFER_INDEX), Fetch16(m, LOC_INPUT_BUFFER_COUNT);
    assert |x + name + y| == n - i;
    FetchElsewhere(m, LOC_INPUT_BUFFER_INDEX, j, LOC_STATE);
    StoreOutside(m, LOC_INPUT_BUFFER_INDEX, j, DICTIONARY_START, bound);
    DictionaryFrame(m, Read(m, x, name), h, bound);
  }

  // A turn that reads a name comes to the byte code that handles it, with the entry or
  // the number on the stack that was there, the name read and nothing else changed: to
  // COMPILE, for an entry that is not immediate while STATE is on, to EXECUTE for any
  // other; to LITERAL for a number while STATE is on, and past its end for one while
  // STATE is off; and for what is neither the system stops.
  lemma TurnHandles(st: State, code: Memory, b: cell, w: Words, at: seq<cell>, state: cell, x: seq<byte>,
      name: seq<byte>, y: seq<byte>, bound: int, fuel: nat)
    returns (u: State)
    requires |at| == 34 && Fine(st, code, b, w, at, state, TurnBody(at, state), st.mem) && fuel > 0
    requires |DataOf(st)| + 4 <= DATA_DEPTH && |ReturnOf(st)| < RETURN_DEPTH
    requires Ahead(st.mem, x, name, y) && 0 < |name| < 0x100 && DictionaryOk(st.mem, st.dictHead, bound)
    ensures Intact(code, b, st) && StacksOk(u) && Intact(code, b, u)
    ensures var m, s, on := Read(st.mem, x, name), DataOf(st), Fetch16(st.mem, LOC_STATE);
            var e, n := Found(st, m, Place(st.mem, x), |name|), Valued(st, m, Place(st.mem, x), |name|);
            var r, z := Mean(code, b, w, Real, TurnBody(at, state), st, fuel), st.ip + Size(code, TurnBody(at, state));
            if e.1 != 0 then
              && On(st, u, m, s + [e.0])
              && r == Landed(MeanCode(code, b, w, Real, if on != 0 && e.1 != 1 then COMPILE else EXECUTE, 1, u, fuel),
                 z)
            else if n.1 != 0 then
              && On(st, u, m, s + [n.0])
              && r == if on != 0 then Landed(MeanCode(code, b, w, Real, LITERAL, 1, u, fuel), z) else Normal(At(u, z))
            else r == Stopped(Halted)
  {
    hide Mean, Code, CodeAt, Size, Running, Over, DataOf, ReturnOf, ControlOf, Codes, MeanCode, WordBody, NumberBody;
    hide NameBody, RestBody, TurnBody, Intact, Landed, SameOn, Fetch16, Read, Place, Ahead, Found, Valued, Remaining;
    hide Vocabulary, DictionaryOk, Refill;
    FineOk(st, code, b, w, at, state, TurnBody(at, state), st.mem);
    var m, s, a, on := Read(st.mem, x, name), DataOf(st), Place(st.mem, x), Fetch16(st.mem, LOC_STATE);
    var k: cell := |name|;
    AfterRead(st.mem, x, name, y, st.dictHead, bound);
    var u1 := ToRest(st, code, b, w, at, state, st.mem, fuel);
    var u2 := ToName(u1, code, b, w, at, state, st.mem, x, name, y, fuel);
    var u3 := ToBranch(u2, code, b, w, at, state, m, s, a, k, bound, fuel);
    OnOn(st, u1, u2, st.mem, m, s, s + [a, k]);
    var e, n := Found(st, m, a, k), Valued(st, m, a, k);
    SameAnswers(st, u2, m, a, k);
    OnOn(st, u2, u3, m, m, s + [a, k], s + [k, e.0, e.1]);
    SameAnswers(st, u3, m, a, k);
    var p := if e.1 != 0 then WordBody(at, state) else NumberBody(at, state);
    var z, r := st.ip + Size(code, TurnBody(at, state)), Mean(code, b, w, Real, p, u3, fuel);
    LandedTwice(r, u2.ip + Size(code, NameBody(at, state)), u1.ip + Size(code, RestBody(at, state)));
    LandedTwice(r, u1.ip + Size(code, RestBody(at, state)), z);
    if e.1 != 0 {
      u := WordEnds(u3, code, b, w, at, state, m, s, k, e.0, e.1, fuel);
      OnOn(st, u3, u, m, m, s + [k, e.0, e.1], s + [e.0]);
      var op := if on != 0 && e.1 != 1 then COMPILE else EXECUTE;
      LandedTwice(MeanCode(code, b, w, Real, op, 1, u, fuel), u3.ip + Size(code, WordBody(at, state)), z);
    } else {
      NoEntry(st, m, a, k);
      u := NumberEnds(u3, code, b, w, at, state, m, s, k, a, 0, bound, fuel);
      var y := u3.ip + Size(code, NumberBody(at, state));
      if n.1 == 0 {
        LandedStopped(z);
      } else {
        OnOn(st, u3, u, m, m, s + [k, e.0, e.1], s + [n.0]);
        LandedTwice(MeanCode(code, b, w, Real, LITERAL, 1, u, fuel), y, z);
        LandedTwice(Normal(u), y, z);
        LandedNormal(u, y);
        LandedNormal(u, z);
      }
    }
  }

  lemma SameAnswers(st: State, u: State, m: Memory, a: cell, k: cell)
    requires StacksOk(st) && SameFrame(st, u)
    ensures Found(u, m, a, k) == Found(st, m, a, k) && Valued(u, m, a, k) == Valued(st, m, a, k)
  {
    hide FindEntry, ReadText, ReturnOf, ControlOf;
  }

  lemma NoEntry(st: State, m: Memory, a: cell, k: cell)
    requires Found(st, m, a, k).1 == 0
    ensures Found(st, m, a, k).0 == a
  {
    hide FindEntry, IsImmediate;
  }
}
