// Loading what the writer wrote: every byte that was pushed is in memory at
// its own address, and nothing else has changed.
module HexRoundTrip {
  import opened Dataspace
  import opened HexFormat

  // What is asked of the writer: a byte, a flush, or a flush and a new start
  // address.
  datatype Op = Emit(value: byte) | Cut | Origin(address: cell)

  function Do(w: Writer, op: Op): (r: Writer)
    requires WriterOk(w)
    ensures WriterOk(r)
  {
    match op
    case Emit(b) => Push(w, b)
    case Cut => Flush(w)
    case Origin(a) => SetStart(Flush(w), a)
  }

  function DoAll(w: Writer, ops: seq<Op>): (r: Writer)
    requires WriterOk(w)
    ensures WriterOk(r)
    decreases |ops|
  {
    if ops == [] then w else Do(DoAll(w, ops[..|ops| - 1]), ops[|ops| - 1])
  }

  // The text of a whole run: the last bytes are flushed and the file is ended.
  function Written(ops: seq<Op>): string {
    Flush(DoAll(Writer("", 0, []), ops)).out + END_OF_FILE
  }

  // The same requests applied to memory directly.
  datatype Image = Image(mem: Memory, at: nat)

  function Place(i: Image, op: Op): Image {
    match op
    case Emit(b) => if i.at < SIZE then Image(Store8(i.mem, i.at, b), i.at + 1) else i
    case Cut => i
    case Origin(a) => i.(at := a)
  }

  function PlaceAll(i: Image, ops: seq<Op>): Image
    decreases |ops|
  {
    if ops == [] then i else Place(PlaceAll(i, ops[..|ops| - 1]), ops[|ops| - 1])
  }

  // Where the next byte goes.
  function Position(start: nat, ops: seq<Op>): nat
    decreases |ops|
  {
    if ops == [] then start
    else
      match ops[|ops| - 1]
      case Emit(_) => Position(start, ops[..|ops| - 1]) + 1
      case Cut => Position(start, ops[..|ops| - 1])
      case Origin(a) => a
  }

  // No byte is pushed past the end of the address space.
  ghost predicate Fits(start: nat, ops: seq<Op>) {
    forall k :: 0 <= k < |ops| && ops[k].Emit? ==> Position(start, ops[..k]) < SIZE
  }

  lemma DigitBack(d: nat)
    requires d < 16
    ensures DigitValue(HexDigit(d)) == d && HexDigit(d) != '\n'
  {
  }

  // Records are written with these digits, most significant first.
  lemma DigitsWritten(b: byte)
    ensures b / 16 < 16 && HexByte(b) == ["0123456789ABCDEF"[b / 16], "0123456789ABCDEF"[b % 16]]
  {
    assert forall d :: 0 <= d < 16 ==>
      "0123456789ABCDEF"[d] as int == if d < 10 then '0' as int + d else 'A' as int + d - 10;
  }

  lemma {:induction false} BytesBack(line: string, n: nat, bs: seq<byte>)
    requires n + 2 * |bs| <= |line| && line[n..n + 2 * |bs|] == HexBytes(bs)
    ensures GetBytes(line, n, |bs|) == bs
    decreases |bs|
  {
    if bs != [] {
      var b := bs[0];
      assert HexBytes(bs) == HexByte(b) + HexBytes(bs[1..]);
      assert line[n] == line[n..n + 2 * |bs|][0] && line[n + 1] == line[n..n + 2 * |bs|][1];
      DigitBack(b / 16);
      DigitBack(b % 16);
      assert line[n + 2..n + 2 * |bs|] == line[n..n + 2 * |bs|][2..] == HexBytes(bs[1..]);
      BytesBack(line, n + 2, bs[1..]);
    }
  }

  lemma {:induction false} HexHasNoNewline(bs: seq<byte>)
    ensures '\n' !in HexBytes(bs)
    decreases |bs|
  {
    if bs != [] {
      DigitBack(bs[0] / 16);
      DigitBack(bs[0] % 16);
      HexHasNoNewline(bs[1..]);
    }
  }

  lemma {:induction false} LineEnds(text: string, limit: nat, k: nat)
    requires k < |text| && k < limit && text[k] == '\n' && forall i :: 0 <= i < k ==> text[i] != '\n'
    ensures LineLength(text, limit) == k + 1
    decreases k
  {
    if k > 0 {
      LineEnds(text[1..], limit - 1, k - 1);
    }
  }

  lemma SumAppend(xs: seq<byte>, ys: seq<byte>)
    ensures Sum(xs + ys) == Sum(xs) + Sum(ys)
  {
    if xs == [] {
      assert xs + ys == ys;
    } else {
      assert (xs + ys)[1..] == xs[1..] + ys;
      SumAppend(xs[1..], ys);
    }
  }

  // A record, read back two digits at a time.
  lemma RecordBytes(address: cell, bytes: seq<byte>)
    requires |bytes| < 0x100
    ensures GetBytes(Record(address, bytes), 1, |bytes| + 5)
            == Fields(address, bytes) + [Checksum(Fields(address, bytes))]
  {
    var f := Fields(address, bytes);
    LineBytes(Record(address, bytes), f + [Checksum(f)], "\n");
  }

  lemma LineBytes(line: string, all: seq<byte>, end: string)
    requires line == ":" + HexBytes(all) + end
    ensures 1 + 2 * |all| <= |line| && GetBytes(line, 1, |all|) == all
  {
    hide HexBytes, GetBytes;
    assert line[1..1 + 2 * |all|] == HexBytes(all);
    BytesBack(line, 1, all);
  }

  // The bytes of every record sum to 0 modulo 256.
  lemma RecordSums(address: cell, bytes: seq<byte>)
    requires |bytes| < 0x100
    ensures Sum(GetBytes(Record(address, bytes), 1, |bytes| + 5)) % 0x100 == 0
  {
    hide HexBytes, Sum, GetBytes, Checksum, Fields, Record;
    RecordBytes(address, bytes);
    ChecksumCloses(Fields(address, bytes));
  }

  // So do those of the end-of-file record: no bytes, address 0, type 1.
  lemma EndOfFileSums()
    ensures GetBytes(END_OF_FILE, 1, 5) == [0, 0, 0, 1, 0xFF]
    ensures Sum(GetBytes(END_OF_FILE, 1, 5)) % 0x100 == 0
  {
    hide Sum, GetBytes;
    var f: seq<byte> := [0, 0, 0, 1];
    SmallSum();
    EndOfFileBytes();
    ChecksumCloses(f);
    assert f + [Checksum(f)] == [0, 0, 0, 1, 0xFF];
  }

  lemma SmallSum()
    ensures Sum([0, 0, 0, 1]) == 1
  {
    assert Sum([1]) == 1 && [0, 1][1..] == [1] && [0, 0, 1][1..] == [0, 1] && [0, 0, 0, 1][1..] == [0, 0, 1];
    assert Sum([0, 1]) == 1;
    assert Sum([0, 0, 1]) == 1;
  }

  lemma EndOfFileBytes()
    ensures GetBytes(END_OF_FILE, 1, 5) == [0, 0, 0, 1, 0xFF]
  {
    hide GetByte;
    var line := END_OF_FILE;
    assert GetByte(line, 9) == 0xFF && GetByte(line, 7) == 1 by { DigitsThere(); }
    assert GetByte(line, 5) == GetByte(line, 3) == GetByte(line, 1) == 0 by { DigitsThere(); }
    assert GetBytes(line, 9, 1) == [0xFF] + GetBytes(line, 11, 0);
    assert GetBytes(line, 7, 2) == [1, 0xFF];
    assert GetBytes(line, 5, 3) == [0, 1, 0xFF];
    assert GetBytes(line, 3, 4) == [0, 0, 1, 0xFF];
  }

  lemma DigitsThere()
    ensures GetByte(END_OF_FILE, 9) == 0xFF && GetByte(END_OF_FILE, 7) == 1
    ensures GetByte(END_OF_FILE, 5) == GetByte(END_OF_FILE, 3) == GetByte(END_OF_FILE, 1) == 0
  {
  }

  lemma ChecksumCloses(f: seq<byte>)
    ensures Sum(f + [Checksum(f)]) % 0x100 == 0
  {
    var s := Sum(f);
    SumAppend(f, [Checksum(f)]);
    assert Sum([Checksum(f)]) == Checksum(f);
    assert s == 0x100 * (s / 0x100) + s % 0x100;
  }

  lemma {:induction false} GetPart(line: string, n: nat, count: nat, k: nat)
    requires n + 2 * count <= |line| && k < count
    ensures n + 2 * k + 1 < |line| && GetByte(line, n + 2 * k) == GetBytes(line, n, count)[k]
    decreases k
  {
    if k > 0 { GetPart(line, n + 2, count - 1, k - 1); }
  }

  lemma RecordLine(address: cell, bytes: seq<byte>, rest: string)
    requires |bytes| <= RECORD_SIZE
    ensures LineLength(Record(address, bytes) + rest, LINE_LIMIT) == |Record(address, bytes)|
  {
    hide HexBytes, LineLength;
    var f := Fields(address, bytes);
    var line := Record(address, bytes);
    HexHasNoNewline(f + [Checksum(f)]);
    var k := |line| - 1;
    forall i | 0 <= i < k ensures (line + rest)[i] != '\n' {
      if i > 0 { assert line[i] == HexBytes(f + [Checksum(f)])[i - 1]; }
    }
    LineEnds(line + rest, LINE_LIMIT, k);
  }

  // One record: its bytes go where it says, provided they stay in memory.
  lemma LoadRecord(address: cell, bytes: seq<byte>, rest: string, m: Memory)
    requires 0 < |bytes| <= RECORD_SIZE
    ensures LoadText(Record(address, bytes) + rest, m) ==
            if address + |bytes| <= SIZE then LoadText(rest, Blit(m, address, bytes)) else Lost
  {
    hide HexBytes, LineLength, GetBytes, Blit, GetByte, Sum;
    var f := Fields(address, bytes);
    var all := f + [Checksum(f)];
    var line := Record(address, bytes);
    var text := line + rest;
    RecordLine(address, bytes, rest);
    assert text[..|line|] == line && text[|line|..] == rest;
    RecordBytes(address, bytes);
    GetPart(line, 1, |all|, 0);
    GetPart(line, 1, |all|, 1);
    GetPart(line, 1, |all|, 2);
    GetPart(line, 1, |all|, 3);
    assert line[9..9 + 2 * |bytes|] == HexBytes(bytes) by { DataPart(f, bytes, Checksum(f), line); }
    BytesBack(line, 9, bytes);
  }

  lemma {:induction false} HexAppend(xs: seq<byte>, ys: seq<byte>)
    ensures HexBytes(xs + ys) == HexBytes(xs) + HexBytes(ys)
    decreases |xs|
  {
    if xs == [] {
      assert xs + ys == ys;
    } else {
      assert (xs + ys)[1..] == xs[1..] + ys;
      HexAppend(xs[1..], ys);
    }
  }

  lemma DataPart(f: seq<byte>, bytes: seq<byte>, sum: byte, line: string)
    requires |f| == 4 + |bytes| && f[4..] == bytes && line == ":" + HexBytes(f + [sum]) + "\n"
    ensures line[9..9 + 2 * |bytes|] == HexBytes(bytes)
  {
    hide HexBytes;
    assert f + [sum] == f[..4] + (bytes + [sum]);
    HexAppend(f[..4], bytes + [sum]);
    HexAppend(bytes, [sum]);
  }

  lemma LoadEnd(m: Memory)
    ensures LoadText(END_OF_FILE, m) == Loaded(true, m)
  {
    hide LineLength;
    LineEnds(END_OF_FILE, LINE_LIMIT, 11);
    assert END_OF_FILE[..12] == END_OF_FILE;
  }

  // Records written so far, and the memory they load into.
  datatype Chunk = Chunk(address: cell, bytes: seq<byte>)

  predicate ChunkOk(c: Chunk) {
    0 < |c.bytes| <= RECORD_SIZE && c.address + |c.bytes| <= SIZE
  }

  function Text(cs: seq<Chunk>): string
    requires forall i :: 0 <= i < |cs| ==> ChunkOk(cs[i])
  {
    if cs == [] then "" else assert ChunkOk(cs[0]); Record(cs[0].address, cs[0].bytes) + Text(cs[1..])
  }

  function Apply(cs: seq<Chunk>, m: Memory): Memory
    requires forall i :: 0 <= i < |cs| ==> ChunkOk(cs[i])
    decreases |cs|
  {
    if cs == [] then m else assert ChunkOk(cs[0]); Apply(cs[1..], Blit(m, cs[0].address, cs[0].bytes))
  }

  lemma {:induction false} LoadChunks(cs: seq<Chunk>, rest: string, m: Memory)
    requires forall i :: 0 <= i < |cs| ==> ChunkOk(cs[i])
    ensures LoadText(Text(cs) + rest, m) == LoadText(rest, Apply(cs, m))
    decreases |cs|
  {
    hide Blit, LoadText, Record;
    if cs == [] {
      assert Text(cs) + rest == rest;
    } else {
      var c := cs[0];
      assert Text(cs) + rest == Record(c.address, c.bytes) + (Text(cs[1..]) + rest);
      LoadRecord(c.address, c.bytes, Text(cs[1..]) + rest, m);
      LoadChunks(cs[1..], rest, Blit(m, c.address, c.bytes));
    }
  }

  lemma {:induction false} AddChunk(cs: seq<Chunk>, c: Chunk, m: Memory)
    requires (forall i :: 0 <= i < |cs| ==> ChunkOk(cs[i])) && ChunkOk(c)
    ensures Text(cs + [c]) == Text(cs) + Record(c.address, c.bytes)
    ensures Apply(cs + [c], m) == Blit(Apply(cs, m), c.address, c.bytes)
    decreases |cs|
  {
    hide Blit, Record;
    if cs == [] {
      assert [c][1..] == [] && cs + [c] == [c];
      assert Text([c]) == Record(c.address, c.bytes) + Text([]);
    } else {
      assert (cs + [c])[1..] == cs[1..] + [c];
      AddChunk(cs[1..], c, Blit(m, cs[0].address, cs[0].bytes));
    }
  }

  // The writer against the image: records written, then bytes still pending.
  ghost predicate Agrees(w: Writer, cs: seq<Chunk>, m: Memory, i: Image) {
    && WriterOk(w) && (forall k :: 0 <= k < |cs| ==> ChunkOk(cs[k])) && w.out == Text(cs)
    && w.address + |w.pending| <= SIZE && i.at <= SIZE && Wrap(w.address + |w.pending|) == Wrap(i.at)
    && (w.pending != [] ==> w.address + |w.pending| == i.at)
    && i.mem == Blit(Apply(cs, m), w.address, w.pending)
  }

  lemma BlitNothing(m: Memory, a: cell)
    ensures Blit(m, a, []) == m
  {
  }

  lemma BlitNext(m: Memory, a: cell, bytes: seq<byte>, b: byte)
    requires a + |bytes| < SIZE
    ensures Blit(m, a, bytes + [b]) == Store8(Blit(m, a, bytes), a + |bytes|, b)
  {
  }

  lemma FlushAgrees(w: Writer, cs: seq<Chunk>, m: Memory, i: Image) returns (cs': seq<Chunk>)
    requires Agrees(w, cs, m, i)
    ensures Agrees(Flush(w), cs', m, i)
  {
    hide Blit, Text, Apply, Record;
    cs' := cs;
    if w.pending != [] {
      var c := Chunk(w.address, w.pending);
      cs' := cs + [c];
      AddChunk(cs, c, m);
      BlitNothing(Apply(cs', m), Flush(w).address);
    }
  }

  lemma PushAgrees(w: Writer, cs: seq<Chunk>, m: Memory, i: Image, b: byte) returns (cs': seq<Chunk>)
    requires Agrees(w, cs, m, i) && i.at < SIZE
    ensures Agrees(Push(w, b), cs', m, Place(i, Emit(b)))
  {
    hide Blit, Text, Apply, Record;
    cs' := cs;
    var bytes := w.pending + [b];
    assert w.address + |w.pending| == i.at;
    BlitNext(Apply(cs, m), w.address, w.pending, b);
    if |bytes| == RECORD_SIZE {
      var c := Chunk(w.address, bytes);
      cs' := cs + [c];
      AddChunk(cs, c, m);
      BlitNothing(Apply(cs', m), Push(w, b).address);
    }
  }

  lemma FitsPrefix(start: nat, ops: seq<Op>)
    requires ops != [] && Fits(start, ops)
    ensures Fits(start, ops[..|ops| - 1])
    ensures ops[|ops| - 1].Emit? ==> Position(start, ops[..|ops| - 1]) < SIZE
  {
    hide Position;
    var front := ops[..|ops| - 1];
    forall k | 0 <= k < |front| && front[k].Emit? ensures Position(start, front[..k]) < SIZE {
      assert front[..k] == ops[..k];
    }
  }

  lemma {:induction false} AllAgree(m: Memory, ops: seq<Op>) returns (cs: seq<Chunk>)
    requires Fits(0, ops)
    ensures Agrees(DoAll(Writer("", 0, []), ops), cs, m, PlaceAll(Image(m, 0), ops))
    ensures PlaceAll(Image(m, 0), ops).at == Position(0, ops)
    decreases |ops|
  {
    hide Blit, Text, Apply, Record, Fits, Push, Flush;
    if ops == [] {
      cs := [];
      EmptyAgrees(m);
    } else {
      FitsPrefix(0, ops);
      var front, op := ops[..|ops| - 1], ops[|ops| - 1];
      cs := AllAgree(m, front);
      var w, i := DoAll(Writer("", 0, []), front), PlaceAll(Image(m, 0), front);
      match op
      case Emit(b) => cs := PushAgrees(w, cs, m, i, b);
      case Cut => cs := FlushAgrees(w, cs, m, i);
      case Origin(a) =>
        cs := FlushAgrees(w, cs, m, i);
        BlitNothing(Apply(cs, m), Flush(w).address);
        BlitNothing(Apply(cs, m), a);
    }
  }

  lemma EmptyAgrees(m: Memory)
    ensures Agrees(Writer("", 0, []), [], m, Image(m, 0))
  {
    BlitNothing(m, 0);
  }

  // The round trip: for every sequence of requests that stays inside the
  // address space, loading the text gives the image of the requests.
  lemma RoundTrip(m: Memory, ops: seq<Op>)
    requires Fits(0, ops)
    ensures LoadText(Written(ops), m) == Loaded(true, PlaceAll(Image(m, 0), ops).mem)
  {
    hide Blit, Text, Apply, Record, Fits, Flush, DoAll, PlaceAll, LoadText;
    var cs := AllAgree(m, ops);
    var w, i := DoAll(Writer("", 0, []), ops), PlaceAll(Image(m, 0), ops);
    cs := FlushAgrees(w, cs, m, i);
    BlitNothing(Apply(cs, m), Flush(w).address);
    LoadChunks(cs, END_OF_FILE, m);
    LoadEnd(i.mem);
  }

  // The image, byte by byte: the last byte placed at an address is the one that
  // stays, and an address no byte was placed at keeps what it had.
  ghost predicate LastAt(ops: seq<Op>, a: cell, k: nat) {
    && k < |ops| && ops[k].Emit? && Position(0, ops[..k]) == a
    && forall j :: k < j < |ops| && ops[j].Emit? ==> Position(0, ops[..j]) != a
  }

  lemma {:induction false} ImageByte(m: Memory, ops: seq<Op>, a: cell)
    requires Fits(0, ops)
    ensures PlaceAll(Image(m, 0), ops).at == Position(0, ops)
    ensures forall k: nat :: LastAt(ops, a, k) ==> PlaceAll(Image(m, 0), ops).mem[a] == ops[k].value
    ensures (forall k :: 0 <= k < |ops| && ops[k].Emit? ==> Position(0, ops[..k]) != a) ==>
              PlaceAll(Image(m, 0), ops).mem[a] == m[a]
    decreases |ops|
  {
    if ops != [] {
      var n := |ops| - 1;
      var front := ops[..n];
      assert forall k :: 0 <= k <= n ==> front[..k] == ops[..k];
      FitsPrefix(0, ops);
      ImageByte(m, front, a);
      forall k: nat | LastAt(ops, a, k) ensures PlaceAll(Image(m, 0), ops).mem[a] == ops[k].value {
        if k < n {
          assert LastAt(front, a, k);
        }
      }
    }
  }

  // What the loader makes of other lines.

  predicate OneLine(line: string) {
    |line| < 1023 && '\n' !in line
  }

  lemma NextLine(line: string, rest: string)
    requires OneLine(line)
    ensures var text := line + "\n" + rest;
            LineLength(text, LINE_LIMIT) == |line| + 1 && text[..|line| + 1] == line + "\n"
              && text[|line| + 1..] == rest
  {
    LineEnds(line + "\n" + rest, LINE_LIMIT, |line|);
  }

  // Lines that are no records are passed over, and so are records of a type other than
  // 0 and 1.
  lemma OtherLine(line: string, rest: string, m: Memory)
    requires OneLine(line)
    requires || line == "" || line[0] != ':' || (|line| >= 10 && GetByte(line, 7) !in {0, 1})
    ensures LoadText(line + "\n" + rest, m) == LoadText(rest, m)
  {
    hide LineLength, GetBytes, DigitValue, Blit;
    NextLine(line, rest);
  }

  // A record of fewer than ten characters ends the loading without success; what was
  // loaded before it stays.
  lemma ShortRecord(line: string, rest: string, m: Memory)
    requires OneLine(line) && 0 < |line| < 10 && line[0] == ':'
    ensures LoadText(line + "\n" + rest, m) == Loaded(false, m)
  {
    hide LineLength, GetBytes, DigitValue, Blit;
    NextLine(line, rest);
  }

  // Nothing is read behind the end-of-file record.
  lemma NothingBehind(rest: string, m: Memory)
    ensures LoadText(END_OF_FILE + rest, m) == Loaded(true, m)
  {
    hide LineLength, GetBytes, Blit;
    var line := END_OF_FILE[..11];
    assert END_OF_FILE == line + "\n";
    NextLine(line, rest);
  }

  // A record is written when the sixteenth byte is pushed, and not before.

  function Emits(bytes: seq<byte>): seq<Op> {
    seq(|bytes|, i requires 0 <= i < |bytes| => Emit(bytes[i]))
  }

  lemma {:induction false} Pending(w: Writer, bytes: seq<byte>)
    requires w.pending == [] && |bytes| < 16
    ensures DoAll(w, Emits(bytes)) == w.(pending := bytes)
    decreases |bytes|
  {
    if bytes != [] {
      var n := |bytes| - 1;
      assert Emits(bytes)[..n] == Emits(bytes[..n]);
      Pending(w, bytes[..n]);
      assert bytes[..n] + [bytes[n]] == bytes;
    }
  }

  lemma FullRecord(w: Writer, bytes: seq<byte>)
    requires w.pending == [] && |bytes| == 16
    ensures DoAll(w, Emits(bytes)) == Writer(w.out + Record(w.address, bytes), Wrap(w.address + 16), [])
  {
    assert Emits(bytes)[..15] == Emits(bytes[..15]);
    Pending(w, bytes[..15]);
    assert bytes[..15] + [bytes[15]] == bytes;
  }
}
