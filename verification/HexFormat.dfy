// Intel HEX data records and the end-of-file record: what the assembler's
// writer prints and what the emulator's loader makes of a text.
module HexFormat {
  import opened Dataspace

  const RECORD_SIZE := 16

  const END_OF_FILE := ":00000001FF\n"

  function HexDigit(d: nat): char
    requires d < 16
  {
    if d < 10 then '0' + d as char else 'A' + (d - 10) as char
  }

  function HexByte(b: byte): string {
    [HexDigit(b / 16), HexDigit(b % 16)]
  }

  function HexBytes(bs: seq<byte>): (r: string)
    ensures |r| == 2 * |bs|
  {
    if bs == [] then "" else HexByte(bs[0]) + HexBytes(bs[1..])
  }

  function Sum(bs: seq<byte>): nat {
    if bs == [] then 0 else bs[0] + Sum(bs[1..])
  }

  // Byte count, load address, record type, data.
  function Fields(address: cell, bytes: seq<byte>): (r: seq<byte>)
    requires |bytes| < 0x100
    ensures |r| == 4 + |bytes|
  {
    [|bytes| as byte, address / 0x100, address % 0x100, 0] + bytes
  }

  function Checksum(bs: seq<byte>): byte {
    (0x100 - Sum(bs) % 0x100) % 0x100
  }

  function Record(address: cell, bytes: seq<byte>): (r: string)
    requires |bytes| < 0x100
    ensures |r| == 12 + 2 * |bytes|
  {
    ":" + HexBytes(Fields(address, bytes) + [Checksum(Fields(address, bytes))]) + "\n"
  }

  // The writer: the text written so far, the address of the first byte that is
  // still buffered, and the buffered bytes.
  datatype Writer = Writer(out: string, address: cell, pending: seq<byte>)

  predicate WriterOk(w: Writer) {
    |w.pending| < RECORD_SIZE
  }

  function Push(w: Writer, b: byte): (r: Writer)
    requires WriterOk(w)
    ensures WriterOk(r)
  {
    var bytes := w.pending + [b];
    if |bytes| == RECORD_SIZE then Writer(w.out + Record(w.address, bytes), Wrap(w.address + RECORD_SIZE), [])
    else w.(pending := bytes)
  }

  function Flush(w: Writer): (r: Writer)
    requires WriterOk(w)
    ensures WriterOk(r) && r.pending == []
  {
    if w.pending == [] then w
    else Writer(w.out + Record(w.address, w.pending), Wrap(w.address + |w.pending|), [])
  }

  function SetStart(w: Writer, address: cell): Writer {
    w.(address := address, pending := [])
  }

  // The loader.

  // hex_get_byte's digit: no check, the result cut to a byte.
  function DigitValue(c: char): byte {
    (if c > '9' then c as int - 'A' as int + 10 else c as int - '0' as int) % 0x100
  }

  function GetByte(line: string, n: nat): byte
    requires n + 1 < |line|
  {
    (DigitValue(line[n]) as int * 16 + DigitValue(line[n + 1]) as int) % 0x100
  }

  function GetBytes(line: string, n: nat, count: nat): (r: seq<byte>)
    requires n + 2 * count <= |line|
    ensures |r| == count
    decreases count
  {
    if count == 0 then [] else [GetByte(line, n)] + GetBytes(line, n + 2, count - 1)
  }

  // fgets with a buffer of 1024: a line ends after its newline, or after 1023
  // characters.
  const LINE_LIMIT := 1023

  function LineLength(text: string, limit: nat): (n: nat)
    ensures n <= |text| && n <= limit && (text != [] && limit > 0 ==> n > 0)
  {
    if text == "" || limit == 0 then 0
    else if text[0] == '\n' then 1
    else 1 + LineLength(text[1..], limit - 1)
  }

  // Unspecified: the original would read past the end of the line or write
  // past the end of memory.
  datatype LineEffect = Go(mem: Memory) | TooShort | EndOfData | Unspecified

  function LoadLine(line: string, m: Memory): LineEffect {
    if line == "" || line[0] != ':' then Go(m)
    else if |line| < 11 then TooShort
    else
      var count := GetByte(line, 1);
      var location := GetByte(line, 3) as int * 0x100 + GetByte(line, 5) as int;
      var kind := GetByte(line, 7);
      if kind == 0 then
        if 9 + 2 * count as int <= |line| && location + count as int <= SIZE
        then if count == 0 then Go(m) else Go(Blit(m, location, GetBytes(line, 9, count)))
        else Unspecified
      else if kind == 1 then EndOfData
      else Go(m)
  }

  datatype Loaded = Loaded(ok: bool, mem: Memory) | Lost

  function LoadText(text: string, m: Memory): Loaded
    decreases |text|
  {
    if text == "" then Loaded(true, m)
    else
      var n := LineLength(text, LINE_LIMIT);
      match LoadLine(text[..n], m)
      case Go(m') => LoadText(text[n..], m')
      case TooShort => Loaded(false, m)
      case EndOfData => Loaded(true, m)
      case Unspecified => Lost
  }
}
