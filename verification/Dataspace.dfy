// The 64K byte array that both Forth systems live in, and its little-endian
// cells.  An address is a 16-bit cell, so every byte address is inside the
// array; a cell read or written at 0xFFFF would take its high byte from outside
// it, which C leaves undefined and this model closes by wrapping to byte 0.
module Dataspace {

  type byte = x: int | 0 <= x < 0x100
  type cell = x: int | 0 <= x < 0x1_0000

  const SIZE := 0x1_0000

  type Memory = m: seq<byte> | |m| == SIZE witness seq(SIZE, i => 0)

  // 16-bit unsigned wrap-around.
  function Wrap(x: int): cell {
    x % 0x1_0000
  }

  lemma WrapSum(a: cell, x: nat, y: nat)
    ensures Wrap(a) == a && Wrap(Wrap(a + x) + y) == Wrap(a + x + y)
  {
  }

  function Succ(a: cell): cell {
    if a == 0xFFFF then 0 else a + 1
  }

  function Fetch8(m: Memory, a: cell): byte {
    m[a]
  }

  function Fetch16(m: Memory, a: cell): cell {
    m[a] as int + 0x100 * m[Succ(a)] as int
  }

  function Store8(m: Memory, a: cell, v: byte): Memory {
    m[a := v]
  }

  function Store16(m: Memory, a: cell, v: cell): Memory {
    m[a := v % 0x100][Succ(a) := v / 0x100]
  }

  // isspace in the C locale.
  predicate IsWhite(c: byte) {
    c == 32 || 9 <= c <= 13
  }

  // How many characters fgets takes, given room for k.
  function FgetsLength(input: seq<byte>, k: nat): (n: nat)
    ensures n <= k && n <= |input|
    decreases k
  {
    if input == [] || k == 0 then 0 else if input[0] == 10 then 1 else 1 + FgetsLength(input[1..], k - 1)
  }

  // The characters before the first NUL.
  function CString(s: seq<byte>): (r: seq<byte>)
    ensures |r| <= |s|
  {
    if s == [] || s[0] == 0 then [] else [s[0]] + CString(s[1..])
  }

  const NEWLINE: byte := 10

  // A line and its newline, or as much of the line as there is room for.
  lemma {:induction false} FgetsLine(line: seq<byte>, rest: seq<byte>, k: nat)
    requires NEWLINE !in line
    ensures |line| < k ==> FgetsLength(line + [NEWLINE] + rest, k) == |line| + 1
    ensures |line| >= k ==> FgetsLength(line + [NEWLINE] + rest, k) == k
    decreases |line|
  {
    var input := line + [NEWLINE] + rest;
    if line != [] && k > 0 {
      assert input[1..] == line[1..] + [NEWLINE] + rest;
      FgetsLine(line[1..], rest, k - 1);
      assert line[0] in line;
    }
  }

  lemma {:induction false} NoNul(text: seq<byte>)
    requires 0 !in text
    ensures CString(text) == text
    decreases |text|
  {
    if text != [] { NoNul(text[1..]); }
  }

  // Copy a run of bytes into memory.
  function Blit(m: Memory, a: cell, bytes: seq<byte>): Memory
    requires a + |bytes| <= SIZE
  {
    m[..a] + bytes + m[a + |bytes|..]
  }

  // The two memories agree on the bytes lo, lo+1, ..., hi-1.
  ghost predicate SameOn(m: Memory, n: Memory, lo: int, hi: int) {
    forall i :: 0 <= lo <= i < hi <= SIZE ==> m[i] == n[i]
  }

  lemma SamePart(m: Memory, n: Memory, lo: int, hi: int, a: int, b: int)
    requires SameOn(m, n, lo, hi) && 0 <= lo <= a && b <= hi <= SIZE
    ensures SameOn(m, n, a, b)
  {
  }

  lemma SameBoth(m: Memory, n: Memory, o: Memory, lo: int, hi: int)
    requires SameOn(m, n, lo, hi) && SameOn(n, o, lo, hi)
    ensures SameOn(m, o, lo, hi)
  {
  }

  // The cells stored at lo, lo+2, ..., below hi.
  ghost function Cells(m: Memory, lo: cell, hi: cell): (r: seq<cell>)
    requires lo <= hi
    ensures |r| == (hi - lo) / 2
  {
    seq((hi - lo) / 2, i requires 0 <= i < (hi - lo) / 2 => Fetch16(m, lo + 2 * i))
  }

  lemma ByteSame(m: Memory, n: Memory, lo: int, hi: int, a: cell)
    requires 0 <= lo <= a < hi <= SIZE && SameOn(m, n, lo, hi)
    ensures m[a] == n[a]
  {
  }

  lemma FetchSame(m: Memory, n: Memory, lo: int, hi: int, a: cell)
    requires 0 <= lo <= a && a + 2 <= hi <= SIZE && SameOn(m, n, lo, hi)
    ensures Fetch16(m, a) == Fetch16(n, a)
  {
    assert m[a] == n[a] && m[a + 1] == n[a + 1];
  }

  lemma FetchStored(m: Memory, a: cell, v: cell)
    ensures Fetch16(Store16(m, a, v), a) == v
  {
  }

  lemma FetchElsewhere(m: Memory, a: cell, v: cell, b: cell)
    requires a + 2 <= b || b + 2 <= a
    requires a < 0xFFFF && b < 0xFFFF
    ensures Fetch16(Store16(m, a, v), b) == Fetch16(m, b)
  {
  }

  lemma StoreOutside(m: Memory, x: cell, v: cell, lo: int, hi: int)
    requires x < 0xFFFF && (x + 2 <= lo || hi <= x)
    ensures SameOn(m, Store16(m, x, v), lo, hi)
  {
  }

  lemma CellsFrame(m: Memory, n: Memory, lo: cell, hi: cell)
    requires lo <= hi && SameOn(m, n, lo, hi)
    ensures Cells(m, lo, hi) == Cells(n, lo, hi)
  {
    var k := (hi - lo) / 2;
    forall i | 0 <= i < k
      ensures Cells(m, lo, hi)[i] == Cells(n, lo, hi)[i]
    {
      assert lo <= lo + 2 * i < lo + 2 * i + 1 < hi;
      assert m[lo + 2 * i] == n[lo + 2 * i];
      assert m[lo + 2 * i + 1] == n[lo + 2 * i + 1];
    }
  }

  lemma CellsPush(m: Memory, lo: cell, hi: cell, v: cell)
    requires lo <= hi < 0xFFFE && (hi - lo) % 2 == 0
    ensures Cells(Store16(m, hi, v), lo, hi + 2) == Cells(m, lo, hi) + [v]
  {
    var n := Store16(m, hi, v);
    CellsFrame(m, n, lo, hi);
    FetchStored(m, hi, v);
    assert lo + 2 * ((hi - lo) / 2) == hi;
    assert Cells(n, lo, hi + 2)[..(hi - lo) / 2] == Cells(n, lo, hi);
  }

  lemma CellsPop(m: Memory, lo: cell, hi: cell)
    requires lo + 2 <= hi && (hi - lo) % 2 == 0
    ensures Cells(m, lo, hi) == Cells(m, lo, hi - 2) + [Fetch16(m, hi - 2)]
  {
    assert lo + 2 * ((hi - 2 - lo) / 2) == hi - 2;
  }
}
