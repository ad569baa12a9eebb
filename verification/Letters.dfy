// strncasecmp, and what it means for two names to be the same but for case.
module Letters {
  import opened Dataspace

  function Lower(c: byte): byte {
    if 65 <= c <= 90 then c + 32 else c
  }

  // strncasecmp(...) == 0 over n characters: stops early at a common NUL.
  predicate SameName(m: Memory, a: cell, b: cell, n: nat)
    requires a + n <= SIZE && b + n <= SIZE
    decreases n
  {
    n == 0 || (Lower(m[a]) == Lower(m[b]) && (m[a] == 0 || (n > 1 ==> SameName(m, a + 1, b + 1, n - 1))))
  }

  // strncasecmp over n characters.
  method SameCharacters(mem: array<byte>, a: cell, b: cell, n: nat) returns (same: bool)
    requires mem.Length == SIZE && a + n <= 0xFFFF && b + n <= 0xFFFF
    ensures same == SameName(mem[..], a, b, n)
  {
    ghost var m: Memory := mem[..];
    var i := 0;
    same := true;
    while i < n
      invariant 0 <= i <= n && same && SameName(m, a, b, n) == SameName(m, a + i, b + i, n - i)
    {
      if Lower(mem[a + i]) != Lower(mem[b + i]) {
        return false;
      }
      if mem[a + i] == 0 {
        return true;
      }
      i := i + 1;
    }
  }

  const SMALL := "abcdefghijklmnopqrstuvwxyz"
  const CAPITAL := "ABCDEFGHIJKLMNOPQRSTUVWXYZ"

  // Two characters that differ at most in case: they are the same, or at the same
  // place in the two alphabets.
  ghost predicate SameLetter(x: byte, y: byte) {
    x == y || exists i :: 0 <= i < 26 && {x as int, y as int} == {SMALL[i] as int, CAPITAL[i] as int}
  }

  ghost predicate SameLetters(x: seq<byte>, y: seq<byte>) {
    |x| == |y| && forall i :: 0 <= i < |x| ==> SameLetter(x[i], y[i])
  }

  // Folding makes two characters equal exactly when they are the same letter.
  lemma FoldsCase(x: byte, y: byte)
    ensures Lower(x) == Lower(y) <==> SameLetter(x, y)
  {
    Alphabets();
    if Lower(x) == Lower(y) && x != y {
      var i := Lower(x) as int - 97;
      assert {x as int, y as int} == {SMALL[i] as int, CAPITAL[i] as int};
    }
    if x != y && SameLetter(x, y) {
      var i :| 0 <= i < 26 && {x as int, y as int} == {SMALL[i] as int, CAPITAL[i] as int};
      assert x as int in {SMALL[i] as int, CAPITAL[i] as int} && y as int in {SMALL[i] as int, CAPITAL[i] as int};
    }
  }

  lemma Alphabets()
    ensures |SMALL| == |CAPITAL| == 26
    ensures forall i :: 0 <= i < 26 ==> SMALL[i] as int == 97 + i && CAPITAL[i] as int == 65 + i
  {
  }

  // Names that differ in case only are alike for every other name.
  lemma Recased(x: seq<byte>, y: seq<byte>, z: seq<byte>)
    requires SameLetters(x, y)
    ensures SameLetters(x, z) <==> SameLetters(y, z)
  {
    hide SameLetter;
    if |x| == |z| {
      forall i | 0 <= i < |x| ensures SameLetter(x[i], z[i]) <==> SameLetter(y[i], z[i]) {
        FoldsCase(x[i], y[i]);
        FoldsCase(x[i], z[i]);
        FoldsCase(y[i], z[i]);
      }
    }
  }

  // strncasecmp over the counts agrees with equality of letters when the word
  // looked for holds no NUL.
  lemma {:induction false} SameNameLetters(m: Memory, a: cell, b: cell, n: nat)
    requires a + n <= 0xFFFF && b + n <= 0xFFFF && forall i :: a <= i < a + n ==> m[i] != 0
    ensures SameName(m, a, b, n) <==> SameLetters(m[a..a + n], m[b..b + n])
    decreases n
  {
    hide Lower, SameLetter;
    if n > 0 {
      SameNameLetters(m, a + 1, b + 1, n - 1);
      FoldsCase(m[a], m[b]);
      assert m[a..a + n] == [m[a]] + m[a + 1..a + n];
      assert m[b..b + n] == [m[b]] + m[b + 1..b + n];
      var x, y := m[a + 1..a + n], m[b + 1..b + n];
      if SameLetters(m[a..a + n], m[b..b + n]) {
        forall i | 0 <= i < |x| ensures SameLetter(x[i], y[i]) {
          assert m[a..a + n][i + 1] == x[i] && m[b..b + n][i + 1] == y[i];
        }
        assert m[a..a + n][0] == m[a] && m[b..b + n][0] == m[b];
      }
    }
  }
}
