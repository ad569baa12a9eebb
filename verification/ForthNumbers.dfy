// The numbers (NUMBER) accepts, in the base the system variable BASE holds.
module ForthNumbers {
  import opened Dataspace
  import opened Numerals
  import opened ForthState
  import opened ForthWords

  // The characters counted by the byte at addr.
  function TextAt(m: Memory, addr: cell): (r: seq<byte>)
    ensures |r| == if m[addr] == 0 then 1 else m[addr] as int
  {
    TextOf(m, Wrap(addr + 1), m[addr])
  }

  // A counted string converts to k exactly when it is a quoted character of that signed
  // code, or a numeral of that value modulo 64K.
  lemma CountedNumbers(m: Memory, addr: cell, k: cell)
    ensures var text, base := TextAt(m, addr), Fetch16(m, LOC_BASE);
            ReadNumber(m, addr) == Converted(k) <==>
            || (IsQuoted(text) && k == Wrap(if text[1] < 128 then text[1] as int else text[1] as int - 256))
            || exists n :: Formed(n, base) && Spelled(n) == text && k == Wrap(ValueOf(n, base))
  {
    hide Formed, ReadText, Fetch16, TextOf, ValueOf, Spelled;
    NumbersRead(m, Wrap(addr + 1), m[addr], Fetch16(m, LOC_BASE), k);
  }
}
