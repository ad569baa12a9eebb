// The writer as the assembler keeps it: a sixteen-byte buffer, the number of
// bytes in it and the address of the first of them, updated in place.
module HexOutput {
  import opened Dataspace
  import opened HexFormat
  import opened HexRoundTrip

  lemma HexOne(b: byte)
    ensures HexBytes([b]) == HexByte(b)
  {
  }

  // One more byte: digits and running sum.
  lemma NextByte(f: seq<byte>, k: nat)
    requires k < |f|
    ensures HexBytes(f[..k + 1]) == HexBytes(f[..k]) + HexByte(f[k])
    ensures Sum(f[..k + 1]) == Sum(f[..k]) + f[k]
  {
    assert f[..k + 1] == f[..k] + [f[k]];
    HexAppend(f[..k], [f[k]]);
    SumAppend(f[..k], [f[k]]);
    HexOne(f[k]);
    assert Sum([f[k]]) == f[k];
  }

  lemma HeadBytes(f: seq<byte>)
    requires |f| >= 4
    ensures HexBytes(f[..4]) == HexByte(f[0]) + HexByte(f[1]) + HexByte(f[2]) + HexByte(f[3])
    ensures Sum(f[..4]) == f[0] as int + f[1] as int + f[2] as int + f[3] as int
  {
    hide HexByte;
    NextByte(f, 0);
    NextByte(f, 1);
    NextByte(f, 2);
    NextByte(f, 3);
    assert f[..0] == [];
  }

  // The sum after the three bytes the writer adds before the data.
  lemma HeadSum(f: seq<byte>, n: byte)
    requires |f| >= 4 && f[0] == n && f[3] == 0
    ensures HexBytes(f[..4]) == HexByte(f[0]) + HexByte(f[1]) + HexByte(f[2]) + HexByte(f[3])
    ensures Add8(Add8(Add8(0, n), f[2]), f[1]) == Sum(f[..4]) % 0x100
  {
    HeadBytes(f);
    AddSum(n, f[2]);
    AddSum(n + f[2], f[1]);
  }

  // The 8-bit arithmetic of the checksum.
  function Add8(a: byte, b: byte): byte {
    (a as int + b as int) % 0x100
  }

  function Negated(a: byte): byte {
    (0xFF - a + 1) % 0x100
  }

  lemma AddSum(s: nat, b: byte)
    ensures Add8(s % 0x100, b) == (s + b) % 0x100
  {
    var q, r := s / 0x100, s % 0x100;
    if r + b < 0x100 {
      assert s + b == 0x100 * q + (r + b);
    } else {
      assert s + b == 0x100 * (q + 1) + (r + b - 0x100);
    }
  }

  lemma NegatedSum(f: seq<byte>)
    ensures Negated(Sum(f) % 0x100) == Checksum(f)
  {
  }

  class HexWriter {
    var out: string
    const buffer: array<byte>
    var address: cell
    var count: nat

    ghost predicate Valid()
      reads this
    {
      buffer.Length == RECORD_SIZE && count < RECORD_SIZE
    }

    ghost function State(): (w: Writer)
      reads this, buffer
      requires Valid()
      ensures WriterOk(w)
    {
      Writer(out, address, buffer[..count])
    }

    constructor ()
      ensures Valid() && fresh(buffer) && State() == Writer("", 0, [])
    {
      out := "";
      buffer := new byte[RECORD_SIZE](_ => 0);
      address, count := 0, 0;
    }

    // hex_write_data_bytes: count, address and type, then the data with a
    // running 8-bit sum, then its two's complement.
    method WriteDataBytes(n: nat)
      requires buffer.Length == RECORD_SIZE && n <= RECORD_SIZE
      modifies this`out
      ensures out == old(out) + Record(address, buffer[..n])
    {
      hide HexByte, HexBytes, Sum, Fields, Add8, Negated, Checksum;
      ghost var f := Fields(address, buffer[..n]);
      FieldList(address, buffer[..n]);
      var checksum: byte := Add8(0, n);
      checksum := Add8(checksum, address % 0x100);
      checksum := Add8(checksum, address / 0x100);
      HeadSum(f, n);
      var digits;
      digits, checksum := DataDigits(n, checksum, f);
      NegatedSum(f);
      HexAppend(f, [Checksum(f)]);
      HexOne(Checksum(f));
      out := out + (":" + (HexByte(n) + HexByte(address / 0x100) + HexByte(address % 0x100) + HexByte(0) + digits)
                    + HexByte(Negated(checksum)) + "\n");
    }

    // The digits of the data and the sum that includes them.
    method DataDigits(n: nat, start: byte, ghost f: seq<byte>) returns (digits: string, checksum: byte)
      requires buffer.Length == RECORD_SIZE && n <= RECORD_SIZE && |f| == 4 + n && f[4..] == buffer[..n]
      requires start == Sum(f[..4]) % 0x100
      ensures HexBytes(f) == HexBytes(f[..4]) + digits && checksum == Sum(f) % 0x100
    {
      hide HexByte, HexBytes, Sum, Add8;
      digits, checksum := "", start;
      var i := 0;
      while i < n
        invariant 0 <= i <= n
        invariant HexBytes(f[..4 + i]) == HexBytes(f[..4]) + digits
        invariant checksum == Sum(f[..4 + i]) % 0x100
      {
        NextByte(f, 4 + i);
        assert f[4 + i] == f[4..][i] == buffer[i];
        AddSum(Sum(f[..4 + i]), buffer[i]);
        checksum := Add8(checksum, buffer[i]);
        digits := digits + HexByte(buffer[i]);
        i := i + 1;
      }
      assert f[..4 + n] == f;
    }

    method WriteEndOfFile()
      modifies this`out
      ensures out == old(out) + END_OF_FILE
    {
      out := out + ":00000001FF\n";
    }

    method SetStartAddress(a: cell)
      requires Valid()
      modifies this`address, this`count
      ensures Valid() && State() == SetStart(old(State()), a)
    {
      address := a;
      count := 0;
    }

    method PushByte(b: byte)
      requires Valid()
      modifies this, buffer
      ensures Valid() && State() == Push(old(State()), b)
    {
      hide Record;
      buffer[count] := b;
      count := count + 1;
      assert buffer[..count] == old(buffer[..count]) + [b];
      if count == RECORD_SIZE {
        WriteDataBytes(RECORD_SIZE);
        address := Wrap(address + RECORD_SIZE);
        count := 0;
      }
    }

    method FlushBytes()
      requires Valid()
      modifies this
      ensures Valid() && State() == Flush(old(State()))
    {
      hide Record;
      if count > 0 {
        WriteDataBytes(count);
        address := Wrap(address + count);
        count := 0;
      }
    }
  }

  lemma FieldList(address: cell, bytes: seq<byte>)
    requires |bytes| <= RECORD_SIZE
    ensures var f := Fields(address, bytes);
            && |f| == 4 + |bytes| && f[0] == |bytes| && f[1] == address / 0x100 && f[2] == address % 0x100 && f[3] == 0
            && f[4..] == bytes
  {
  }
}
