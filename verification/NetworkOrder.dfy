/** The big-endian u32 helpers of the multipart codec. They are written with quotients and remainders; that the shifts
    and masks of the source come to the same is proved in module BitOrder. */
module NetworkOrder {
  import opened Words

  function Write(value: u32): (bytes: seq<byte>)
    ensures |bytes| == 4
  {
    [(value / 0x100_0000) % 0x100, (value / 0x1_0000) % 0x100, (value / 0x100) % 0x100, value % 0x100]
  }

  function Read(bytes: seq<byte>): u32
    requires |bytes| == 4
  {
    (bytes[0] as int) * 0x100_0000 + (bytes[1] as int) * 0x1_0000 + (bytes[2] as int) * 0x100 + bytes[3] as int
  }

  lemma Quotients(value: u32)
    ensures value / 0x1_0000 == value / 0x100 / 0x100
    ensures value / 0x100_0000 == value / 0x1_0000 / 0x100 < 0x100
  {
  }

  lemma Division(value: nat)
    ensures value == value / 0x100 * 0x100 + value % 0x100
  {
  }

  /** The reader undoes the writer. */
  lemma ReadOfWrite(value: u32)
    ensures Read(Write(value)) == value
  {
    var bytes := Write(value);
    Quotients(value);
    Division(value);
    Division(value / 0x100);
    Division(value / 0x1_0000);
    Division(value / 0x100_0000);
    assert value / 0x100_0000 / 0x100 == 0;
    assert bytes[0] == value / 0x100_0000 && bytes[3] == value % 0x100;
    assert bytes[1] == value / 0x1_0000 % 0x100 && bytes[2] == value / 0x100 % 0x100;
    hide Write;
  }

  /** The writer undoes the reader: distinct byte quadruples stand for distinct sizes. */
  lemma WriteOfRead(bytes: seq<byte>)
    requires |bytes| == 4
    ensures Write(Read(bytes)) == bytes
  {
    var value := Read(bytes);
    assert value / 0x100_0000 == bytes[0];
    assert value / 0x1_0000 == (bytes[0] as int) * 0x100 + bytes[1] as int;
    assert value / 0x100 == (bytes[0] as int) * 0x1_0000 + (bytes[1] as int) * 0x100 + bytes[2] as int;
    assert Write(value) == bytes;
  }

  /** Writes the four bytes of `value` at offset `at` and touches nothing else. */
  method WriteNetworkOrder(buf: array<byte>, at: nat, value: u32)
    requires at + 4 <= buf.Length
    modifies buf
    ensures buf[..] == old(buf[..at]) + Write(value) + old(buf[at + 4..])
  {
    buf[at] := (value / 0x100_0000) % 0x100;
    buf[at + 1] := (value / 0x1_0000) % 0x100;
    buf[at + 2] := (value / 0x100) % 0x100;
    buf[at + 3] := value % 0x100;
    assert buf[at..at + 4] == Write(value);
    assert buf[..at] == old(buf[..at]);
    assert buf[at + 4..] == old(buf[at + 4..]);
    assert buf[..] == buf[..at] + buf[at..at + 4] + buf[at + 4..];
  }

  /** Reads four bytes of `buf` from offset `at`. */
  method ReadU32NetworkOrder(buf: array<byte>, at: nat) returns (value: u32)
    requires at + 4 <= buf.Length
    ensures value == Read(buf[at..at + 4])
    ensures Write(value) == buf[at..at + 4]
  {
    value := (buf[at] as int) * 0x100_0000 + (buf[at + 1] as int) * 0x1_0000 + (buf[at + 2] as int) * 0x100
      + buf[at + 3] as int;
    WriteOfRead(buf[at..at + 4]);
  }
}
