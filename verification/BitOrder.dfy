/** The shifts and masks of the u32 helpers, on bit vectors: they write and read the same bytes as the quotients and
    remainders of module NetworkOrder. */
module BitOrder {
  import opened NetworkOrder
  import opened Words

  /** The number a bit vector stands for. */
  function Val(v: bv32): nat {
    v as int
  }

  // ----- Taking a word apart -----

  lemma SplitAt24(v: bv32)
    ensures Val(v) == Val(v >> 24) * 0x100_0000 + Val(v & 0xFF_FFFF)
  {
    assert v as int == (v & 0xFF00_0000) as int + (v & 0xFF_FFFF) as int;
    assert (v >> 24) << 24 == v & 0xFF00_0000;
  }

  lemma SplitAt16(v: bv32)
    requires v <= 0xFF_FFFF
    ensures Val(v) == Val(v >> 16) * 0x1_0000 + Val(v & 0xFFFF)
  {
  }

  lemma SplitAt8(v: bv32)
    requires v <= 0xFFFF
    ensures Val(v) == Val(v >> 8) * 0x100 + Val(v & 0xFF)
  {
  }

  lemma ByteFits(v: bv32)
    requires v <= 0xFF
    ensures Val(v) < 0x100
  {
  }

  /** The four bytes the source writes, most significant first. */
  function ShiftedBytes(v: bv32): (bytes: seq<byte>)
    ensures |bytes| == 4
  {
    ByteFits((v >> 24) & 0xFF);
    ByteFits((v >> 16) & 0xFF);
    ByteFits((v >> 8) & 0xFF);
    ByteFits(v & 0xFF);
    [Val((v >> 24) & 0xFF), Val((v >> 16) & 0xFF), Val((v >> 8) & 0xFF), Val(v & 0xFF)]
  }

  lemma Pieces(v: bv32)
    ensures var r := v & 0xFF_FFFF;
            var s := r & 0xFFFF;
            && r <= 0xFF_FFFF && s <= 0xFFFF
            && v >> 24 == (v >> 24) & 0xFF && r >> 16 == (v >> 16) & 0xFF
            && s >> 8 == (v >> 8) & 0xFF && s & 0xFF == v & 0xFF
  {
  }

  lemma ReadOfShifted(v: bv32)
    ensures Read(ShiftedBytes(v)) == Val(v)
  {
    hide Val;
    var r := v & 0xFF_FFFF;
    var s := r & 0xFFFF;
    Pieces(v);
    SplitAt24(v);
    SplitAt16(r);
    SplitAt8(s);
  }

  /** Shifting and masking writes the same bytes as `Write`. */
  lemma WriteIsShifts(v: bv32)
    ensures Val(v) <= U32_MAX && Write(Val(v)) == ShiftedBytes(v)
  {
    hide Write, Read, ShiftedBytes, Val;
    ReadOfShifted(v);
    WriteOfRead(ShiftedBytes(v));
  }

  // ----- Putting a word together -----

  /** What the source's reader computes. */
  function ShiftedSum(a: bv32, b: bv32, c: bv32, d: bv32): bv32 {
    (a << 24) + (b << 16) + (c << 8) + d
  }

  lemma ShiftedOfSum(a: bv32, b: bv32, c: bv32, d: bv32)
    requires a <= 0xFF && b <= 0xFF && c <= 0xFF && d <= 0xFF
    ensures var v := ShiftedSum(a, b, c, d);
            (v >> 24) & 0xFF == a && (v >> 16) & 0xFF == b && (v >> 8) & 0xFF == c && v & 0xFF == d
  {
  }

  /** Adding up shifted bytes reads the same value as `Read`. */
  lemma ReadIsShifts(a: bv32, b: bv32, c: bv32, d: bv32)
    requires a <= 0xFF && b <= 0xFF && c <= 0xFF && d <= 0xFF
    ensures Val(a) < 0x100 && Val(b) < 0x100 && Val(c) < 0x100 && Val(d) < 0x100
    ensures Val(ShiftedSum(a, b, c, d)) == Read([Val(a), Val(b), Val(c), Val(d)])
  {
    hide Read, Val, ShiftedSum;
    ByteFits(a);
    ByteFits(b);
    ByteFits(c);
    ByteFits(d);
    ShiftedOfSum(a, b, c, d);
    ReadOfShifted(ShiftedSum(a, b, c, d));
  }

  // ----- Every word -----

  lemma NextByte(v: bv32)
    requires v <= 0xFF && Val(v) < 0xFF
    ensures v < 0xFF && Val(v + 1) == Val(v) + 1
  {
  }

  function ByteBits(x: byte): (v: bv32)
    ensures v <= 0xFF && Val(v) == x
  {
    if x == 0 then 0
    else
      var before := ByteBits(x - 1);
      NextByte(before);
      before + 1
  }

  /** The bits of a word, from its bytes. */
  function Bits(value: u32): bv32 {
    var bytes := Write(value);
    ShiftedSum(ByteBits(bytes[0]), ByteBits(bytes[1]), ByteBits(bytes[2]), ByteBits(bytes[3]))
  }

  /** So `Write` does to every word what the source's shifts and masks do to its bits. */
  lemma WriteIsShiftsOfBits(value: u32)
    ensures Val(Bits(value)) == value && Write(value) == ShiftedBytes(Bits(value))
  {
    var bytes := Write(value);
    hide Write, Read, ShiftedBytes, ByteBits, Val, ShiftedSum;
    ReadIsShifts(ByteBits(bytes[0]), ByteBits(bytes[1]), ByteBits(bytes[2]), ByteBits(bytes[3]));
    assert bytes == [bytes[0], bytes[1], bytes[2], bytes[3]];
    ReadOfWrite(value);
    WriteIsShifts(Bits(value));
  }
}
