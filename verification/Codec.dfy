/** The multipart codec `encode` / `decode` (ZeroMQ RFC 50): each part is its size followed by its data, where
    the size takes one byte below 255 and otherwise five, the first of them 0xFF. The decoder is lenient: it
    also accepts a five-byte size below 255. */
module Codec {
  import opened Framing
  import opened NetworkOrder
  import opened Words
  import opened Wrappers

  type Part = seq<byte>

  /** RangeError is the encoder's `range_error`; the other two are the two causes of the decoder's
      `out_of_range`. */
  datatype CodecError = RangeError | OverflowReadingSize | OverflowReadingPart

  // ----- What the bytes mean: a grammar of frames -----

  /** One encoded part: its data behind a one-byte or behind a five-byte size. */
  datatype Sized = Short(data: Part) | Long(data: Part)

  predicate WellFormed(f: Sized) {
    if f.Short? then |f.data| < U8_MAX else |f.data| <= U32_MAX
  }

  predicate AllWellFormed(fs: seq<Sized>) {
    forall i :: 0 <= i < |fs| ==> WellFormed(fs[i])
  }

  function PrintSize(f: Sized): (bytes: seq<byte>)
    requires WellFormed(f)
    ensures |bytes| == if f.Short? then 1 else 5
  {
    if f.Short? then [|f.data|] else [U8_MAX] + Write(|f.data|)
  }

  function PrintOne(f: Sized): (bytes: seq<byte>)
    requires WellFormed(f)
    ensures |bytes| == |f.data| + if f.Short? then 1 else 5
  {
    PrintSize(f) + f.data
  }

  function Print(fs: seq<Sized>): seq<byte>
    requires AllWellFormed(fs)
  {
    if fs == [] then [] else PrintOne(fs[0]) + Print(fs[1..])
  }

  function Data(fs: seq<Sized>): (parts: seq<Part>)
    ensures |parts| == |fs|
  {
    seq(|fs|, i requires 0 <= i < |fs| => fs[i].data)
  }

  // ----- The encoder -----

  /** The encoder's size test. */
  predicate Encodable(parts: seq<Part>) {
    forall i :: 0 <= i < |parts| ==> |parts[i]| <= U32_MAX
  }

  function Canonical(part: Part): Sized {
    if |part| < U8_MAX then Short(part) else Long(part)
  }

  function CanonicalAll(parts: seq<Part>): (fs: seq<Sized>)
    requires Encodable(parts)
    ensures |fs| == |parts|
    ensures AllWellFormed(fs)
  {
    seq(|parts|, i requires 0 <= i < |parts| => Canonical(parts[i]))
  }

  /** The encoding: every part with the shortest size field that can hold its size. */
  function Encoding(parts: seq<Part>): seq<byte>
    requires Encodable(parts)
  {
    Print(CanonicalAll(parts))
  }

  // ----- The decoder -----

  /** What the decoder leaves behind: the parts written to the output iterator, and how it ended. An error
      leaves the parts written before it. */
  datatype Decoded = Decoded(parts: seq<Part>, error: Option<CodecError>)

  /** The size field at the front of `bytes`: the part's size and the offset of its data. */
  function SizeField(bytes: seq<byte>): Result<(nat, nat), CodecError>
    requires bytes != []
  {
    if bytes[0] != U8_MAX then Success((bytes[0], 1))
    else if |bytes| - 1 < 4 then Failure(OverflowReadingSize)
    else Success((Read(bytes[1..5]), 5))
  }

  function Decoding(bytes: seq<byte>): Decoded
  {
    if bytes == [] then Decoded([], None)
    else match SizeField(bytes)
      case Failure(e) => Decoded([], Some(e))
      case Success((size, at)) =>
        if |bytes| - at < size then Decoded([], Some(OverflowReadingPart))
        else
          var rest := Decoding(bytes[at + size..]);
          Decoded([bytes[at..at + size]] + rest.parts, rest.error)
  }

  /** The frames of an accepted byte string. */
  function Parse(bytes: seq<byte>): seq<Sized>
    requires Decoding(bytes).error.None?
  {
    if bytes == [] then []
    else
      var (size, at) := SizeField(bytes).value;
      var data := bytes[at..at + size];
      [if at == 1 then Short(data) else Long(data)] + Parse(bytes[at + size..])
  }

  // ----- Printing and decoding are inverse -----

  lemma DataOfCons(f: Sized, fs: seq<Sized>)
    ensures Data([f] + fs) == [f.data] + Data(fs)
  {
  }

  lemma PrintOfCons(f: Sized, fs: seq<Sized>)
    requires WellFormed(f) && AllWellFormed(fs)
    ensures Print([f] + fs) == PrintOne(f) + Print(fs)
  {
    assert ([f] + fs)[1..] == fs;
  }

  lemma PrintConcat(a: seq<Sized>, b: seq<Sized>)
    requires AllWellFormed(a) && AllWellFormed(b)
    ensures Print(a + b) == Print(a) + Print(b)
  {
    if a == [] {
      assert a + b == b;
    } else {
      assert (a + b)[1..] == a[1..] + b;
      PrintConcat(a[1..], b);
    }
  }

  /** One printed frame in front of anything: the decoder reads exactly that frame. */
  lemma DecodeOne(f: Sized, rest: seq<byte>)
    requires WellFormed(f)
    ensures var d := Decoding(rest);
            Decoding(PrintOne(f) + rest) == Decoded([f.data] + d.parts, d.error)
  {
    var bytes := PrintOne(f) + rest;
    var at := if f.Short? then 1 else 5;
    if f.Long? {
      assert bytes[1..5] == Write(|f.data|);
      ReadOfWrite(|f.data|);
    }
    assert SizeField(bytes) == Success((|f.data|, at));
    assert bytes[at..at + |f.data|] == f.data;
    assert bytes[at + |f.data|..] == rest;
  }

  lemma {:induction false} DecodePrint(fs: seq<Sized>)
    requires AllWellFormed(fs)
    ensures Decoding(Print(fs)) == Decoded(Data(fs), None)
  {
    if fs == [] {
    } else {
      var tail := fs[1..];
      DecodePrint(tail);
      DecodeOne(fs[0], Print(tail));
      DataOfCons(fs[0], tail);
      assert fs == [fs[0]] + tail;
    }
  }

  /** A size field and as many bytes as it announces are one printed frame. */
  lemma FrontIsFrame(bytes: seq<byte>)
    requires bytes != [] && SizeField(bytes).Success?
    requires var (size, at) := SizeField(bytes).value; at + size <= |bytes|
    ensures var (size, at) := SizeField(bytes).value;
            var f := if at == 1 then Short(bytes[at..at + size]) else Long(bytes[at..at + size]);
            WellFormed(f) && bytes == PrintOne(f) + bytes[at + size..]
  {
    var (size, at) := SizeField(bytes).value;
    var data := bytes[at..at + size];
    if at == 5 {
      WriteOfRead(bytes[1..5]);
      assert PrintSize(Long(data)) == bytes[..5];
    } else {
      assert PrintSize(Short(data)) == bytes[..1];
    }
  }

  lemma {:induction false} PrintParse(bytes: seq<byte>)
    requires Decoding(bytes).error.None?
    ensures AllWellFormed(Parse(bytes))
    ensures Print(Parse(bytes)) == bytes
    ensures Data(Parse(bytes)) == Decoding(bytes).parts
    decreases |bytes|
  {
    if bytes == [] {
    } else {
      var (size, at) := SizeField(bytes).value;
      var rest := bytes[at + size..];
      var f := if at == 1 then Short(bytes[at..at + size]) else Long(bytes[at..at + size]);
      PrintParse(rest);
      FrontIsFrame(bytes);
      DataOfCons(f, Parse(rest));
      PrintOfCons(f, Parse(rest));
    }
  }

  /** The decoder accepts exactly the strings the grammar prints, and yields the data of their frames. */
  lemma DecoderAcceptsTheGrammar(bytes: seq<byte>, parts: seq<Part>)
    ensures Decoding(bytes) == Decoded(parts, None)
       <==> exists fs :: AllWellFormed(fs) && Print(fs) == bytes && Data(fs) == parts
  {
    if Decoding(bytes) == Decoded(parts, None) {
      PrintParse(bytes);
      var fs := Parse(bytes);
      assert AllWellFormed(fs) && Print(fs) == bytes && Data(fs) == parts;
    }
    if fs :| AllWellFormed(fs) && Print(fs) == bytes && Data(fs) == parts {
      DecodePrint(fs);
    }
  }

  // ----- Round trip and concatenation -----

  lemma DataOfCanonical(parts: seq<Part>)
    requires Encodable(parts)
    ensures Data(CanonicalAll(parts)) == parts
  {
  }

  /** Decoding the encoding of any list of parts below 2^32 bytes returns that list. */
  lemma RoundTrip(parts: seq<Part>)
    requires Encodable(parts)
    ensures Decoding(Encoding(parts)) == Decoded(parts, None)
  {
    DecodePrint(CanonicalAll(parts));
    DataOfCanonical(parts);
  }

  /** The encoding of a concatenation is the concatenation of the encodings. */
  lemma EncodingConcat(a: seq<Part>, b: seq<Part>)
    requires Encodable(a) && Encodable(b)
    ensures Encodable(a + b)
    ensures Encoding(a + b) == Encoding(a) + Encoding(b)
  {
    assert CanonicalAll(a + b) == CanonicalAll(a) + CanonicalAll(b);
    PrintConcat(CanonicalAll(a), CanonicalAll(b));
  }

  lemma EncodingOfOne(part: Part)
    requires |part| <= U32_MAX
    ensures Encodable([part]) && WellFormed(Canonical(part))
    ensures Encoding([part]) == PrintSize(Canonical(part)) + part
  {
    assert CanonicalAll([part]) == [Canonical(part)] + [];
    PrintOfCons(Canonical(part), []);
  }

  lemma WriteOfByte(n: nat)
    requires n <= 255
    ensures Write(n) == [0, 0, 0, n]
  {
  }

  lemma PrintedLong(part: Part)
    requires |part| <= 255
    ensures WellFormed(Long(part)) && PrintSize(Long(part)) == [255, 0, 0, 0, |part|]
  {
    WriteOfByte(|part|);
    hide Write;
  }

  lemma LongSizeIsRead(part: Part)
    requires |part| <= 255
    ensures Decoding([255, 0, 0, 0, |part|] + part) == Decoded([part], None)
  {
    PrintedLong(part);
    var f := Long(part);
    var d := Decoding([]);
    assert d == Decoded([], None);
    hide Decoding, PrintSize, WellFormed;
    DecodeOne(f, []);
    assert PrintOne(f) + [] == PrintOne(f) == [255, 0, 0, 0, |part|] + part;
    assert [f.data] + d.parts == [part];
  }

  lemma SizesPrinted(part: Part)
    requires |part| <= U32_MAX
    ensures |part| < 255 ==> PrintSize(Canonical(part)) == [|part|]
    ensures |part| >= 255 ==> PrintSize(Canonical(part)) == [255] + Write(|part|)
  {
    hide Write;
  }

  /** The format, byte by byte: a part of less than 255 bytes behind its size in one byte; a longer one behind the byte
      255 and its size in four bytes, the highest first; and a size of four bytes is read back whatever it is. */
  lemma WireFormat(part: Part)
    ensures Encodable([part]) <==> |part| <= 0xFFFF_FFFF
    ensures |part| < 255 ==> Encoding([part]) == [|part|] + part
    ensures 255 <= |part| <= 0xFFFF_FFFF ==>
              Encoding([part]) == [255] + [|part| / 0x100_0000 % 0x100, |part| / 0x1_0000 % 0x100,
                                           |part| / 0x100 % 0x100, |part| % 0x100] + part
    ensures |part| <= 255 ==> Decoding([255, 0, 0, 0, |part|] + part) == Decoded([part], None)
  {
    hide Encoding, Decoding;
    if |part| <= 255 {
      LongSizeIsRead(part);
    }
    if |part| <= 0xFFFF_FFFF {
      EncodingOfOne(part);
      SizesPrinted(part);
      hide PrintSize;
    } else {
      assert !(|[part][0]| <= U32_MAX);
    }
  }

  // ----- Canonical re-encoding -----

  lemma CanonicalOfCons(f: Sized, tail: seq<Sized>)
    requires WellFormed(f) && AllWellFormed(tail) && Encodable(Data(tail))
    ensures Encodable(Data([f] + tail)) && WellFormed(Canonical(f.data))
    ensures CanonicalAll(Data([f] + tail)) == [Canonical(f.data)] + CanonicalAll(Data(tail))
    ensures |Encoding(Data([f] + tail))| == |PrintOne(Canonical(f.data))| + |Encoding(Data(tail))|
  {
    DataOfCons(f, tail);
    PrintOfCons(Canonical(f.data), CanonicalAll(Data(tail)));
  }

  lemma {:induction false} CanonicalIsShortest(fs: seq<Sized>)
    requires AllWellFormed(fs)
    ensures Encodable(Data(fs))
    ensures |Encoding(Data(fs))| <= |Print(fs)|
    ensures |Encoding(Data(fs))| == |Print(fs)| ==> CanonicalAll(Data(fs)) == fs
  {
    if fs == [] {
    } else {
      var tail := fs[1..];
      CanonicalIsShortest(tail);
      assert fs == [fs[0]] + tail;
      CanonicalOfCons(fs[0], tail);
      hide CanonicalAll, Encoding, Data, PrintSize;
    }
  }

  /** For every byte string the decoder accepts: its parts can be encoded, the re-encoding decodes to the same
      parts, is never longer, and has equal length only when it is the same bytes. */
  lemma CanonicalReencoding(bytes: seq<byte>)
    requires Decoding(bytes).error.None?
    ensures var parts := Decoding(bytes).parts;
            && Encodable(parts)
            && Decoding(Encoding(parts)) == Decoding(bytes)
            && |Encoding(parts)| <= |bytes|
            && (|Encoding(parts)| == |bytes| <==> Encoding(parts) == bytes)
  {
    PrintParse(bytes);
    CanonicalIsShortest(Parse(bytes));
    RoundTrip(Decoding(bytes).parts);
  }

  // ----- Truncation -----

  /** The number of frames that lie wholly within the first `k` bytes of `Print(fs)`. */
  function WholeFrames(fs: seq<Sized>, k: nat): (j: nat)
    requires AllWellFormed(fs)
    ensures j <= |fs|
  {
    if fs == [] || k < |PrintOne(fs[0])| then 0 else 1 + WholeFrames(fs[1..], k - |PrintOne(fs[0])|)
  }

  /** The cut `k` falls at or behind the end of frame `j - 1` and before the end of frame `j`. */
  lemma {:induction false} WholeFramesBracketsTheCut(fs: seq<Sized>, k: nat)
    requires AllWellFormed(fs)
    ensures var j := WholeFrames(fs, k);
            && |Print(fs[..j])| <= k
            && (j < |fs| ==> k < |Print(fs[..j + 1])|)
  {
    if fs == [] || k < |PrintOne(fs[0])| {
    } else {
      var j := WholeFrames(fs, k);
      WholeFramesBracketsTheCut(fs[1..], k - |PrintOne(fs[0])|);
      assert fs[..j][1..] == fs[1..][..j - 1];
      if j < |fs| {
        assert fs[..j + 1][1..] == fs[1..][..j];
      }
    }
  }

  /** A strict, non-empty prefix of one printed frame yields no part and an error: the size error exactly if
      the cut is inside a five-byte size field. */
  lemma CutInsideFrame(f: Sized, k: nat)
    requires WellFormed(f)
    requires 0 < k < |PrintOne(f)|
    ensures Decoding(PrintOne(f)[..k])
         == Decoded([], Some(if f.Long? && k < 5 then OverflowReadingSize else OverflowReadingPart))
  {
    var bytes := PrintOne(f)[..k];
    var n := |f.data|;
    assert PrintSize(f)[0] == if f.Short? then n else U8_MAX;
    assert bytes[0] == PrintSize(f)[0];
    if f.Long? && k >= 5 {
      assert PrintSize(f)[1..5] == Write(n);
      assert bytes[..5] == PrintSize(f);
      assert bytes[1..5] == bytes[..5][1..5];
      ReadOfWrite(n);
      assert SizeField(bytes) == Success((n, 5));
    } else if f.Short? {
      assert SizeField(bytes) == Success((n, 1));
    } else {
      assert SizeField(bytes) == Failure(OverflowReadingSize);
    }
  }

  /** What `Truncation` says of a cut. */
  ghost predicate TruncatesAt(fs: seq<Sized>, k: nat, d: Decoded)
    requires AllWellFormed(fs)
  {
    var j := WholeFrames(fs, k);
    var into := k - |Print(fs[..j])|;
    && d.parts == Data(fs)[..j]
    && (into == 0 ==> d.error == None)
    && (into != 0 ==> j < |fs| && d.error == Some(if fs[j].Long? && into < 5 then OverflowReadingSize
                                                  else OverflowReadingPart))
  }

  lemma TruncatesBehindFrame(f: Sized, tail: seq<Sized>, k: nat, cut: seq<byte>)
    requires WellFormed(f) && AllWellFormed(tail)
    requires |PrintOne(f)| <= k
    requires TruncatesAt(tail, k - |PrintOne(f)|, Decoding(cut))
    ensures TruncatesAt([f] + tail, k, Decoding(PrintOne(f) + cut))
  {
    var fs := [f] + tail;
    assert fs[1..] == tail;
    var j := WholeFrames(tail, k - |PrintOne(f)|);
    assert WholeFrames(fs, k) == j + 1;
    assert fs[..j + 1] == [f] + tail[..j];
    hide Decoding, PrintOne;
    PrintOfCons(f, tail[..j]);
    DataOfCons(f, tail);
    DecodeOne(f, cut);
    hide Print, Data, WholeFrames;
    assert Data(fs)[..j + 1] == [f.data] + Data(tail)[..j];
  }

  lemma TruncatesInFrame(f: Sized, tail: seq<Sized>, k: nat)
    requires WellFormed(f) && AllWellFormed(tail)
    requires k < |PrintOne(f)|
    ensures TruncatesAt([f] + tail, k, Decoding(PrintOne(f)[..k]))
  {
    assert ([f] + tail)[..0] == [];
    if k > 0 {
      CutInsideFrame(f, k);
    }
  }

  lemma TakeOfConcat<T>(a: seq<T>, b: seq<T>, k: nat)
    requires k <= |a| + |b|
    ensures (a + b)[..k] == if k < |a| then a[..k] else a + b[..k - |a|]
  {
  }

  lemma TruncationCons(f: Sized, tail: seq<Sized>, k: nat, bytes: seq<byte>)
    requires WellFormed(f) && AllWellFormed(tail)
    requires k <= |PrintOne(f)| + |Print(tail)|
    requires bytes == (PrintOne(f) + Print(tail))[..k]
    ensures TruncatesAt([f] + tail, k, Decoding(bytes))
    decreases |tail|, 1
  {
    var first := PrintOne(f);
    TakeOfConcat(first, Print(tail), k);
    hide TruncatesAt, Decoding, PrintOne, Print;
    if k < |first| {
      TruncatesInFrame(f, tail, k);
    } else {
      var cut := Print(tail)[..k - |first|];
      assert bytes == first + cut;
      Truncation(tail, k - |first|);
      TruncatesBehindFrame(f, tail, k, cut);
    }
  }

  /** Truncating an accepted byte string after `k` bytes: the decoder yields exactly the parts that lie wholly
      in front of the cut, and accepts exactly if the cut is on a part boundary. */
  lemma {:induction false} Truncation(fs: seq<Sized>, k: nat)
    requires AllWellFormed(fs)
    requires k <= |Print(fs)|
    ensures TruncatesAt(fs, k, Decoding(Print(fs)[..k]))
    decreases |fs|, 0
  {
    if fs == [] {
    } else {
      assert fs == [fs[0]] + fs[1..];
      TruncationCons(fs[0], fs[1..], k, Print(fs)[..k]);
    }
  }

  lemma PrefixOfEncoding(parts: seq<Part>, j: nat)
    requires Encodable(parts) && j <= |parts|
    ensures Encodable(parts[..j])
    ensures Encoding(parts[..j]) <= Encoding(parts)
  {
    EncodingConcat(parts[..j], parts[j..]);
    assert parts == parts[..j] + parts[j..];
  }

  /** Every strict prefix of an encoding decodes to a strict prefix of the part list if it is the encoding of
      that prefix, and otherwise ends in an error after such a prefix: no part is invented. */
  lemma EncodingTruncation(parts: seq<Part>, k: nat)
    requires Encodable(parts)
    requires k < |Encoding(parts)|
    ensures var j := WholeFrames(CanonicalAll(parts), k);
            var d := Decoding(Encoding(parts)[..k]);
            && j < |parts|
            && d.parts == parts[..j]
            && |Encoding(parts[..j])| <= k < |Encoding(parts[..j + 1])|
            && (d.error == None <==> k == |Encoding(parts[..j])|)
            && (d.error == None <==> Encoding(parts)[..k] == Encoding(parts[..j]))
            && (d.error.Some? ==> d.error.value.OverflowReadingSize? || d.error.value.OverflowReadingPart?)
  {
    var fs := CanonicalAll(parts);
    var j := WholeFrames(fs, k);
    Truncation(fs, k);
    WholeFramesBracketsTheCut(fs, k);
    DataOfCanonical(parts);
    assert fs[..|fs|] == fs;
    assert CanonicalAll(parts[..j]) == fs[..j];
    assert CanonicalAll(parts[..j + 1]) == fs[..j + 1];
    PrefixOfEncoding(parts, j);
  }

  // ----- The loops over buffers -----

  /** The sum the first pass computes. */
  lemma SizeOfOneMore(parts: seq<Part>, i: nat)
    requires i < |parts| && Encodable(parts[..i]) && |parts[i]| <= U32_MAX
    ensures Encodable(parts[..i + 1])
    ensures Encoding(parts[..i + 1]) == Encoding(parts[..i]) + PrintOne(Canonical(parts[i]))
  {
    assert parts[..i + 1] == parts[..i] + [parts[i]];
    EncodingConcat(parts[..i], [parts[i]]);
    var one := CanonicalAll([parts[i]]);
    assert one[1..] == [];
    assert Print(one) == PrintOne(one[0]) + Print(one[1..]);
  }

  /** First pass: the size of the encoding, or RangeError if a part does not fit a u32. */
  method EncodedSize(parts: seq<Part>) returns (size: Result<nat, CodecError>)
    ensures size == if Encodable(parts) then Success(|Encoding(parts)|) else Failure(RangeError)
  {
    var total := 0;
    for i := 0 to |parts|
      invariant Encodable(parts[..i])
      invariant total == |Encoding(parts[..i])|
    {
      if |parts[i]| > U32_MAX {
        return Failure(RangeError);
      }
      SizeOfOneMore(parts, i);
      total := total + |parts[i]| + if |parts[i]| < U8_MAX then 1 else 5;
    }
    assert parts[..|parts|] == parts;
    return Success(total);
  }

  /** `memcpy` of a part into the buffer. */
  method CopyPart(buf: array<byte>, at: nat, part: Part)
    requires at + |part| <= buf.Length
    modifies buf
    ensures buf[..at] == old(buf[..at])
    ensures buf[at..at + |part|] == part
  {
    for i := 0 to |part|
      invariant buf[..at] == old(buf[..at])
      invariant buf[at..at + i] == part[..i]
    {
      buf[at + i] := part[i];
    }
  }

  /** Writes the size field of a part at offset `at` and returns the offset behind it. */
  method EncodeSize(buf: array<byte>, at: nat, part: Part) returns (next: nat)
    requires |part| <= U32_MAX
    requires at + 5 <= buf.Length || (|part| < U8_MAX && at + 1 <= buf.Length)
    modifies buf
    ensures next == at + |PrintSize(Canonical(part))| <= buf.Length
    ensures buf[..next] == old(buf[..at]) + PrintSize(Canonical(part))
  {
    next := at;
    if |part| < U8_MAX {
      buf[next] := |part|;
      next := next + 1;
    } else {
      buf[next] := U8_MAX;
      next := next + 1;
      WriteNetworkOrder(buf, next, |part|);
      next := next + 4;
    }
  }

  /** Writes one size field and part at offset `at` and returns the offset behind them. */
  method EncodePart(buf: array<byte>, at: nat, part: Part) returns (next: nat)
    requires |part| <= U32_MAX
    requires at + |PrintOne(Canonical(part))| <= buf.Length
    modifies buf
    ensures next == at + |PrintOne(Canonical(part))|
    ensures buf[..next] == old(buf[..at]) + PrintOne(Canonical(part))
  {
    next := EncodeSize(buf, at, part);
    CopyPart(buf, next, part);
    assert buf[..next + |part|] == buf[..next] + buf[next..next + |part|];
    next := next + |part|;
  }

  /** Both passes: the second fills exactly the buffer the first one measured. */
  method Encode(parts: seq<Part>) returns (r: Result<array<byte>, CodecError>)
    ensures r.Success? <==> Encodable(parts)
    ensures r.Failure? ==> r.error == RangeError
    ensures r.Success? ==> fresh(r.value) && r.value[..] == Encoding(parts)
  {
    var size := EncodedSize(parts);
    if size.Failure? {
      return Failure(RangeError);
    }
    var encoded := new byte[size.value];
    var at: nat := 0;
    for i := 0 to |parts|
      invariant at == |Encoding(parts[..i])| <= encoded.Length
      invariant encoded[..at] == Encoding(parts[..i])
    {
      SizeOfOneMore(parts, i);
      PrefixOfEncoding(parts, i + 1);
      at := EncodePart(encoded, at, parts[i]);
    }
    assert parts[..|parts|] == parts;
    assert at == encoded.Length;
    return Success(encoded);
  }

  /** One turn of the decoder's loop, in offsets into the whole input. */
  lemma DecodingAt(all: seq<byte>, source: nat, size: nat, next: nat)
    requires source < next && next + size <= |all|
    requires SizeField(all[source..]) == Success((size, next - source))
    ensures var rest := Decoding(all[next + size..]);
            Decoding(all[source..]) == Decoded([all[next..next + size]] + rest.parts, rest.error)
  {
    var bytes, at := all[source..], next - source;
    assert bytes[at + size..] == all[next + size..];
    assert bytes[at..at + size] == all[next..next + size];
  }

  lemma AddIsCons<T>(front: seq<T>, x: T, back: seq<T>)
    ensures (front + [x]) + back == front + ([x] + back)
  {
  }

  /** Decodes one part at `source` and returns the offset behind it, or the error that stops the decoder. */
  method DecodePart(encoded: array<byte>, source: nat) returns (part: Result<Part, CodecError>, next: nat)
    requires source < encoded.Length
    ensures part.Failure? ==> Decoding(encoded[..][source..]) == Decoded([], Some(part.error))
    ensures part.Success? ==>
              && source < next <= encoded.Length
              && var rest := Decoding(encoded[..][next..]);
                 Decoding(encoded[..][source..]) == Decoded([part.value] + rest.parts, rest.error)
  {
    var size;
    size, next := DecodeSize(encoded, source);
    assert encoded[source..] == encoded[..][source..];
    if size.Failure? {
      return Failure(size.error), next;
    }
    if encoded.Length - next < size.value {
      return Failure(OverflowReadingPart), next;
    }
    DecodingAt(encoded[..], source, size.value, next);
    assert encoded[next..next + size.value] == encoded[..][next..next + size.value];
    return Success(encoded[next..next + size.value]), next + size.value;
  }

  /** Decodes `encoded` into `out`. Every read is below the limit, every iteration advances `source`, and a
      normal return leaves it exactly at the limit. */
  method Decode(encoded: array<byte>, out: Multipart<Part>) returns (error: Option<CodecError>)
    modifies out
    ensures error == Decoding(encoded[..]).error
    ensures out.parts == old(out.parts) + Decoding(encoded[..]).parts
  {
    var source: nat, limit := 0, encoded.Length;
    ghost var whole := Decoding(encoded[..]);
    ghost var rest := whole;
    assert encoded[..][0..] == encoded[..];
    while source < limit
      invariant source <= limit
      invariant rest == Decoding(encoded[..][source..])
      invariant out.parts + rest.parts == old(out.parts) + whole.parts
      invariant rest.error == whole.error
      decreases limit - source
    {
      var part, next := DecodePart(encoded, source);
      if part.Failure? {
        return Some(part.error);
      }
      ghost var behind := Decoding(encoded[..][next..]);
      AddIsCons(out.parts, part.value, behind.parts);
      out.Add(part.value);
      rest := behind;
      source := next;
    }
    assert source == limit;
    return None;
  }

  /** Reads the size field at `source` and returns the size and the offset behind the field. */
  method DecodeSize(encoded: array<byte>, source: nat) returns (size: Result<nat, CodecError>, next: nat)
    requires source < encoded.Length
    ensures source < next <= encoded.Length
    ensures SizeField(encoded[source..])
         == if size.Success? then Success((size.value, next - source)) else Failure(size.error)
  {
    var first := encoded[source];
    next := source + 1;
    if first == U8_MAX {
      if encoded.Length - next < 4 {
        return Failure(OverflowReadingSize), next;
      }
      assert encoded[next..next + 4] == encoded[source..][1..5];
      var value := ReadU32NetworkOrder(encoded, next);
      return Success(value), next + 4;
    }
    return Success(first), next;
  }

  /** `multipart_t::decode_append`: appends exactly the decoded parts. */
  method DecodeAppend(self: Multipart<Part>, encoded: array<byte>) returns (error: Option<CodecError>)
    modifies self
    ensures error == Decoding(encoded[..]).error
    ensures self.parts == old(self.parts) + Decoding(encoded[..]).parts
  {
    error := Decode(encoded, self);
  }

  /** Encoding a multipart and appending its decoding to another one restores every part, on buffers. */
  method EncodeThenDecodeAppend(source: Multipart<Part>, target: Multipart<Part>) returns (ok: bool)
    requires source != target
    modifies target
    ensures ok <==> Encodable(source.parts)
    ensures target.parts == old(target.parts) + if ok then source.parts else []
  {
    var r := Encode(source.parts);
    if r.Failure? {
      return false;
    }
    RoundTrip(source.parts);
    var error := DecodeAppend(target, r.value);
    return error.None?;
  }
}
