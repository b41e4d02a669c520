/** The wire envelope of a cached op: a buffer filled at a moving offset, and the decoder that walks it. */
module Wire {
  import opened Common
  import opened RingArithmetic

  type Byte = b: int | 0 <= b < 256
  type Uint32 = v: int | 0 <= v < 0x1_0000_0000
  type Uint64 = v: int | 0 <= v < 0x1_0000_0000_0000_0000

  const VERSION: Byte := 0xCA
  const MIN_LENGTH := 21

  /** Go strings and byte slices are both byte sequences here; a nil value is the empty one. */
  datatype WireOp = WireOp(topic: seq<Byte>, key: seq<Byte>, value: seq<Byte>, opId: Uint64, nodeId: Uint32,
      tombstone: bool)

  datatype Error = TopicTooLong | KeyTooLong | TooShort | UnsupportedVersion | TopicOverrun | KeyOverrun | ValueOverrun

  // ------------------------------------------------------------------ big-endian numbers

  function Power256(n: nat): (p: nat)
    ensures p > 0
  {
    if n == 0 then 1 else 256 * Power256(n - 1)
  }

  function BigEndian(v: nat, n: nat): (bytes: seq<Byte>)
    ensures |bytes| == n
  {
    if n == 0 then [] else BigEndian(v / 256, n - 1) + [v % 256]
  }

  function Number(bytes: seq<Byte>): (v: nat)
    ensures v < Power256(|bytes|)
  {
    if bytes == [] then 0 else Number(bytes[..|bytes| - 1]) * 256 + bytes[|bytes| - 1]
  }

  lemma QuotientBelow(v: nat, p: nat)
    requires v < 256 * p
    ensures v / 256 < p && v == (v / 256) * 256 + v % 256
  {
  }

  lemma PowerStep(n: nat)
    requires n > 0
    ensures Power256(n) == 256 * Power256(n - 1)
  {
  }

  lemma BigEndianEnds(v: nat, n: nat)
    requires n > 0
    ensures BigEndian(v, n)[..n - 1] == BigEndian(v / 256, n - 1) && BigEndian(v, n)[n - 1] == v % 256
  {
  }

  lemma NumberEnds(bytes: seq<Byte>)
    requires bytes != []
    ensures Number(bytes) == Number(bytes[..|bytes| - 1]) * 256 + bytes[|bytes| - 1]
  {
  }

  lemma NoBytes()
    ensures Power256(0) == 1 && forall v :: BigEndian(v, 0) == []
    ensures Number([]) == 0
  {
  }

  lemma {:induction false} NumberOfBigEndian(v: nat, n: nat)
    requires v < Power256(n)
    ensures Number(BigEndian(v, n)) == v
  {
    hide Power256, BigEndian, Number;
    if n > 0 {
      PowerStep(n);
      QuotientBelow(v, Power256(n - 1));
      BigEndianEnds(v, n);
      NumberEnds(BigEndian(v, n));
      NumberOfBigEndian(v / 256, n - 1);
    } else {
      NoBytes();
    }
  }

  lemma {:induction false} BigEndianOfNumber(bytes: seq<Byte>)
    ensures BigEndian(Number(bytes), |bytes|) == bytes
  {
    if bytes != [] {
      BigEndianOfNumber(bytes[..|bytes| - 1]);
      assert bytes == bytes[..|bytes| - 1] + [bytes[|bytes| - 1]];
    }
  }

  lemma FieldRanges()
    ensures Power256(1) == 0x100 && Power256(2) == 0x1_0000 && Power256(4) == 0x1_0000_0000
    ensures Power256(8) == 0x1_0000_0000_0000_0000
  {
    assert Power256(2) == 256 * Power256(1);
    assert Power256(3) == 256 * Power256(2);
    assert Power256(4) == 256 * Power256(3);
    assert Power256(5) == 256 * Power256(4);
    assert Power256(6) == 256 * Power256(5);
    assert Power256(7) == 256 * Power256(6);
    assert Power256(8) == 256 * Power256(7);
  }

  // ------------------------------------------------------------------ the layout

  function FlagsOf(op: WireOp): Byte { if op.tombstone then 1 else 0 }

  /** The envelope with given flags and given value-length field. */
  function Envelope(flags: Byte, op: WireOp, valueLen: nat): seq<Byte>
    requires |op.topic| <= 255
  {
    [VERSION, flags] + BigEndian(op.opId, 8) + BigEndian(op.nodeId, 4)
    + [|op.topic|] + op.topic + BigEndian(|op.key|, 2) + op.key + BigEndian(valueLen, 4) + op.value
  }

  predicate Encodable(op: WireOp) { |op.topic| <= 255 && |op.key| <= 65535 }

  /** What Encode produces: the length field of the value is a uint32 conversion, so it wraps. */
  function Layout(op: WireOp): seq<Byte>
    requires Encodable(op)
  {
    Envelope(FlagsOf(op), op, |op.value| % 0x1_0000_0000)
  }

  /** data is the envelope of op with these flags, followed by a tail the decoder ignores. */
  predicate Frames(data: seq<Byte>, op: WireOp, flags: Byte, tail: seq<Byte>) {
    && Encodable(op) && |op.value| < 0x1_0000_0000
    && op.tombstone == (flags % 2 == 1)
    && data == Envelope(flags, op, |op.value|) + tail
  }

  /** The offsets of the fields, read back from data. */
  function TopicLen(data: seq<Byte>): nat requires |data| >= MIN_LENGTH { data[14] }

  function KeyAt(data: seq<Byte>): nat requires |data| >= MIN_LENGTH { 15 + TopicLen(data) }

  function KeyLen(data: seq<Byte>): nat
    requires |data| >= MIN_LENGTH && KeyAt(data) + 2 <= |data|
  {
    Number(data[KeyAt(data)..KeyAt(data) + 2])
  }

  function ValueAt(data: seq<Byte>): nat
    requires |data| >= MIN_LENGTH && KeyAt(data) + 2 <= |data|
  {
    KeyAt(data) + 2 + KeyLen(data)
  }

  function ValueLen(data: seq<Byte>): nat
    requires |data| >= MIN_LENGTH && KeyAt(data) + 2 <= |data| && ValueAt(data) + 4 <= |data|
  {
    Number(data[ValueAt(data)..ValueAt(data) + 4])
  }

  predicate Accepted(data: seq<Byte>) {
    && |data| >= MIN_LENGTH && data[0] == VERSION
    && KeyAt(data) + 2 <= |data| && ValueAt(data) + 4 <= |data| && ValueAt(data) + 4 + ValueLen(data) <= |data|
  }

  function FieldsOf(data: seq<Byte>): WireOp
    requires Accepted(data)
  {
    FieldRanges();
    WireOp(data[15..KeyAt(data)], data[KeyAt(data) + 2..ValueAt(data)],
           data[ValueAt(data) + 4..ValueAt(data) + 4 + ValueLen(data)],
           Number(data[2..10]), Number(data[10..14]), data[1] % 2 == 1)
  }

  function TailOf(data: seq<Byte>): seq<Byte>
    requires Accepted(data)
  {
    data[ValueAt(data) + 4 + ValueLen(data)..]
  }

  /** Numbers are written most significant byte first. */
  lemma {:induction false} BigEndianAt(v: nat, n: nat, i: nat)
    requires i < n
    ensures BigEndian(v, n)[i] == (v / Power256(n - 1 - i)) % 256
  {
    if i < n - 1 {
      BigEndianAt(v / 256, n - 1, i);
      DivideTwice(v, n - 2 - i);
    }
  }

  lemma DivideTwice(v: nat, k: nat)
    ensures v / 256 / Power256(k) == v / Power256(k + 1)
  {
    var p, q := Power256(k), v / 256 / Power256(k);
    var r, s := v / 256 - q * p, v % 256;
    assert v == (q * p + r) * 256 + s == q * (256 * p) + (r * 256 + s) by {
      assert (q * p + r) * 256 == q * p * 256 + r * 256 && q * p * 256 == q * (256 * p);
    }
    assert 0 <= r < p && r * 256 + s < 256 * p;
    DivModUnique(v, q, r * 256 + s, 256 * p);
  }

  /** Where each field stands in what Encode produces. */
  lemma LayoutExactly(op: WireOp)
    requires Encodable(op)
    ensures var d, k, v := Layout(op), 17 + |op.topic|, 21 + |op.topic| + |op.key|;
            && |d| == v + |op.value| && d[0] == 0xCA && d[1] == (if op.tombstone then 1 else 0)
            && d[2..10] == BigEndian(op.opId, 8) && d[10..14] == BigEndian(op.nodeId, 4)
            && d[14] == |op.topic| && d[15..k - 2] == op.topic && d[k - 2..k] == BigEndian(|op.key|, 2)
            && d[k..v - 4] == op.key && d[v - 4..v] == BigEndian(|op.value| % 0x1_0000_0000, 4) && d[v..] == op.value
  {
    assert Layout(op) + [] == Layout(op);
    hide BigEndian;
    HeaderFields(FlagsOf(op), op, |op.value| % 0x1_0000_0000, []);
    BodyFields(FlagsOf(op), op, |op.value| % 0x1_0000_0000, []);
    hide Envelope;
  }

  lemma HeaderFields(flags: Byte, op: WireOp, valueLen: nat, tail: seq<Byte>)
    requires Encodable(op)
    ensures var d := Envelope(flags, op, valueLen) + tail;
            && |d| >= MIN_LENGTH && d[0] == VERSION && d[1] == flags
            && d[2..10] == BigEndian(op.opId, 8) && d[10..14] == BigEndian(op.nodeId, 4)
            && d[14] == |op.topic| && d[15..15 + |op.topic|] == op.topic
            && d[15 + |op.topic|..17 + |op.topic|] == BigEndian(|op.key|, 2)
  {
  }

  lemma BodyFields(flags: Byte, op: WireOp, valueLen: nat, tail: seq<Byte>)
    requires Encodable(op)
    ensures var d, at := Envelope(flags, op, valueLen) + tail, 17 + |op.topic| + |op.key|;
            && |d| == at + 4 + |op.value| + |tail|
            && d[17 + |op.topic|..at] == op.key && d[at..at + 4] == BigEndian(valueLen, 4)
            && d[at + 4..at + 4 + |op.value|] == op.value && d[at + 4..] == op.value + tail
  {
  }

  /** Whatever frames data is determined by data: the grammar is unambiguous. */
  lemma FramesDetermines(data: seq<Byte>, op: WireOp, flags: Byte, tail: seq<Byte>)
    requires Frames(data, op, flags, tail)
    ensures Accepted(data) && op == FieldsOf(data) && flags == data[1] && tail == TailOf(data)
  {
    hide Envelope, Number, BigEndian;
    FieldRanges();
    HeaderFields(flags, op, |op.value|, tail);
    BodyFields(flags, op, |op.value|, tail);
    NumberOfBigEndian(op.opId, 8);
    NumberOfBigEndian(op.nodeId, 4);
    NumberOfBigEndian(|op.key|, 2);
    NumberOfBigEndian(|op.value|, 4);
    assert data[15 + |op.topic|..15 + |op.topic| + 2] == BigEndian(|op.key|, 2);
  }

  lemma Chop(d: seq<Byte>, k: nat, v: nat, end: nat)
    requires 15 <= k && k + 2 <= v && v + 4 <= end <= |d|
    ensures d == [d[0], d[1]] + d[2..10] + d[10..14] + [d[14]] + d[15..k] + d[k..k + 2] + d[k + 2..v]
                 + d[v..v + 4] + d[v + 4..end] + d[end..]
  {
  }

  /** And everything the field offsets accept is framed by its fields. */
  lemma AcceptedIsFramed(data: seq<Byte>)
    requires Accepted(data)
    ensures Frames(data, FieldsOf(data), data[1], TailOf(data))
  {
    hide Envelope, FieldsOf, TailOf, KeyAt, KeyLen, ValueAt, ValueLen, Encodable, BigEndian;
    var op, k, v, end := FieldsOf(data), KeyAt(data), ValueAt(data), ValueAt(data) + 4 + ValueLen(data);
    FieldsAreSlices(data);
    NumbersPrintBack(data);
    EnvelopeOfPieces(op, data[1], data[2..10], data[10..14], data[k..k + 2], data[v..v + 4]);
    Pieces(data, op, k, v, end, data[2..10], data[10..14], data[k..k + 2], data[v..v + 4], TailOf(data));
  }

  /** The pieces by the names of the fields they hold. */
  lemma Pieces(d: seq<Byte>, op: WireOp, k: nat, v: nat, end: nat, opId: seq<Byte>, nodeId: seq<Byte>,
               keyLen: seq<Byte>,
               valueLen: seq<Byte>, tail: seq<Byte>)
    requires 15 <= k && k + 2 <= v && v + 4 <= end <= |d| && d[0] == VERSION && |op.topic| <= 255
    requires d[2..10] == opId && d[10..14] == nodeId && [d[14]] == [|op.topic|] && d[15..k] == op.topic
    requires d[k..k + 2] == keyLen && d[k + 2..v] == op.key && d[v..v + 4] == valueLen && d[v + 4..end] == op.value
    requires d[end..] == tail
    ensures d == [VERSION, d[1]] + opId + nodeId + [|op.topic|] + op.topic + keyLen + op.key + valueLen + op.value
            + tail
  {
    Chop(d, k, v, end);
  }

  lemma FieldsAreSlices(data: seq<Byte>)
    requires Accepted(data)
    ensures var op, k, v, end := FieldsOf(data), KeyAt(data), ValueAt(data), ValueAt(data) + 4 + ValueLen(data);
            && Encodable(op) && |op.value| < 0x1_0000_0000 && op.tombstone == (data[1] % 2 == 1)
            && data[0] == VERSION && 15 <= k && k + 2 <= v && v + 4 <= end <= |data|
            && [data[14]] == [|op.topic|] && data[15..k] == op.topic && data[k + 2..v] == op.key
            && data[v + 4..end] == op.value && data[end..] == TailOf(data)
  {
    FieldRanges();
    hide Number, Power256;
  }

  lemma EnvelopeOfPieces(op: WireOp, flags: Byte, opId: seq<Byte>, nodeId: seq<Byte>, keyLen: seq<Byte>,
                         valueLen: seq<Byte>)
    requires Encodable(op) && BigEndian(op.opId, 8) == opId && BigEndian(op.nodeId, 4) == nodeId
    requires BigEndian(|op.key|, 2) == keyLen && BigEndian(|op.value|, 4) == valueLen
    ensures Envelope(flags, op, |op.value|)
            == [VERSION, flags] + opId + nodeId + [|op.topic|] + op.topic + keyLen + op.key + valueLen + op.value
  {
    hide BigEndian;
  }

  /** The four numbers of an accepted input, written big-endian, are the bytes they were read from. */
  lemma NumbersPrintBack(data: seq<Byte>)
    requires Accepted(data)
    ensures var k, v, op := KeyAt(data), ValueAt(data), FieldsOf(data);
            && BigEndian(op.opId, 8) == data[2..10] && BigEndian(op.nodeId, 4) == data[10..14]
            && BigEndian(|op.key|, 2) == data[k..k + 2] && BigEndian(|op.value|, 4) == data[v..v + 4]
  {
    FieldRanges();
    var k, v := KeyAt(data), ValueAt(data);
    hide Number, BigEndian, Power256;
    BigEndianOfNumber(data[2..10]);
    BigEndianOfNumber(data[10..14]);
    BigEndianOfNumber(data[k..k + 2]);
    BigEndianOfNumber(data[v..v + 4]);
  }

  /** An input is accepted exactly when some op, flags and tail frame it. */
  lemma AcceptedIffFramed(data: seq<Byte>)
    ensures Accepted(data) <==> exists op, flags, tail :: Frames(data, op, flags, tail)
  {
    if Accepted(data) {
      AcceptedIsFramed(data);
    }
    if op, flags, tail :| Frames(data, op, flags, tail) {
      FramesDetermines(data, op, flags, tail);
    }
  }

  lemma LongEnough(data: seq<Byte>)
    requires Accepted(data)
    ensures |data| >= MIN_LENGTH
  {
  }

  // ------------------------------------------------------------------ round trips

  /**
   * Decoding an encoding gives the op back exactly when the value is shorter than 2^32 bytes; a longer
   * one still decodes, to a truncated value.
   */
  lemma DecodeOfEncode(op: WireOp)
    requires Encodable(op)
    ensures Accepted(Layout(op)) && (FieldsOf(Layout(op)) == op <==> |op.value| < 0x1_0000_0000)
  {
    hide Layout, Frames, FieldsOf, Accepted, Encodable, TailOf;
    if |op.value| < 0x1_0000_0000 {
      ShortValueIsFramed(op);
      FramesDetermines(Layout(op), op, FlagsOf(op), []);
    } else {
      var n := |op.value| % 0x1_0000_0000;
      LongValueIsCut(op, n);
      FramesDetermines(Layout(op), op.(value := op.value[..n]), FlagsOf(op), op.value[n..]);
    }
  }

  lemma ShortValueIsFramed(op: WireOp)
    requires Encodable(op) && |op.value| < 0x1_0000_0000
    ensures Frames(Layout(op), op, FlagsOf(op), [])
  {
    hide Envelope;
    SameModulus(|op.value|);
    assert Layout(op) + [] == Layout(op);
  }

  lemma SameModulus(n: nat)
    requires n < 0x1_0000_0000
    ensures n % 0x1_0000_0000 == n
  {
  }

  /** The length field wraps, so a decoder takes the front of the value and leaves the rest as a tail. */
  lemma LongValueIsCut(op: WireOp, n: nat)
    requires Encodable(op) && |op.value| >= 0x1_0000_0000 && n == |op.value| % 0x1_0000_0000
    ensures n < |op.value| && Frames(Layout(op), op.(value := op.value[..n]), FlagsOf(op), op.value[n..])
  {
    hide BigEndian;
    assert op.value == op.value[..n] + op.value[n..];
  }

  /** Re-encoding an accepted input reproduces it exactly when it has no tail and no flag but the tombstone bit. */
  lemma EncodeOfDecode(data: seq<Byte>)
    requires Accepted(data)
    ensures Encodable(FieldsOf(data))
    ensures Layout(FieldsOf(data)) == data <==> TailOf(data) == [] && data[1] <= 1
  {
    hide Envelope, BigEndian, Number, Accepted;
    assert |data| >= MIN_LENGTH by { LongEnough(data); }
    AcceptedIsFramed(data);
    var op := FieldsOf(data);
    assert Layout(op) + [] == Layout(op);
    HeaderFields(FlagsOf(op), op, |op.value|, []);
    HeaderFields(data[1], op, |op.value|, TailOf(data));
    BodyFields(data[1], op, |op.value|, TailOf(data));
    BodyFields(FlagsOf(op), op, |op.value|, []);
    if TailOf(data) == [] && data[1] <= 1 {
      assert data == Envelope(data[1], op, |op.value|);
    }
  }

  // ------------------------------------------------------------------ the code

  /** copy() at an offset. */
  method Place(buf: array<Byte>, off: nat, bytes: seq<Byte>)
    requires off + |bytes| <= buf.Length
    modifies buf
    ensures buf[..off + |bytes|] == old(buf[..off]) + bytes
  {
    ghost var before := buf[..off];
    for i := 0 to |bytes|
      invariant buf[..off + i] == before + bytes[..i]
    {
      buf[off + i] := bytes[i];
      assert buf[..off + i + 1] == buf[..off + i] + [bytes[i]];
    }
  }

  method Encode(op: WireOp) returns (r: Result<array<Byte>, Error>)
    ensures |op.topic| > 255 ==> r == Err(TopicTooLong)
    ensures |op.topic| <= 255 && |op.key| > 65535 ==> r == Err(KeyTooLong)
    ensures Encodable(op) ==> r.Ok? && fresh(r.value) && r.value[..] == Layout(op)
  {
    if |op.topic| > 255 {
      return Err(TopicTooLong);
    }
    if |op.key| > 65535 {
      return Err(KeyTooLong);
    }
    var size := 1 + 1 + 8 + 4 + 1 + |op.topic| + 2 + |op.key| + 4 + |op.value|;
    var buf := new Byte[size](_ => 0);
    hide BigEndian, Header, Layout;
    PlaceHeader(buf, op);
    PlaceBody(buf, op);
    return Ok(buf);
  }

  /** Key and value, each behind its length. */
  method PlaceBody(buf: array<Byte>, op: WireOp)
    requires Encodable(op) && buf.Length == 21 + |op.topic| + |op.key| + |op.value|
    requires buf[..15 + |op.topic|] == Header(op)
    modifies buf
    ensures buf[..] == Layout(op)
  {
    hide BigEndian, Header, Layout;
    var off := 15 + |op.topic|;
    Place(buf, off, BigEndian(|op.key|, 2));
    off := off + 2;
    Place(buf, off, op.key);
    off := off + |op.key|;
    Place(buf, off, BigEndian(|op.value| % 0x1_0000_0000, 4));
    off := off + 4;
    Place(buf, off, op.value);
    assert buf[..] == buf[..buf.Length];
    LayoutPieces(op);
  }

  function Header(op: WireOp): seq<Byte>
    requires |op.topic| <= 255
  {
    [VERSION, FlagsOf(op)] + BigEndian(op.opId, 8) + BigEndian(op.nodeId, 4) + [|op.topic|] + op.topic
  }

  lemma LayoutPieces(op: WireOp)
    requires Encodable(op)
    ensures Layout(op) == Header(op) + BigEndian(|op.key|, 2) + op.key
                          + BigEndian(|op.value| % 0x1_0000_0000, 4) + op.value
  {
  }

  /** Version, flags, ids and topic. */
  method PlaceHeader(buf: array<Byte>, op: WireOp)
    requires |op.topic| <= 255 && buf.Length >= 15 + |op.topic|
    modifies buf
    ensures buf[..15 + |op.topic|] == Header(op)
  {
    hide BigEndian;
    var off := 0;
    buf[off] := VERSION;
    off := off + 1;
    var flags: Byte := 0;
    if op.tombstone {
      flags := 1;
    }
    buf[off] := flags;
    off := off + 1;
    assert buf[..2] == [VERSION, flags];
    Place(buf, off, BigEndian(op.opId, 8));
    off := off + 8;
    Place(buf, off, BigEndian(op.nodeId, 4));
    off := off + 4;
    Place(buf, off, [|op.topic|]);
    off := off + 1;
    Place(buf, off, op.topic);
  }

  /** Accepts exactly the framed inputs and returns their fields; no input makes it index outside. */
  method Decode(data: seq<Byte>) returns (r: Result<WireOp, Error>)
    ensures r.Ok? <==> Accepted(data)
    ensures r.Ok? ==> r.value == FieldsOf(data)
    ensures |data| < MIN_LENGTH ==> r == Err(TooShort)
    ensures |data| >= MIN_LENGTH && data[0] != VERSION ==> r == Err(UnsupportedVersion)
    ensures |data| >= MIN_LENGTH && data[0] == VERSION ==>
              && (r == Err(TopicOverrun) <==> 15 + data[14] > |data|)
              && (r == Err(KeyOverrun) <==> KeyAt(data) + 2 <= |data| < ValueAt(data))
              && (r == Err(ValueOverrun) <==>
                    KeyAt(data) + 2 <= |data| && ValueAt(data) + 4 <= |data| < ValueAt(data) + 4 + ValueLen(data))
  {
    if |data| < MIN_LENGTH {
      return Err(TooShort);
    }
    var off := 0;
    if data[off] != VERSION {
      return Err(UnsupportedVersion);
    }
    off := off + 1;
    var flags := data[off];
    off := off + 1;
    FieldRanges();
    hide Power256, Number;
    var opId := Number(data[off..off + 8]);
    off := off + 8;
    var nodeId := Number(data[off..off + 4]);
    off := off + 4;
    var topicLen := data[off];
    off := off + 1;
    if off + topicLen > |data| {
      return Err(TopicOverrun);
    }
    var topic := data[off..off + topicLen];
    off := off + topicLen;
    if off + 2 > |data| {
      return Err(TooShort);
    }
    var keyLen := Number(data[off..off + 2]);
    off := off + 2;
    if off + keyLen > |data| {
      return Err(KeyOverrun);
    }
    var key := data[off..off + keyLen];
    off := off + keyLen;
    if off + 4 > |data| {
      return Err(TooShort);
    }
    var valueLen := Number(data[off..off + 4]);
    off := off + 4;
    if off + valueLen > |data| {
      return Err(ValueOverrun);
    }
    return Ok(WireOp(topic, key, data[off..off + valueLen], opId, nodeId, flags % 2 == 1));
  }

  /** The two methods together: what comes back is what went in, for every value a length field can count. */
  method RoundTrip(op: WireOp) returns (r: Result<WireOp, Error>)
    requires Encodable(op)
    ensures r == Ok(op) <==> |op.value| < 0x1_0000_0000
    ensures r.Ok?
  {
    var buf := Encode(op);
    DecodeOfEncode(op);
    r := Decode(buf.value[..]);
  }
}
