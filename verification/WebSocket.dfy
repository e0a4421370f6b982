/** The frame codec of core/mcp_bridge.py: sections 5.2 and 5.3 of RFC 6455, unfragmented frames only. */
module WebSocket {
  import opened Bits
  import opened Common

  type Bytes = seq<Byte>

  function Pow256(k: nat): nat { if k == 0 then 1 else 256 * Pow256(k - 1) }

  /** `n.to_bytes(k, "big")` */
  function BigEndian(n: nat, k: nat): (s: Bytes)
    ensures |s| == k
  {
    if k == 0 then [] else BigEndian(n / 256, k - 1) + [n % 256]
  }

  /** `int.from_bytes(s, "big")` */
  function FromBigEndian(s: Bytes): nat {
    if s == [] then 0 else 256 * FromBigEndian(s[..|s| - 1]) + s[|s| - 1]
  }

  lemma {:induction false} BigEndianRoundTrip(n: nat, k: nat)
    requires n < Pow256(k)
    ensures FromBigEndian(BigEndian(n, k)) == n
  {
    if k > 0 {
      BigEndianRoundTrip(n / 256, k - 1);
      assert BigEndian(n, k)[..k - 1] == BigEndian(n / 256, k - 1);
    }
  }

  /** The first byte weighs most. */
  lemma {:induction false} FirstByteWeighs(b: Byte, s: Bytes)
    ensures FromBigEndian([b] + s) == b * Pow256(|s|) + FromBigEndian(s)
  {
    if s == [] {
      assert [b] + s == [b];
      assert FromBigEndian([b]) == 256 * FromBigEndian([]) + b;
    } else {
      var n := |s| - 1;
      FirstByteWeighs(b, s[..n]);
      ConcatInit([b], s);
    }
  }

  predicate Supported(opcode: nat) {
    opcode == 0x1 || opcode == 0x2 || opcode == 0x8 || opcode == 0x9 || opcode == 0xA
  }

  const MAX_LENGTH: nat := 0x1_0000_0000_0000_0000

  /** The 7-bit length field: the length itself or the marker of an extended length. */
  function ShortForm(length: nat): nat {
    if length < 126 then length else if length <= 0xFFFF then 126 else 127
  }

  /** The number of extended length bytes a 7-bit length field announces. */
  function Width(short: nat): nat {
    if short == 126 then 2 else if short == 127 then 8 else 0
  }

  function MaskBit(flag: bool): nat { if flag then 0x80 else 0 }

  /** FIN and opcode, then the length in its shortest form; `flag` is the mask bit. */
  function FrameHeader(opcode: nat, length: nat, flag: bool): Bytes
    requires Supported(opcode)
  {
    var short := ShortForm(length);
    [0x80 + opcode, MaskBit(flag) + short] + BigEndian(length, Width(short))
  }

  /** `_make_ws_frame`; None is the ValueError or the overflow of the 8-byte length. */
  function MakeFrame(payload: Bytes, opcode: nat): Option<Bytes> {
    if !Supported(opcode) || |payload| >= MAX_LENGTH then None
    else Some(FrameHeader(opcode, |payload|, false) + payload)
  }

  /** The payload under a 4-byte masking key. */
  function Masked(payload: Bytes, key: Bytes): (r: Bytes)
    requires |key| == 4
    ensures |r| == |payload|
  {
    Pow2Widths();
    seq(|payload|, i requires 0 <= i < |payload| => Xor(payload[i], key[i % 4], 8))
  }

  /** The frame a client sends. */
  function MaskedFrame(payload: Bytes, opcode: nat, key: Bytes): Bytes
    requires Supported(opcode) && |key| == 4
  {
    FrameHeader(opcode, |payload|, true) + key + Masked(payload, key)
  }

  datatype Reading = Frame(opcode: nat, payload: Bytes, rest: Bytes) | Fragmented | Incomplete

  function Take(s: Bytes, n: nat): (r: Option<(Bytes, Bytes)>)
    ensures r.Some? <==> n <= |s|
    ensures r.Some? ==> |r.value.0| == n && s == r.value.0 + r.value.1
  {
    if n <= |s| then Some((s[..n], s[n..])) else None
  }

  /** `_read_ws_frame` as a function of the bytes that will arrive. */
  function ReadFrame(s: Bytes): Reading {
    match Take(s, 2)
    case None => Incomplete
    case Some((head, s1)) =>
      if head[0] < 0x80 then Fragmented
      else ReadLength(head[0] % 16, head[1] >= 0x80, head[1] % 128, s1)
  }

  function ReadLength(opcode: nat, masked: bool, short: nat, s: Bytes): Reading {
    if short == 126 || short == 127 then
      match Take(s, Width(short))
      case None => Incomplete
      case Some((digits, s1)) => ReadBody(opcode, masked, FromBigEndian(digits), s1)
    else ReadBody(opcode, masked, short, s)
  }

  function ReadBody(opcode: nat, masked: bool, length: nat, s: Bytes): Reading {
    match Take(s, if masked then 4 else 0)
    case None => Incomplete
    case Some((key, s1)) =>
      match Take(s1, length)
      case None => Incomplete
      case Some((payload, rest)) => Frame(opcode, if masked then Masked(payload, key) else payload, rest)
  }

  lemma LengthFits(n: nat)
    requires n < MAX_LENGTH
    ensures n <= 0xFFFF ==> FromBigEndian(BigEndian(n, 2)) == n
    ensures FromBigEndian(BigEndian(n, 8)) == n
  {
    assert Pow256(2) == 0x1_0000;
    assert Pow256(4) == 0x1_0000_0000;
    assert Pow256(6) == 0x1_0000_0000_0000;
    assert Pow256(8) == MAX_LENGTH;
    if n <= 0xFFFF {
      BigEndianRoundTrip(n, 2);
    }
    BigEndianRoundTrip(n, 8);
  }

  lemma HeadReads(b1: Byte, b2: Byte, tail: Bytes)
    requires b1 >= 0x80
    ensures ReadFrame([b1, b2] + tail) == ReadLength(b1 % 16, b2 >= 0x80, b2 % 128, tail)
  {
    var s := [b1, b2] + tail;
    assert s[..2] == [b1, b2] && s[2..] == tail;
  }

  /** The length field and its extended bytes are read back as the length. */
  lemma LengthReads(opcode: nat, masked: bool, length: nat, body: Bytes)
    requires length < MAX_LENGTH
    ensures ReadLength(opcode, masked, ShortForm(length), BigEndian(length, Width(ShortForm(length))) + body)
         == ReadBody(opcode, masked, length, body)
  {
    LengthFits(length);
    var k := Width(ShortForm(length));
    var s := BigEndian(length, k) + body;
    assert s[..k] == BigEndian(length, k) && s[k..] == body;
  }

  lemma HeadBytes(opcode: nat, short: nat, flag: bool)
    requires Supported(opcode) && short < 128
    ensures (0x80 + opcode) % 16 == opcode
    ensures (MaskBit(flag) + short) % 128 == short
    ensures MaskBit(flag) + short >= 0x80 <==> flag
  {
  }

  /** The first two bytes of a frame announce opcode, mask and short length. */
  lemma HeadAnnounces(opcode: nat, short: nat, flag: bool, tail: Bytes)
    requires Supported(opcode) && short < 128
    ensures ReadFrame([0x80 + opcode, MaskBit(flag) + short] + tail) == ReadLength(opcode, flag, short, tail)
  {
    HeadBytes(opcode, short, flag);
    HeadReads(0x80 + opcode, MaskBit(flag) + short, tail);
  }

  lemma HeaderSplits(opcode: nat, length: nat, flag: bool, body: Bytes)
    requires Supported(opcode)
    ensures FrameHeader(opcode, length, flag) + body
      == [0x80 + opcode, MaskBit(flag) + ShortForm(length)] + (BigEndian(length, Width(ShortForm(length))) + body)
  {
    ConcatAssoc([0x80 + opcode, MaskBit(flag) + ShortForm(length)], BigEndian(length, Width(ShortForm(length))), body);
  }

  lemma HeaderReads(opcode: nat, length: nat, flag: bool, body: Bytes)
    requires Supported(opcode) && length < MAX_LENGTH
    ensures ReadFrame(FrameHeader(opcode, length, flag) + body) == ReadBody(opcode, flag, length, body)
  {
    HeaderSplits(opcode, length, flag, body);
    HeadAnnounces(opcode, ShortForm(length), flag, BigEndian(length, Width(ShortForm(length))) + body);
    LengthReads(opcode, flag, length, body);
  }

  lemma BodyReads(opcode: nat, payload: Bytes, rest: Bytes)
    ensures ReadBody(opcode, false, |payload|, payload + rest) == Frame(opcode, payload, rest)
  {
    var s := payload + rest;
    assert s[..0] == [] && s[0..] == s;
    assert s[..|payload|] == payload && s[|payload|..] == rest;
  }

  /** Byte i of the payload is combined with byte i mod 4 of the key, bit by bit. */
  lemma MaskedAt(payload: Bytes, key: Bytes, i: nat, k: nat)
    requires |key| == 4 && i < |payload| && k < 8
    ensures Bit(Masked(payload, key)[i], k) == if Bit(payload[i], k) == Bit(key[i % 4], k) then 0 else 1
  {
    XorBits(payload[i], key[i % 4], 8, k);
  }

  lemma FrameableIff(payload: Bytes, opcode: nat)
    ensures MakeFrame(payload, opcode).Some? <==> opcode in {1, 2, 8, 9, 10} && |payload| < 0x1_0000_0000_0000_0000
  {
  }

  /** The bytes on the wire: FIN and opcode, the length in the shortest of three forms, the payload. */
  lemma FrameLayout(payload: Bytes, opcode: nat)
    requires MakeFrame(payload, opcode).Some?
    ensures var s, n := MakeFrame(payload, opcode).value, |payload|;
      && |s| >= 2 && s[0] == 128 + opcode
      && (n < 126 ==> s[1] == n && s[2..] == payload)
      && (126 <= n < 65536 ==> |s| >= 4 && s[1] == 126 && FromBigEndian(s[2..4]) == n && s[4..] == payload)
      && (n >= 65536 ==> |s| >= 10 && s[1] == 127 && FromBigEndian(s[2..10]) == n && s[10..] == payload)
  {
    var s, n := MakeFrame(payload, opcode).value, |payload|;
    LengthFits(n);
    var digits := BigEndian(n, Width(ShortForm(n)));
    assert s == [128 + opcode, ShortForm(n)] + digits + payload;
    assert s[2..2 + |digits|] == digits && s[2 + |digits|..] == payload;
  }

  /** The first bytes of `s`, cut into header, extended length, masking key and body. */
  ghost predicate Cut(s: Bytes, b1: Byte, b2: Byte, digits: Bytes, key: Bytes, body: Bytes, rest: Bytes) {
    && s == [b1, b2] + digits + key + body + rest
    && |digits| == (if b2 % 128 == 126 then 2 else if b2 % 128 == 127 then 8 else 0)
    && |key| == (if b2 >= 128 then 4 else 0)
    && |body| == if digits == [] then b2 % 128 else FromBigEndian(digits)
  }

  /** What any bytes are read as: fragmented exactly if the first bit is not set, and otherwise the frame that the
      announced lengths cut off, if it is there. */
  lemma ReadIs(s: Bytes, b1: Byte, b2: Byte, digits: Bytes, key: Bytes, body: Bytes, rest: Bytes)
    requires Cut(s, b1, b2, digits, key, body, rest)
    ensures b1 < 128 ==> ReadFrame(s) == Fragmented
    ensures b1 >= 128 ==> ReadFrame(s) == Frame(b1 % 16, if key == [] then body else Masked(body, key), rest)
  {
    var s1, s2 := digits + key + body + rest, key + body + rest;
    assert s == [b1, b2] + s1 && s1 == digits + s2;
    if b1 >= 128 {
      HeadReads(b1, b2, s1);
      LengthIs(b1 % 16, b2 >= 128, b2 % 128, digits, s2);
      BodyIs(b1 % 16, key, body, rest);
    } else {
      assert s[..2] == [b1, b2];
    }
  }

  lemma LengthIs(opcode: nat, masked: bool, short: nat, digits: Bytes, s: Bytes)
    requires |digits| == Width(short)
    ensures ReadLength(opcode, masked, short, digits + s)
         == ReadBody(opcode, masked, if digits == [] then short else FromBigEndian(digits), s)
  {
    var all := digits + s;
    assert all[..|digits|] == digits && all[|digits|..] == s;
  }

  lemma BodyIs(opcode: nat, key: Bytes, body: Bytes, rest: Bytes)
    requires |key| == 0 || |key| == 4
    ensures ReadBody(opcode, key != [], |body|, key + body + rest)
         == Frame(opcode, if key == [] then body else Masked(body, key), rest)
  {
    var s, s1 := key + body + rest, body + rest;
    assert s == key + s1;
    assert s[..|key|] == key && s[|key|..] == s1;
    assert s1[..|body|] == body && s1[|body|..] == rest;
  }

  lemma MaskTwice(payload: Bytes, key: Bytes)
    requires |key| == 4
    ensures Masked(Masked(payload, key), key) == payload
  {
    Pow2Widths();
    forall i | 0 <= i < |payload| ensures Masked(Masked(payload, key), key)[i] == payload[i] {
      XorInvolutive(payload[i], key[i % 4], 8);
    }
  }

  lemma MaskedBodyReads(opcode: nat, payload: Bytes, key: Bytes, rest: Bytes)
    requires |key| == 4
    ensures ReadBody(opcode, true, |payload|, key + Masked(payload, key) + rest) == Frame(opcode, payload, rest)
  {
    var m := Masked(payload, key);
    var s := key + m + rest;
    assert s[..4] == key && s[4..] == m + rest;
    assert (m + rest)[..|m|] == m && (m + rest)[|m|..] == rest;
    MaskTwice(payload, key);
  }

  /** Reading a frame gives back its opcode and payload and leaves the bytes behind it. */
  lemma FrameRoundTrip(payload: Bytes, opcode: nat, rest: Bytes)
    requires MakeFrame(payload, opcode).Some?
    ensures ReadFrame(MakeFrame(payload, opcode).value + rest) == Frame(opcode, payload, rest)
  {
    var h := FrameHeader(opcode, |payload|, false);
    ConcatAssoc(h, payload, rest);
    HeaderReads(opcode, |payload|, false, payload + rest);
    BodyReads(opcode, payload, rest);
  }

  /** The same for a client's frame, whatever the masking key. */
  lemma MaskedRoundTrip(payload: Bytes, opcode: nat, key: Bytes, rest: Bytes)
    requires Supported(opcode) && |payload| < MAX_LENGTH && |key| == 4
    ensures ReadFrame(MaskedFrame(payload, opcode, key) + rest) == Frame(opcode, payload, rest)
  {
    var h, m := FrameHeader(opcode, |payload|, true), Masked(payload, key);
    assert (h + key + m) + rest == h + (key + m + rest);
    HeaderReads(opcode, |payload|, true, key + m + rest);
    MaskedBodyReads(opcode, payload, key, rest);
  }

  datatype Sent = Sent(opcode: nat, payload: Bytes, key: Option<Bytes>)

  predicate Sendable(m: Sent) {
    && Supported(m.opcode) && |m.payload| < MAX_LENGTH && (m.key.Some? ==> |m.key.value| == 4)
  }

  function Encode(m: Sent): Bytes
    requires Sendable(m)
  {
    match m.key
    case None => MakeFrame(m.payload, m.opcode).value
    case Some(key) => MaskedFrame(m.payload, m.opcode, key)
  }

  ghost predicate AllSendable(ms: seq<Sent>) {
    forall i :: 0 <= i < |ms| ==> Sendable(ms[i])
  }

  predicate Matches(r: Reading, m: Sent) {
    r.Frame? && r.opcode == m.opcode && r.payload == m.payload
  }

  ghost function EncodeAll(ms: seq<Sent>): Bytes
    requires AllSendable(ms)
  {
    if ms == [] then [] else Encode(ms[0]) + EncodeAll(ms[1..])
  }

  /** `asyncio.StreamReader` with the bytes that are still to come. */
  class StreamReader {
    var buffer: Bytes

    constructor (bytes: Bytes)
      ensures buffer == bytes
    {
      buffer := bytes;
    }

    /** `_read_exact` */
    method ReadExact(n: nat) returns (data: Option<Bytes>)
      modifies this
      ensures data.Some? <==> n <= |old(buffer)|
      ensures data.Some? ==> Take(old(buffer), n) == Some((data.value, buffer))
      ensures data.None? ==> buffer == old(buffer)
    {
      if n > |buffer| {
        return None;
      }
      data := Some(buffer[..n]);
      buffer := buffer[n..];
    }

    /** `_read_ws_frame`, byte group by byte group. */
    method ReadWsFrame() returns (r: Reading)
      modifies this
      ensures r == ReadFrame(old(buffer))
      ensures r.Frame? ==> buffer == r.rest
    {
      var head := ReadExact(2);
      if head.None? {
        return Incomplete;
      }
      var b1, b2 := head.value[0], head.value[1];
      var masked, length := b2 >= 0x80, b2 % 128;
      if b1 < 0x80 {
        return Fragmented;
      }
      if length == 126 || length == 127 {
        var digits := ReadExact(Width(length));
        if digits.None? {
          return Incomplete;
        }
        length := FromBigEndian(digits.value);
      }
      var key := ReadExact(if masked then 4 else 0);
      if key.None? {
        return Incomplete;
      }
      var payload := ReadExact(length);
      if payload.None? {
        return Incomplete;
      }
      return Frame(b1 % 16, if masked then Masked(payload.value, key.value) else payload.value, buffer);
    }

    /** The first message of a stream of frames. */
    method ReadNext(ghost ms: seq<Sent>, ghost rest: Bytes) returns (r: Reading)
      requires ms != [] && AllSendable(ms) && buffer == EncodeAll(ms) + rest
      modifies this
      ensures Matches(r, ms[0]) && AllSendable(ms[1..]) && buffer == EncodeAll(ms[1..]) + rest
    {
      NextMessage(ms, rest);
      r := ReadWsFrame();
    }

    /** A stream of frames, masked or not, is read back message by message. */
    method ReadAll(ghost ms: seq<Sent>, count: nat, ghost rest: Bytes) returns (rs: seq<Reading>)
      requires count == |ms| && AllSendable(ms) && buffer == EncodeAll(ms) + rest
      modifies this
      ensures |rs| == |ms| && buffer == rest
      ensures forall i :: 0 <= i < |ms| ==> Matches(rs[i], ms[i])
    {
      rs := [];
      ghost var left := ms;
      for i := 0 to count
        invariant |rs| == i && left == ms[i..]
        invariant AllSendable(left) && buffer == EncodeAll(left) + rest
        invariant forall j :: 0 <= j < i ==> Matches(rs[j], ms[j])
      {
        var r := ReadNext(left, rest);
        SuffixTail(ms, i);
        left := left[1..];
        assert left == ms[i + 1..];
        rs := rs + [r];
      }
    }
  }

  lemma NextMessage(ms: seq<Sent>, rest: Bytes)
    requires ms != [] && AllSendable(ms)
    ensures AllSendable(ms[1..])
    ensures ReadFrame(EncodeAll(ms) + rest) == Frame(ms[0].opcode, ms[0].payload, EncodeAll(ms[1..]) + rest)
  {
    var more := EncodeAll(ms[1..]) + rest;
    ConcatAssoc(Encode(ms[0]), EncodeAll(ms[1..]), rest);
    match ms[0].key
    case None => FrameRoundTrip(ms[0].payload, ms[0].opcode, more);
    case Some(key) => MaskedRoundTrip(ms[0].payload, ms[0].opcode, key, more);
  }
}
