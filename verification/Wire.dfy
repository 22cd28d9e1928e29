/** The binary protocol of src/message.cpp, and the sample client's own serializer. */
module Wire {
  import opened Prelude

  const PROTOCOL_VERSION: byte := 1
  const HEADER_SIZE := 15
  const MAX_NAME := 255
  const MAX_PAYLOAD := 65535

  const REGISTER: byte := 1
  const MESSAGE: byte := 2
  const REPLY: byte := 3
  const ACK: byte := 4
  const UNREGISTER: byte := 5

  const FLAG_NEEDS_REPLY: byte := 1
  const FLAG_NEEDS_ACK: byte := 2

  /** `kind` is the raw type byte: the parser casts any byte to the C++ enum. */
  datatype Message = Message(kind: byte, flags: byte, correlation: uint64,
                             sender: Bytes, destination: Bytes, payload: Bytes)
  {
    predicate NeedsReply() {
      HasFlag(flags, FLAG_NEEDS_REPLY)
    }

    predicate NeedsAck() {
      HasFlag(flags, FLAG_NEEDS_ACK)
    }
  }

  datatype WireError = SenderTooLong | DestinationTooLong | PayloadTooLarge
                     | TooShort | UnsupportedVersion | SizeMismatch
                     | NameTooLong

  /** `flags & flag != 0` for a flag that is a single bit. */
  predicate HasFlag(flags: byte, flag: byte)
    requires flag != 0
  {
    (flags as int / flag as int) % 2 == 1
  }

  predicate Bounded(m: Message) {
    |m.sender| <= MAX_NAME && |m.destination| <= MAX_NAME && |m.payload| <= MAX_PAYLOAD
  }

  // ----- byte order -----

  /** The memory image of an n-byte unsigned integer on a little-endian host. */
  function LittleEndian(x: nat, n: nat): (b: Bytes)
    ensures |b| == n
  {
    if n == 0 then [] else [(x % 0x100) as byte] + LittleEndian(x / 0x100, n - 1)
  }

  function FromLittleEndian(b: Bytes): nat {
    if b == [] then 0 else b[0] as nat + 0x100 * FromLittleEndian(b[1..])
  }

  /** Network byte order: most significant byte first. */
  function BigEndian(x: nat, n: nat): (b: Bytes)
    ensures |b| == n
  {
    if n == 0 then [] else BigEndian(x / 0x100, n - 1) + [(x % 0x100) as byte]
  }

  function FromBigEndian(b: Bytes): nat {
    if b == [] then 0 else 0x100 * FromBigEndian(b[..|b| - 1]) + b[|b| - 1] as nat
  }

  /** htons, htobe64 and their inverses: reverse the bytes of the memory image. */
  function ByteSwap(x: nat, n: nat): nat {
    FromLittleEndian(Reversed(LittleEndian(x, n)))
  }

  function Power256(n: nat): nat {
    if n == 0 then 1 else 0x100 * Power256(n - 1)
  }

  lemma Digit(x: nat, low: byte, high: nat)
    requires x == low as nat + 0x100 * high
    ensures x % 0x100 == low as nat && x / 0x100 == high
  {
  }

  lemma {:induction false} LittleEndianOfFrom(b: Bytes)
    ensures LittleEndian(FromLittleEndian(b), |b|) == b
  {
    if b != [] {
      LittleEndianOfFrom(b[1..]);
      Digit(FromLittleEndian(b), b[0], FromLittleEndian(b[1..]));
      assert b == [b[0]] + b[1..];
    }
  }

  lemma {:induction false} ReversedLittleEndian(x: nat, n: nat)
    ensures Reversed(LittleEndian(x, n)) == BigEndian(x, n)
  {
    if n != 0 {
      ReversedLittleEndian(x / 0x100, n - 1);
      assert LittleEndian(x, n)[1..] == LittleEndian(x / 0x100, n - 1);
    }
  }

  /** Swapping and then copying the memory image writes network byte order. */
  lemma SwapWritesNetworkOrder(x: nat, n: nat)
    ensures LittleEndian(ByteSwap(x, n), n) == BigEndian(x, n)
  {
    ReversedLittleEndian(x, n);
    LittleEndianOfFrom(Reversed(LittleEndian(x, n)));
  }

  lemma {:induction false} FromBigEndianRange(b: Bytes)
    ensures FromBigEndian(b) < Power256(|b|)
  {
    if b != [] {
      FromBigEndianRange(b[..|b| - 1]);
    }
  }

  lemma {:induction false} BigEndianRoundTrip(x: nat, n: nat)
    requires x < Power256(n)
    ensures FromBigEndian(BigEndian(x, n)) == x
  {
    if n != 0 {
      BigEndianRoundTrip(x / 0x100, n - 1);
      var b := BigEndian(x, n);
      assert b[..n - 1] == BigEndian(x / 0x100, n - 1);
    }
  }

  lemma {:induction false} BigEndianOfFrom(b: Bytes)
    ensures BigEndian(FromBigEndian(b), |b|) == b
  {
    if b != [] {
      BigEndianOfFrom(b[..|b| - 1]);
      Digit(FromBigEndian(b), b[|b| - 1], FromBigEndian(b[..|b| - 1]));
      assert b == b[..|b| - 1] + [b[|b| - 1]];
    }
  }

  /** Loading a memory image and swapping reads network byte order. */
  lemma {:induction false} SwapReadsNetworkOrder(b: Bytes)
    ensures ByteSwap(FromLittleEndian(b), |b|) == FromBigEndian(b)
  {
    LittleEndianOfFrom(b);
    ReversedIsBigEndianValue(b);
  }

  lemma {:induction false} ReversedIsBigEndianValue(b: Bytes)
    ensures FromLittleEndian(Reversed(b)) == FromBigEndian(b)
  {
    if b != [] {
      var front, last := b[..|b| - 1], b[|b| - 1];
      ReversedIsBigEndianValue(front);
      assert Reversed(b) == [last] + Reversed(front);
      assert Reversed(b)[1..] == Reversed(front);
    }
  }

  lemma Widths()
    ensures Power256(1) == 0x100
    ensures Power256(2) == 0x1_0000
    ensures Power256(8) == 0x1_0000_0000_0000_0000
  {
    assert Power256(4) == 0x1_0000_0000;
  }

  // ----- frames -----

  /** The frame layout: a fixed header followed by the three variable parts. The length of the
      payload is written in two bytes, so only its value modulo 65536 reaches the wire. */
  function Header(m: Message): (h: Bytes)
    requires |m.sender| <= MAX_NAME && |m.destination| <= MAX_NAME
    ensures |h| == HEADER_SIZE
  {
    [PROTOCOL_VERSION, m.kind, m.flags]
    + BigEndian(m.correlation as nat, 8)
    + [|m.sender| as byte, |m.destination| as byte]
    + BigEndian(|m.payload| % 0x1_0000, 2)
  }

  function Encode(m: Message): (b: Bytes)
    requires Bounded(m)
    ensures |b| == HEADER_SIZE + |m.sender| + |m.destination| + |m.payload|
  {
    Header(m) + m.sender + m.destination + m.payload
  }

  /** A frame the broker accepts. */
  ghost predicate IsFrame(b: Bytes) {
    exists m :: Bounded(m) && Encode(m) == b
  }

  lemma HeaderFields(m: Message)
    requires |m.sender| <= MAX_NAME && |m.destination| <= MAX_NAME
    ensures Header(m)[0] == PROTOCOL_VERSION && Header(m)[1] == m.kind && Header(m)[2] == m.flags
    ensures Header(m)[3..11] == BigEndian(m.correlation as nat, 8)
    ensures Header(m)[11] as int == |m.sender| && Header(m)[12] as int == |m.destination|
    ensures Header(m)[13..15] == BigEndian(|m.payload| % 0x1_0000, 2)
  {
  }

  lemma HeaderValues(m: Message)
    requires |m.sender| <= MAX_NAME && |m.destination| <= MAX_NAME
    ensures FromBigEndian(Header(m)[3..11]) == m.correlation as nat
    ensures FromBigEndian(Header(m)[13..15]) == |m.payload| % 0x1_0000
  {
    HeaderFields(m);
    Widths();
    BigEndianRoundTrip(m.correlation as nat, 8);
    BigEndianRoundTrip(|m.payload| % 0x1_0000, 2);
  }

  lemma Slices(h: Bytes, x: Bytes, y: Bytes, z: Bytes)
    ensures var b, s, d := h + x + y + z, |h| + |x|, |h| + |x| + |y|;
            b[..|h|] == h && b[|h|..s] == x && b[s..d] == y && b[d..] == z
  {
  }

  lemma SameHeader(m: Message, m': Message)
    requires Bounded(m) && Bounded(m') && Header(m) == Header(m')
    ensures m.kind == m'.kind && m.flags == m'.flags && m.correlation == m'.correlation
    ensures |m.sender| == |m'.sender| && |m.destination| == |m'.destination| && |m.payload| == |m'.payload|
  {
    HeaderSays(Header(m), m);
    HeaderSays(Header(m), m');
  }

  lemma HeaderSays(h: Bytes, m: Message)
    requires Bounded(m) && h == Header(m)
    ensures h[1] == m.kind && h[2] == m.flags && h[11] as nat == |m.sender| && h[12] as nat == |m.destination|
    ensures FromBigEndian(h[3..11]) == m.correlation as nat && FromBigEndian(h[13..15]) == |m.payload|
  {
    HeaderFields(m);
    HeaderValues(m);
  }

  /** Every part of a message can be read back from its frame, so no two messages share one. */
  lemma EncodeInjective(m: Message, m': Message)
    requires Bounded(m) && Bounded(m') && Encode(m) == Encode(m')
    ensures m == m'
  {
    Slices(Header(m), m.sender, m.destination, m.payload);
    Slices(Header(m'), m'.sender, m'.destination, m'.payload);
    SameHeader(m, m');
  }

  /** The checks of the parser, in its order: what an error says about the bytes. */
  ghost predicate Explains(e: WireError, b: Bytes) {
    match e
    case TooShort => |b| < HEADER_SIZE
    case UnsupportedVersion => |b| >= HEADER_SIZE && b[0] != PROTOCOL_VERSION
    case SizeMismatch =>
      && |b| >= HEADER_SIZE && b[0] == PROTOCOL_VERSION
      && |b| != HEADER_SIZE + b[11] as int + b[12] as int + FromBigEndian(b[13..15])
    case _ => false
  }

  lemma ExplainedIsNoFrame(e: WireError, b: Bytes)
    requires Explains(e, b)
    ensures !IsFrame(b)
  {
    if m: Message :| Bounded(m) && Encode(m) == b {
      assert b[..HEADER_SIZE] == Header(m);
      assert b[13..15] == Header(m)[13..15];
      HeaderFields(m);
      HeaderValues(m);
    }
  }

  /** Message::Serialize. */
  method Serialize(m: Message) returns (r: Result<Bytes, WireError>)
    ensures r.Ok? <==> Bounded(m)
    ensures r.Ok? ==> r.value == Encode(m)
    ensures r.Err? ==> r.error == if |m.sender| > MAX_NAME then SenderTooLong
                                  else if |m.destination| > MAX_NAME then DestinationTooLong
                                  else PayloadTooLarge
  {
    if |m.sender| > MAX_NAME {
      return Err(SenderTooLong);
    }
    if |m.destination| > MAX_NAME {
      return Err(DestinationTooLong);
    }
    if |m.payload| > MAX_PAYLOAD {
      return Err(PayloadTooLarge);
    }
    var buffer := WriteFrame(m);
    return Ok(buffer);
  }

  /** A byte swap, and the memcpy of the little-endian integer that results. */
  method WriteSwapped(buffer: Bytes, value: nat, width: nat) returns (extended: Bytes)
    ensures extended == buffer + BigEndian(value, width)
  {
    SwapWritesNetworkOrder(value, width);
    var swapped := ByteSwap(value, width);
    extended := buffer + LittleEndian(swapped, width);
  }

  /** The pushes that Message::Serialize and the sample client share. */
  method WriteFrame(m: Message) returns (buffer: Bytes)
    requires |m.sender| <= MAX_NAME && |m.destination| <= MAX_NAME
    ensures buffer == Header(m) + m.sender + m.destination + m.payload
  {
    buffer := [PROTOCOL_VERSION];
    buffer := buffer + [m.kind];
    buffer := buffer + [m.flags];
    buffer := WriteSwapped(buffer, m.correlation as nat, 8);
    buffer := buffer + [|m.sender| as byte];
    buffer := buffer + [|m.destination| as byte];
    buffer := WriteSwapped(buffer, |m.payload| % 0x1_0000, 2);
    assert buffer == Header(m);
    buffer := buffer + m.sender;
    buffer := buffer + m.destination;
    buffer := buffer + m.payload;
  }

  /** memcpy of `width` bytes into a little-endian integer, and the byte swap that follows. */
  method ReadSwapped(data: Bytes, pos: nat, width: nat) returns (value: nat)
    requires pos + width <= |data| && (width == 2 || width == 8)
    ensures value == FromBigEndian(data[pos..pos + width])
    ensures value < if width == 2 then 0x1_0000 else 0x1_0000_0000_0000_0000
  {
    SwapReadsNetworkOrder(data[pos..pos + width]);
    FromBigEndianRange(data[pos..pos + width]);
    Widths();
    value := ByteSwap(FromLittleEndian(data[pos..pos + width]), width);
  }

  /** Message::Deserialize: accepts exactly the frames, and returns the one message behind each. */
  method Deserialize(data: Bytes) returns (r: Result<Message, WireError>)
    ensures r.Ok? <==> IsFrame(data)
    ensures r.Ok? ==> Bounded(r.value) && Encode(r.value) == data
    ensures r.Err? ==> Explains(r.error, data)
  {
    if |data| < HEADER_SIZE {
      ExplainedIsNoFrame(TooShort, data);
      return Err(TooShort);
    }
    var pos := 0;
    var version := data[pos];
    pos := pos + 1;
    if version != PROTOCOL_VERSION {
      ExplainedIsNoFrame(UnsupportedVersion, data);
      return Err(UnsupportedVersion);
    }
    var kind := data[pos];
    pos := pos + 1;
    var flags := data[pos];
    pos := pos + 1;
    var netCorrelation := ReadSwapped(data, pos, 8);
    var correlation := netCorrelation as uint64;
    pos := pos + 8;
    var senderLen := data[pos] as nat;
    pos := pos + 1;
    var destLen := data[pos] as nat;
    pos := pos + 1;
    var payloadLen := ReadSwapped(data, pos, 2);
    pos := pos + 2;
    if |data| != HEADER_SIZE + senderLen + destLen + payloadLen {
      ExplainedIsNoFrame(SizeMismatch, data);
      return Err(SizeMismatch);
    }
    r := ReadParts(data, kind, flags, correlation, senderLen, destLen, payloadLen);
  }

  /** The three variable parts of a frame whose size adds up. */
  method ReadParts(data: Bytes, kind: byte, flags: byte, correlation: uint64, senderLen: nat, destLen: nat, payloadLen: nat)
    returns (r: Result<Message, WireError>)
    requires |data| == HEADER_SIZE + senderLen + destLen + payloadLen
    requires data[0] == PROTOCOL_VERSION && data[1] == kind && data[2] == flags
    requires FromBigEndian(data[3..11]) == correlation as nat && FromBigEndian(data[13..15]) == payloadLen < 0x1_0000
    requires data[11] as nat == senderLen && data[12] as nat == destLen
    ensures r.Ok? && Bounded(r.value) && Encode(r.value) == data && IsFrame(data)
  {
    var pos := HEADER_SIZE;
    var sender := data[pos..pos + senderLen];
    pos := pos + senderLen;
    var destination := data[pos..pos + destLen];
    pos := pos + destLen;
    var payload := data[pos..pos + payloadLen];
    ReadBack(data, correlation, senderLen, destLen, payloadLen);
    return Ok(Message(kind, flags, correlation, sender, destination, payload));
  }

  lemma HeaderBytes(b: Bytes)
    requires |b| >= HEADER_SIZE
    ensures b[..15] == [b[0], b[1], b[2]] + b[3..11] + [b[11], b[12]] + b[13..15]
  {
    assert b[..3] == [b[0], b[1], b[2]] && b[11..13] == [b[11], b[12]];
    assert b[..11] == b[..3] + b[3..11] && b[..13] == b[..11] + b[11..13] && b[..15] == b[..13] + b[13..15];
  }

  lemma FourParts(b: Bytes, s: nat, d: nat, p: nat)
    requires |b| == HEADER_SIZE + s + d + p
    ensures b == b[..15] + b[15..15 + s] + b[15 + s..15 + s + d] + b[15 + s + d..15 + s + d + p]
  {
    assert b[..15 + s] == b[..15] + b[15..15 + s];
    assert b[..15 + s + d] == b[..15 + s] + b[15 + s..15 + s + d];
    assert b == b[..15 + s + d] + b[15 + s + d..15 + s + d + p];
  }

  lemma HeaderReadBack(b: Bytes, m: Message)
    requires |b| >= HEADER_SIZE && b[0] == PROTOCOL_VERSION && b[1] == m.kind && b[2] == m.flags && Bounded(m)
    requires FromBigEndian(b[3..11]) == m.correlation as nat && FromBigEndian(b[13..15]) == |m.payload|
    requires b[11] as nat == |m.sender| && b[12] as nat == |m.destination|
    ensures Header(m) == b[..15]
  {
    HeaderBytes(b);
    BigEndianOfFrom(b[3..11]);
    BigEndianOfFrom(b[13..15]);
  }

  /** Reading a well-formed frame and writing what was read gives back the frame. */
  lemma ReadBack(b: Bytes, correlation: uint64, s: nat, d: nat, p: nat)
    requires |b| == HEADER_SIZE + s + d + p && b[0] == PROTOCOL_VERSION
    requires FromBigEndian(b[3..11]) == correlation as nat && FromBigEndian(b[13..15]) == p < 0x1_0000
    requires b[11] as nat == s && b[12] as nat == d
    ensures var m := Message(b[1], b[2], correlation, b[15..15 + s], b[15 + s..15 + s + d], b[15 + s + d..15 + s + d + p]);
            Bounded(m) && Encode(m) == b
    ensures IsFrame(b)
  {
    var m := Message(b[1], b[2], correlation, b[15..15 + s], b[15 + s..15 + s + d], b[15 + s + d..15 + s + d + p]);
    HeaderReadBack(b, m);
    FourParts(b, s, d, p);
  }

  // ----- the sample client -----

  /** The client's Serialize checks the names but not the payload. */
  method ClientSerialize(m: Message) returns (r: Result<Bytes, WireError>)
    ensures r.Ok? <==> |m.sender| <= MAX_NAME && |m.destination| <= MAX_NAME
    ensures r.Ok? && Bounded(m) ==> r.value == Encode(m)
    ensures r.Ok? ==> (IsFrame(r.value) <==> Bounded(m))
    ensures r.Ok? && !Bounded(m) ==> Explains(SizeMismatch, r.value)
  {
    if |m.sender| > MAX_NAME || |m.destination| > MAX_NAME {
      return Err(NameTooLong);
    }
    var buffer := WriteFrame(m);
    if !Bounded(m) {
      OversizedIsRejected(m);
    }
    return Ok(buffer);
  }

  /** An oversized payload leaves a length field that never matches the frame. */
  lemma OversizedIsRejected(m: Message)
    requires |m.sender| <= MAX_NAME && |m.destination| <= MAX_NAME && |m.payload| > MAX_PAYLOAD
    ensures Explains(SizeMismatch, Header(m) + m.sender + m.destination + m.payload)
    ensures !IsFrame(Header(m) + m.sender + m.destination + m.payload)
  {
    var b := Header(m) + m.sender + m.destination + m.payload;
    assert b[..HEADER_SIZE] == Header(m);
    assert b[13..15] == Header(m)[13..15];
    HeaderFields(m);
    HeaderValues(m);
    ExplainedIsNoFrame(SizeMismatch, b);
  }
}
