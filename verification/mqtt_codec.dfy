/** The MQTT 3.1.1 wire codec of the load generator (cmd/mvp-loadgen/main.go):
    Remaining Length, length-prefixed strings, CONNECT and PUBLISH packets, and
    the packet reader. */
module MqttCodec {
  import opened Model

  type byte = b: int | 0 <= b < 256

  /** Largest body length plus one: four 7-bit groups (section 2.2.3). */
  const LENGTH_LIMIT := 268_435_456

  // ---------------------------------------------------------------- Remaining Length

  function EncodeLength(n: nat): (r: seq<byte>)
  {
    if n < 128 then [n] else [n % 128 + 128] + EncodeLength(n / 128)
  }

  method EncodeRemainingLength(n: nat) returns (result: seq<byte>)
    ensures result == EncodeLength(n)
  {
    result := [];
    var length := n;
    while true
      invariant 0 <= length
      invariant result + EncodeLength(length) == EncodeLength(n)
      decreases length
    {
      var digit := length % 128;
      var more := length / 128;
      if more > 0 {
        digit := digit + 128;
      }
      ghost var before := length;
      length := more;
      assert length != 0 ==> EncodeLength(before) == [digit] + EncodeLength(length);
      result := result + [digit];
      if length == 0 {
        assert EncodeLength(before) == [digit];
        break;
      }
    }
  }

  datatype LengthResult =
    | Length(value: nat, rest: seq<byte>)
    | Malformed
    | Short

  /** Remaining Length as section 2.2.3 defines it: little-endian groups of seven bits, the
      top bit announcing another group, at most four groups. `index` groups are already read. */
  function DecodeLength(bytes: seq<byte>, index: nat): LengthResult
    requires index <= 3
    decreases 3 - index
  {
    if bytes == [] then Short
    else if bytes[0] < 128 then Length(bytes[0], bytes[1..])
    else if index == 3 then Malformed
    else
      match DecodeLength(bytes[1..], index + 1)
      case Length(v, rest) => Length(bytes[0] - 128 + 128 * v, rest)
      case failure => failure
  }

  function Pow128(k: nat): nat {
    if k == 0 then 1 else 128 * Pow128(k - 1)
  }

  /** Decoding undoes encoding, whatever follows, for every length the format can carry,
      and refuses the encoding of every longer one. */
  lemma {:induction false} LengthRoundTrip(n: nat, tail: seq<byte>, index: nat)
    requires index <= 3
    ensures DecodeLength(EncodeLength(n) + tail, index)
         == if n < Pow128(4 - index) then Length(n, tail) else Malformed
  {
    var bytes := EncodeLength(n) + tail;
    if n < 128 {
      assert bytes[1..] == tail;
      assert Pow128(4 - index) >= 128 by { PowAtLeast(4 - index); }
    } else {
      assert bytes[1..] == EncodeLength(n / 128) + tail;
      if index < 3 {
        LengthRoundTrip(n / 128, tail, index + 1);
        assert Pow128(4 - index) == 128 * Pow128(3 - index);
      } else {
        assert Pow128(1) == 128 * Pow128(0) == 128;
      }
    }
  }

  lemma {:induction false} PowAtLeast(k: nat)
    requires k >= 1
    ensures Pow128(k) >= 128
  {
    if k > 1 { PowAtLeast(k - 1); }
  }

  lemma PowFour()
    ensures Pow128(4) == LENGTH_LIMIT
  {
    assert Pow128(1) == 128;
    assert Pow128(2) == 16384;
    assert Pow128(3) == 2097152;
  }

  /** The number of bytes the decoder consumed. */
  function Consumed(bytes: seq<byte>, r: LengthResult): int {
    match r
    case Length(_, rest) => |bytes| - |rest|
    case Malformed => 4
    case Short => |bytes|
  }

  /** A successful decode consumes a non-empty prefix and leaves the rest untouched. */
  lemma {:induction false} DecodeConsumes(bytes: seq<byte>, index: nat)
    requires index <= 3
    ensures var r := DecodeLength(bytes, index);
            match r
            case Length(v, rest) =>
              && 1 <= Consumed(bytes, r) <= 4 - index && Consumed(bytes, r) <= |bytes|
              && rest == bytes[Consumed(bytes, r)..]
              && v < Pow128(4 - index)
            case Malformed => |bytes| >= 4 - index
            case Short => |bytes| < 4 - index
  {
    if bytes != [] && bytes[0] >= 128 && index < 3 {
      DecodeConsumes(bytes[1..], index + 1);
      assert Pow128(4 - index) == 128 * Pow128(3 - index);
    } else {
      PowAtLeast(4 - index);
    }
  }

  /** Bytes are a minimal encoding when no trailing group is zero. */
  predicate Minimal(used: seq<byte>) {
    |used| == 1 || (|used| > 1 && used[|used| - 1] != 0)
  }

  /** Re-encoding a decoded value gives back the consumed bytes exactly when they were minimal. */
  lemma {:induction false} ReencodeIffMinimal(bytes: seq<byte>, index: nat)
    requires index <= 3 && DecodeLength(bytes, index).Length?
    ensures var r := DecodeLength(bytes, index);
            var n := Consumed(bytes, r);
            1 <= n <= |bytes| && (EncodeLength(r.value) == bytes[..n] <==> Minimal(bytes[..n]))
  {
    DecodeConsumes(bytes, index);
    if bytes[0] >= 128 {
      ReencodeIffMinimal(bytes[1..], index + 1);
      UsedBytes(bytes, index);
      var sub := DecodeLength(bytes[1..], index + 1);
      var used := bytes[1..][..Consumed(bytes[1..], sub)];
      if sub.value > 0 {
        if |used| == 1 { SingleGroup(bytes[1..], index + 1); }
        LongerIff(bytes[0], sub.value, used);
      } else {
        LastGroupOfZero(bytes[1..], index + 1);
        ZeroTailIff(bytes[0], used);
      }
    }
  }

  lemma UsedBytes(bytes: seq<byte>, index: nat)
    requires index <= 3 && DecodeLength(bytes, index).Length? && bytes[0] >= 128
    ensures var r, sub := DecodeLength(bytes, index), DecodeLength(bytes[1..], index + 1);
            var n, m := Consumed(bytes, r), Consumed(bytes[1..], sub);
            && index < 3 && sub.Length? && 1 <= m <= |bytes| - 1 && n == m + 1
            && bytes[..n] == [bytes[0]] + bytes[1..][..m]
            && r.value == bytes[0] as int - 128 + 128 * sub.value
  {
    DecodeConsumes(bytes[1..], index + 1);
  }

  lemma LongerIff(b: byte, v: nat, used: seq<byte>)
    requires b >= 128 && v > 0 && used != [] && (EncodeLength(v) == used <==> Minimal(used))
    requires |used| == 1 ==> v == used[0] as int
    ensures EncodeLength(b - 128 + 128 * v) == [b] + used <==> Minimal([b] + used)
  {
    PrependGroup(b, v, used);
  }

  lemma ZeroTailIff(b: byte, used: seq<byte>)
    requires b >= 128 && used != [] && used[|used| - 1] == 0
    ensures EncodeLength(b - 128) != [b] + used && !Minimal([b] + used)
  {
    assert |EncodeLength(b - 128)| == 1;
    assert ([b] + used)[|used|] == 0;
  }

  lemma PrependGroup(b: byte, v: nat, rest: seq<byte>)
    requires b >= 128 && v > 0
    ensures EncodeLength(b - 128 + 128 * v) == [b] + rest <==> EncodeLength(v) == rest
  {
    var n := b - 128 + 128 * v;
    assert n / 128 == v && n % 128 + 128 == b;
    assert EncodeLength(n)[1..] == EncodeLength(v);
    assert ([b] + rest)[1..] == rest;
  }

  lemma SingleGroup(bytes: seq<byte>, index: nat)
    requires index <= 3
    requires var r := DecodeLength(bytes, index); r.Length? && Consumed(bytes, r) == 1
    ensures DecodeLength(bytes, index).value == bytes[0]
  {
    if bytes[0] >= 128 && index < 3 { DecodeConsumes(bytes[1..], index + 1); }
  }

  lemma {:induction false} LastGroupOfZero(bytes: seq<byte>, index: nat)
    requires index <= 3
    requires DecodeLength(bytes, index).Length? && DecodeLength(bytes, index).value == 0
    ensures var n := Consumed(bytes, DecodeLength(bytes, index)); 1 <= n <= |bytes| && bytes[n - 1] == 0
  {
    DecodeConsumes(bytes, index);
    if bytes[0] >= 128 {
      LastGroupOfZero(bytes[1..], index + 1);
      DecodeConsumes(bytes[1..], index + 1);
    }
  }

  // ---------------------------------------------------------------- the connection being read

  /** The bytes of a connection not read yet; the peer sends no more. */
  class Conn {
    var unread: seq<byte>

    constructor (data: seq<byte>)
      ensures unread == data
    {
      unread := data;
    }

    /** io.ReadFull: all the bytes asked for, or an error after consuming what there was. */
    method ReadFull(n: nat) returns (r: Option<seq<byte>>)
      modifies this
      ensures r == if n <= |old(unread)| then Some(old(unread)[..n]) else None
      ensures unread == if n <= |old(unread)| then old(unread)[n..] else []
    {
      if n <= |unread| {
        r := Some(unread[..n]);
        unread := unread[n..];
      } else {
        r := None;
        unread := [];
      }
    }

    method ReadRemainingLength() returns (r: Option<nat>)
      modifies this
      ensures var d := DecodeLength(old(unread), 0);
              && (d.Length? ==> r == Some(d.value) && unread == d.rest)
              && (d.Malformed? ==> r == None && |old(unread)| >= 4 && unread == old(unread)[4..])
              && (d.Short? ==> r == None && unread == [])
    {
      ghost var start := unread;
      ghost var index := 0;
      var multiplier: nat := 1;
      var value: nat := 0;
      while true
        invariant 0 <= value && Tracks(start, index, value)
        invariant multiplier == Pow128(index) && unread == start[index..]
        decreases 3 - index
      {
        TrackStep(start, index, value);
        var buffer := ReadFull(1);
        if buffer.None? {
          return None;
        }
        var b := buffer.value[0];
        assert b == start[index];
        value := value + (b as int % 128) * multiplier;
        if b < 128 {
          return Some(value);
        }
        PowThreshold(index);
        multiplier := multiplier * 128;
        if multiplier > 128 * 128 * 128 {
          return None;
        }
        index := index + 1;
      }
    }

    /** readMQTTPacket: the packet type in the top half of the first byte, then the body. */
    method ReadPacket() returns (r: Option<(int, seq<byte>)>)
      modifies this
      ensures var p := ParsePacket(old(unread));
              match p
              case Packet(kind, payload, rest) => r == Some((kind, payload)) && unread == rest
              case Unreadable => r == None
    {
      var header := ReadFull(1);
      if header.None? {
        return None;
      }
      var remaining := ReadRemainingLength();
      if remaining.None? {
        return None;
      }
      var payload := ReadFull(remaining.value);
      if payload.None? {
        return None;
      }
      return Some((header.value[0] / 16, payload.value));
    }
  }

  /** What is left to decode after `index` groups worth `value`. */
  ghost predicate Tracks(start: seq<byte>, index: nat, value: nat) {
    index <= 3 && index <= |start|
    && match DecodeLength(start[index..], index)
       case Length(v, rest) => DecodeLength(start, 0) == Length(value + Pow128(index) * v, rest)
       case failure => DecodeLength(start, 0) == failure
  }

  lemma TrackStep(start: seq<byte>, index: nat, value: nat)
    requires Tracks(start, index, value)
    ensures index == |start| ==> DecodeLength(start, 0).Short?
    ensures index < |start| ==>
              var next: nat := value + (start[index] as int % 128) * Pow128(index);
              if start[index] < 128 then DecodeLength(start, 0) == Length(next, start[index + 1..])
              else if index == 3 then DecodeLength(start, 0).Malformed?
              else Tracks(start, index + 1, next)
  {
    if index < |start| {
      assert start[index..][0] == start[index] && start[index..][1..] == start[index + 1..];
      GroupStep(start[index..], index, DecodeLength(start, 0), value);
    }
  }

  lemma GroupStep(bytes: seq<byte>, index: nat, whole: LengthResult, value: nat)
    requires index <= 3 && bytes != []
    requires match DecodeLength(bytes, index)
             case Length(v, rest) => whole == Length(value + Pow128(index) * v, rest)
             case failure => whole == failure
    ensures var next: nat := value + (bytes[0] as int % 128) * Pow128(index);
            if bytes[0] < 128 then whole == Length(next, bytes[1..])
            else if index == 3 then whole == Malformed
            else
              match DecodeLength(bytes[1..], index + 1)
              case Length(v, rest) => whole == Length(next + Pow128(index + 1) * v, rest)
              case failure => whole == failure
  {
    var b: nat := bytes[0] as int;
    if b >= 128 && index < 3 {
      var sub := DecodeLength(bytes[1..], index + 1);
      if sub.Length? {
        Distribute(Pow128(index), b - 128, sub.value);
      }
    }
  }

  lemma Distribute(p: nat, low: nat, v: nat)
    ensures p * (low + 128 * v) == low * p + (128 * p) * v
  {
  }

  lemma PowThreshold(index: nat)
    requires index <= 3
    ensures Pow128(index) * 128 == Pow128(index + 1)
    ensures Pow128(index + 1) > 128 * 128 * 128 <==> index == 3
  {
    assert Pow128(1) == 128;
    assert Pow128(2) == 16384;
    assert Pow128(3) == 2097152;
    assert Pow128(4) == 268435456;
  }

  // ---------------------------------------------------------------- strings (section 1.5.3)

  function StringBytes(v: seq<byte>): seq<byte> {
    [(|v| / 256) % 256, |v| % 256] + v
  }

  /** Reading a UTF-8 encoded string field as section 1.5.3 defines it. */
  function ParseString(bytes: seq<byte>): Option<(seq<byte>, seq<byte>)> {
    if |bytes| < 2 then None
    else
      var n: nat := (bytes[0] as int) * 256 + bytes[1] as int;
      if |bytes| - 2 < n then None else Some((bytes[2..2 + n], bytes[2 + n..]))
  }

  /** The two-byte length truncates: a string survives the trip exactly when it is under 65536 bytes. */
  lemma StringRoundTripIff(v: seq<byte>, tail: seq<byte>)
    ensures ParseString(StringBytes(v) + tail) == Some((v, tail)) <==> |v| < 65536
  {
    var bytes := StringBytes(v) + tail;
    var n: nat := (bytes[0] as int) * 256 + bytes[1] as int;
    assert bytes[2..] == v + tail;
    if |v| < 65536 {
      assert n == |v|;
      assert bytes[2..2 + n] == v && bytes[2 + n..] == tail;
    } else {
      assert n < 65536;
    }
  }

  // ---------------------------------------------------------------- packets

  datatype Packet =
    | Connect(clientID: seq<byte>, username: seq<byte>, password: seq<byte>)
    | Publish(topic: seq<byte>, payload: seq<byte>)

  const PROTOCOL_NAME: seq<byte> := [77, 81, 84, 84]
  const PROTOCOL_LEVEL: byte := 0x04
  const CONNECT_FLAGS: byte := 0xC2
  const KEEP_ALIVE: seq<byte> := [0x00, 0x3C]

  function Body(p: Packet): seq<byte> {
    match p
    case Connect(c, u, w) =>
      StringBytes(PROTOCOL_NAME) + ([PROTOCOL_LEVEL, CONNECT_FLAGS] + KEEP_ALIVE
      + (StringBytes(c) + (StringBytes(u) + StringBytes(w))))
    case Publish(t, payload) => StringBytes(t) + payload
  }

  function Header(p: Packet): byte {
    if p.Connect? then 0x10 else 0x30
  }

  function Wire(p: Packet): seq<byte> {
    [Header(p)] + EncodeLength(|Body(p)|) + Body(p)
  }

  /** writeMQTTString: appends to the buffer it is given. */
  method WriteString(buffer: seq<byte>, value: seq<byte>) returns (r: seq<byte>)
    ensures r == buffer + StringBytes(value)
  {
    r := buffer + [(|value| / 256) % 256];
    r := r + [|value| % 256];
    r := r + value;
  }

  lemma ConnectLayout(name: seq<byte>, c: seq<byte>, u: seq<byte>, w: seq<byte>)
    ensures [] + name + [0x04] + [0xC2] + [0x00] + [0x3C] + c + u + w
         == name + ([PROTOCOL_LEVEL, CONNECT_FLAGS] + KEEP_ALIVE + (c + (u + w)))
  {
    assert [] + name + [0x04] + [0xC2] + [0x00] + [0x3C] == name + ([PROTOCOL_LEVEL, CONNECT_FLAGS] + KEEP_ALIVE);
  }

  method BuildConnectPacket(clientID: seq<byte>, username: seq<byte>, password: seq<byte>) returns (packet: seq<byte>)
    ensures packet == Wire(Connect(clientID, username, password))
  {
    var variable := WriteString([], PROTOCOL_NAME);
    variable := variable + [0x04];
    variable := variable + [0xC2];
    variable := variable + [0x00];
    variable := variable + [0x3C];
    variable := WriteString(variable, clientID);
    variable := WriteString(variable, username);
    variable := WriteString(variable, password);
    ConnectLayout(StringBytes(PROTOCOL_NAME), StringBytes(clientID), StringBytes(username), StringBytes(password));
    assert variable == Body(Connect(clientID, username, password));

    packet := [0x10];
    var length := EncodeRemainingLength(|variable|);
    packet := packet + length;
    packet := packet + variable;
  }

  method BuildPublishPacket(topic: seq<byte>, payload: seq<byte>) returns (packet: seq<byte>)
    ensures packet == Wire(Publish(topic, payload))
  {
    var variable := WriteString([], topic);
    variable := variable + payload;
    assert variable == StringBytes(topic) + payload == Body(Publish(topic, payload));

    packet := [0x30];
    var length := EncodeRemainingLength(|variable|);
    packet := packet + length;
    packet := packet + variable;
  }

  datatype PacketResult = Packet(kind: int, payload: seq<byte>, rest: seq<byte>) | Unreadable

  function ParsePacket(bytes: seq<byte>): PacketResult {
    if bytes == [] then Unreadable else ParseAfterHeader(bytes[0], DecodeLength(bytes[1..], 0))
  }

  function ParseAfterHeader(header: byte, length: LengthResult): PacketResult {
    match length
    case Length(n, rest) => if n <= |rest| then Packet(header / 16, rest[..n], rest[n..]) else Unreadable
    case _ => Unreadable
  }

  /** The packet a body of the given type stands for (sections 3.1 and 3.3). */
  function ParseBody(kind: int, body: seq<byte>): Option<Packet> {
    if kind == 1 then ParseConnect(body)
    else if kind == 3 then
      (match ParseString(body)
       case Some((t, payload)) => Some(Publish(t, payload))
       case None => None)
    else None
  }

  function ParseConnect(body: seq<byte>): Option<Packet> {
    match ParseString(body)
    case None => None
    case Some((name, r0)) =>
      if name != PROTOCOL_NAME || |r0| < 4 || r0[..4] != [PROTOCOL_LEVEL, CONNECT_FLAGS] + KEEP_ALIVE then None
      else
        match ParseString(r0[4..])
        case None => None
        case Some((c, r1)) =>
          match ParseString(r1)
          case None => None
          case Some((u, r2)) =>
            match ParseString(r2)
            case None => None
            case Some((w, r3)) => if r3 == [] then Some(Connect(c, u, w)) else None
  }

  /** A packet is read back whole, whatever follows it on the connection, exactly when its
      body fits four length bytes; a longer one is refused. */
  lemma PacketRoundTripIff(p: Packet, tail: seq<byte>)
    ensures ParsePacket(Wire(p) + tail)
         == if |Body(p)| < LENGTH_LIMIT then Packet(if p.Connect? then 1 else 3, Body(p), tail) else Unreadable
  {
    FrameRoundTrip(Header(p), Body(p), tail);
  }

  lemma FrameRoundTrip(header: byte, body: seq<byte>, tail: seq<byte>)
    ensures ParsePacket([header] + EncodeLength(|body|) + body + tail)
         == if |body| < LENGTH_LIMIT then Packet(header / 16, body, tail) else Unreadable
  {
    LengthDecodes(|body|, body + tail);
    SplitAt(body, tail);
    Regroup(header, EncodeLength(|body|), body, tail);
  }

  lemma LengthDecodes(n: nat, tail: seq<byte>)
    ensures DecodeLength(EncodeLength(n) + tail, 0) == if n < LENGTH_LIMIT then Length(n, tail) else Malformed
  {
    LengthRoundTrip(n, tail, 0);
    PowFour();
  }

  lemma Regroup(header: byte, code: seq<byte>, body: seq<byte>, tail: seq<byte>)
    ensures var bytes := [header] + code + body + tail;
            bytes[0] == header && bytes[1..] == code + (body + tail)
  {
  }

  lemma SplitAt(a: seq<byte>, b: seq<byte>)
    ensures (a + b)[..|a|] == a && (a + b)[|a|..] == b
  {
  }

  predicate FieldsFit(p: Packet) {
    match p
    case Connect(c, u, w) => |c| < 65536 && |u| < 65536 && |w| < 65536
    case Publish(t, _) => |t| < 65536
  }

  /** Parsing a body recovers the client id, user name and password, or the topic and payload. */
  lemma BodyRoundTrip(p: Packet)
    requires FieldsFit(p)
    ensures ParseBody(if p.Connect? then 1 else 3, Body(p)) == Some(p)
  {
    match p
    case Publish(t, payload) => StringRoundTripIff(t, payload);
    case Connect(c, u, w) =>
      var r2 := StringBytes(w);
      var r1 := StringBytes(u) + r2;
      var r0 := [PROTOCOL_LEVEL, CONNECT_FLAGS] + KEEP_ALIVE + (StringBytes(c) + r1);
      StringRoundTripIff(PROTOCOL_NAME, r0);
      assert r0[..4] == [PROTOCOL_LEVEL, CONNECT_FLAGS] + KEEP_ALIVE;
      assert r0[4..] == StringBytes(c) + r1;
      StringRoundTripIff(c, r1);
      StringRoundTripIff(u, r2);
      StringRoundTripIff(w, []);
      assert r2 + [] == r2;
  }

  lemma ParsedStringIsShort(bytes: seq<byte>)
    requires ParseString(bytes).Some?
    ensures |ParseString(bytes).value.0| < 65536
  {
  }

  lemma ParsedFits(kind: int, body: seq<byte>)
    requires ParseBody(kind, body).Some?
    ensures FieldsFit(ParseBody(kind, body).value)
  {
    ParsedStringIsShort(body);
    var r0 := ParseString(body).value.1;
    if kind == 1 {
      ParsedStringIsShort(r0[4..]);
      var r1 := ParseString(r0[4..]).value.1;
      ParsedStringIsShort(r1);
      ParsedStringIsShort(ParseString(r1).value.1);
    }
  }

  /** Parsing a body recovers the client id, user name and password, or the topic and payload,
      exactly when each string is short enough for its length field. */
  lemma BodyRoundTripIff(p: Packet)
    ensures ParseBody(if p.Connect? then 1 else 3, Body(p)) == Some(p) <==> FieldsFit(p)
  {
    if FieldsFit(p) {
      BodyRoundTrip(p);
    } else if ParseBody(if p.Connect? then 1 else 3, Body(p)).Some? {
      ParsedFits(if p.Connect? then 1 else 3, Body(p));
    }
  }

  /** A publish body loses its topic exactly when the topic is too long for its length field. */
  lemma PublishRoundTripIff(t: seq<byte>, payload: seq<byte>)
    ensures ParseBody(3, Body(Publish(t, payload))) == Some(Publish(t, payload)) <==> |t| < 65536
  {
    StringRoundTripIff(t, payload);
  }

  // ---------------------------------------------------------------- a stream of packets

  function Stream(ps: seq<Packet>): seq<byte> {
    if ps == [] then [] else Wire(ps[0]) + Stream(ps[1..])
  }

  /** Reads packets off the bytes until they are used up. */
  function ReadStream(bytes: seq<byte>): Option<seq<Packet>>
    decreases |bytes|
  {
    if bytes == [] then Some([])
    else
      match ParsePacket(bytes)
      case Unreadable => None
      case Packet(kind, body, rest) =>
        DecodeConsumes(bytes[1..], 0);
        match (ParseBody(kind, body), ReadStream(rest))
        case (Some(p), Some(ps)) => Some([p] + ps)
        case _ => None
  }

  predicate Sendable(p: Packet) {
    FieldsFit(p) && |Body(p)| < LENGTH_LIMIT
  }

  /** Framing: any concatenation of built packets is read back as the same packets in order. */
  lemma {:induction false} StreamRoundTrip(ps: seq<Packet>)
    requires forall p :: p in ps ==> Sendable(p)
    ensures ReadStream(Stream(ps)) == Some(ps)
  {
    if ps != [] {
      var p := ps[0];
      assert p in ps;
      PacketRoundTripIff(p, Stream(ps[1..]));
      BodyRoundTrip(p);
      StreamRoundTrip(ps[1..]);
      assert ps == [p] + ps[1..];
    }
  }

  /** So two different lists of packets never look alike on the wire. */
  lemma StreamInjective(ps: seq<Packet>, qs: seq<Packet>)
    requires forall p :: p in ps ==> Sendable(p)
    requires forall q :: q in qs ==> Sendable(q)
    requires Stream(ps) == Stream(qs)
    ensures ps == qs
  {
    StreamRoundTrip(ps);
    StreamRoundTrip(qs);
  }
}
