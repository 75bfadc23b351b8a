/**
 mqttlib.c: how packets of MQTT 3.1.1 are written and taken apart. Bit operations on bytes
 are written as arithmetic: masks as remainders, shifts as products.
 */
module MqttCodec {
  type Byte = b: int | 0 <= b < 256

  const PUBLISH := 0x30
  const PUBACK := 0x40
  const SUBSCRIBE := 0x80
  const SUBACK := 0x90
  const UNSUBACK := 0xB0
  const WORD := 0x1_0000

  // ------------------------------------------------------------- section 2.2.3 of MQTT 3.1.1

  /** The remaining length: seven bits a byte, low-order first, the top bit on all but the last. */
  function EncodeLength(n: nat): (e: seq<Byte>)
    ensures |e| > 0
    decreases n
  {
    if n < 128 then [n] else [n % 128 + 128] + EncodeLength(n / 128)
  }

  /** The value and the number of bytes of a remaining length at the head of b. */
  function DecodeLength(b: seq<Byte>): Decoded
    decreases |b|
  {
    if b == [] then Cut
    else if b[0] < 128 then Length(b[0], 1)
    else match DecodeLength(b[1..])
         case Length(v, k) => Length(b[0] - 128 + 128 * v, k + 1)
         case Cut => Cut
  }

  datatype Decoded = Length(value: nat, bytes: nat) | Cut

  lemma {:induction false} LengthRoundTrip(n: nat, rest: seq<Byte>)
    ensures DecodeLength(EncodeLength(n) + rest) == Length(n, |EncodeLength(n)|)
    decreases n
  {
    if n >= 128 {
      LengthRoundTrip(n / 128, rest);
      assert (EncodeLength(n) + rest)[1..] == EncodeLength(n / 128) + rest;
    }
  }

  // ------------------------------------------------------------- reading

  function MessageType(buf: seq<Byte>): int
    requires buf != []
  {
    buf[0] / 16 * 16
  }

  function MessageQos(buf: seq<Byte>): (q: nat)
    requires buf != []
    ensures q < 4
  {
    buf[0] / 2 % 4
  }

  /** mqtt_parse_rem_len: the accumulators are 16 bits wide. */
  method ParseRemLen(buf: array<Byte>) returns (value: nat)
    requires buf.Length > 1 && DecodeLength(buf[1..]).Length?
    ensures value == DecodeLength(buf[1..]).value % WORD
  {
    ghost var total := DecodeLength(buf[1..]).value;
    var multiplier, at := 1, 1;
    value := 0;
    ghost var scale: nat, sum: nat := 1, 0;
    while true
      invariant 1 <= at < buf.Length && DecodeLength(buf[at..]).Length?
      invariant scale >= 1 && total == sum + scale * DecodeLength(buf[at..]).value
      invariant 0 <= multiplier < WORD && multiplier == scale % WORD
      invariant 0 <= value < WORD && value == sum % WORD
      decreases buf.Length - at
    {
      var digit := buf[at];
      assert buf[at..][1..] == buf[at + 1..];
      Accumulate(sum, scale, digit % 128);
      value := (value + digit % 128 * multiplier) % WORD;
      ghost var rest := if digit < 128 then 0 else DecodeLength(buf[at + 1..]).value;
      Scale(scale, digit % 128, rest);
      sum := sum + digit % 128 * scale;
      multiplier := multiplier * 128 % WORD;
      scale := scale * 128;
      at := at + 1;
      if digit < 128 {
        break;
      }
    }
  }

  lemma Accumulate(sum: nat, scale: nat, d: nat)
    ensures (sum % WORD + d * (scale % WORD)) % WORD == (sum + d * scale) % WORD
    ensures scale % WORD * 128 % WORD == scale * 128 % WORD
  {
    var q, r := sum / WORD, scale / WORD;
    assert sum == sum % WORD + q * WORD && scale == scale % WORD + r * WORD;
    assert d * scale == d * (scale % WORD) + d * r * WORD;
    Modulo(sum % WORD + d * (scale % WORD), q + d * r);
    Modulo(scale % WORD * 128, r * 128);
  }

  lemma Modulo(x: nat, k: nat)
    ensures (x + k * WORD) % WORD == x % WORD
  {
  }

  lemma Scale(scale: nat, d: nat, rest: nat)
    ensures scale * (d + 128 * rest) == d * scale + scale * 128 * rest
  {
  }

  lemma OneByteOn(b: seq<Byte>, i: nat)
    requires i < |b| && b[i] >= 128 && DecodeLength(b[i..]).Length?
    ensures i + 1 < |b| && DecodeLength(b[i + 1..]).Length?
    ensures DecodeLength(b[i..]).bytes == DecodeLength(b[i + 1..]).bytes + 1
  {
    assert b[i..][1..] == b[i + 1..];
  }

  lemma LastByte(b: seq<Byte>, i: nat)
    requires i < |b| && b[i] < 128
    ensures DecodeLength(b[i..]) == Length(b[i], 1)
  {
  }

  lemma SomeBytes(b: seq<Byte>)
    requires DecodeLength(b).Length?
    ensures DecodeLength(b).bytes >= 1
  {
  }

  function AtMost4(k: nat): nat {
    if k < 4 then k else 4
  }

  /** mqtt_num_rem_len_bytes: it looks at three bytes at most. */
  method NumRemLenBytes(buf: array<Byte>) returns (num: nat)
    requires buf.Length > 1 && DecodeLength(buf[1..]).Length?
    ensures num == AtMost4(DecodeLength(buf[1..]).bytes)
  {
    hide DecodeLength;
    ghost var b := buf[..];
    assert b[1..] == buf[1..];
    num := 1;
    if buf[1] >= 128 {
      num := num + 1;
      OneByteOn(b, 1);
      if buf[2] >= 128 {
        num := num + 1;
        OneByteOn(b, 2);
        if buf[3] >= 128 {
          num := num + 1;
          OneByteOn(b, 3);
          SomeBytes(b[4..]);
        } else {
          LastByte(b, 3);
        }
      } else {
        LastByte(b, 2);
      }
    } else {
      LastByte(b, 1);
    }
  }

  // ------------------------------------------------------------- publish packets taken apart

  /** A header whose length field and topic length are in the buffer. */
  predicate HasHeader(buf: seq<Byte>) {
    |buf| > 1 && DecodeLength(buf[1..]).Length? && |buf| >= AtMost4(DecodeLength(buf[1..]).bytes) + 3
  }

  /** How many bytes the code takes the length field for. */
  function LengthBytes(buf: seq<Byte>): (k: nat)
    requires HasHeader(buf)
    ensures k <= 4
  {
    AtMost4(DecodeLength(buf[1..]).bytes)
  }

  /** Two bytes as a 16-bit number. */
  function Join(high: int, low: int): int {
    high * 256 + low
  }

  /** A byte shifted left by eight and kept in eight bits. */
  function ShiftedNarrow(b: int): int {
    b * 256 % 256
  }

  function TopicLength(buf: seq<Byte>): nat
    requires HasHeader(buf)
  {
    var rlb := LengthBytes(buf);
    Join(buf[1 + rlb], buf[2 + rlb])
  }

  /** Where the topic ends, in eight bits: the high byte of its length is shifted out. */
  function NarrowOffset(buf: seq<Byte>): nat
    requires HasHeader(buf)
  {
    (buf[2 + LengthBytes(buf)] + LengthBytes(buf) + 3) % 256
  }

  function MsgOffset(buf: seq<Byte>): nat
    requires HasHeader(buf)
  {
    if MessageQos(buf) != 0 then (NarrowOffset(buf) + 2) % 256 else NarrowOffset(buf)
  }

  function MsgLength(buf: seq<Byte>): nat
    requires HasHeader(buf)
  {
    (DecodeLength(buf[1..]).value % WORD - (MsgOffset(buf) - (LengthBytes(buf) + 1))) % WORD
  }

  /** mqtt_parse_pub_topic_ptr; a null pointer is -1. */
  method ParsePubTopicPtr(buf: array<Byte>) returns (len: nat, topic: int)
    requires HasHeader(buf[..])
    ensures MessageType(buf[..]) == PUBLISH ==> len == TopicLength(buf[..]) && topic == LengthBytes(buf[..]) + 3
    ensures MessageType(buf[..]) != PUBLISH ==> len == 0 && topic == -1
  {
    hide DecodeLength;
    assert buf[..][1..] == buf[1..];
    if buf[0] / 16 * 16 == PUBLISH {
      var rlb := NumRemLenBytes(buf);
      len := Join(buf[1 + rlb], buf[1 + rlb + 1]);
      topic := 1 + rlb + 2;
    } else {
      len, topic := 0, -1;
    }
  }

  /** mqtt_parse_pub_msg_ptr */
  method ParsePubMsgPtr(buf: array<Byte>) returns (len: nat, msg: int)
    requires HasHeader(buf[..])
    ensures MessageType(buf[..]) == PUBLISH ==> len == MsgLength(buf[..]) && msg == MsgOffset(buf[..])
    ensures MessageType(buf[..]) != PUBLISH ==> len == 0 && msg == -1
  {
    hide DecodeLength;
    assert buf[..][1..] == buf[1..];
    if buf[0] / 16 * 16 == PUBLISH {
      var rlb := NumRemLenBytes(buf);
      var offset := ShiftedNarrow(buf[1 + rlb]);
      offset := offset + buf[1 + rlb + 1];
      offset := (offset + (1 + rlb + 2)) % 256;
      if buf[0] / 2 % 4 != 0 {
        offset := (offset + 2) % 256;
      }
      msg := offset;
      var remLen := ParseRemLen(buf);
      len := (remLen - (offset - (rlb + 1))) % WORD;
    } else {
      len, msg := 0, -1;
    }
  }

  /** The packet id of the messages that have one. */
  function MsgId(buf: seq<Byte>): nat
    requires HasHeader(buf)
    requires MessageType(buf) == PUBLISH && MessageQos(buf) != 0 ==> NarrowOffset(buf) + 1 < |buf|
  {
    var t := MessageType(buf);
    if t < PUBLISH || t > UNSUBACK then 0
    else if t == PUBLISH then
      if MessageQos(buf) == 0 then 0 else Join(buf[NarrowOffset(buf)], buf[NarrowOffset(buf) + 1])
    else TopicLength(buf)
  }

  /** mqtt_parse_msg_id */
  method ParseMsgId(buf: array<Byte>) returns (id: nat)
    requires HasHeader(buf[..])
    requires MessageType(buf[..]) == PUBLISH && MessageQos(buf[..]) != 0 ==> NarrowOffset(buf[..]) + 1 < buf.Length
    ensures id == MsgId(buf[..])
  {
    hide DecodeLength;
    assert buf[..][1..] == buf[1..];
    var kind, qos := buf[0] / 16 * 16, buf[0] / 2 % 4;
    id := 0;
    if kind >= PUBLISH && kind <= UNSUBACK {
      if kind == PUBLISH {
        if qos != 0 {
          var rlb := NumRemLenBytes(buf);
          var offset := ShiftedNarrow(buf[1 + rlb]);
          offset := offset + buf[1 + rlb + 1];
          offset := (offset + (1 + rlb + 2)) % 256;
          id := Join(buf[offset], buf[offset + 1]);
        }
      } else {
        var rlb := NumRemLenBytes(buf);
        id := Join(buf[1 + rlb], buf[1 + rlb + 1]);
      }
    }
  }

  // ------------------------------------------------------------- publish packets written

  /** A 16-bit number, high byte first. */
  function Big(n: nat): (b: seq<Byte>)
    requires n < WORD
    ensures |b| == 2
  {
    [n / 256, n % 256]
  }

  /** The length field as the code writes it: two bytes at most. */
  function LengthField(n: nat): (f: seq<Byte>)
    requires n < WORD
    ensures |f| == if n <= 127 then 1 else 2
  {
    if n <= 127 then [n] else [n % 128 + 128, n / 128 % 256]
  }

  /** It is the standard's encoding exactly up to 16383. */
  lemma LengthFieldIsStandard(n: nat)
    requires n < WORD
    ensures LengthField(n) == EncodeLength(n) <==> n <= 16383
  {
    if n <= 16383 {
      if n >= 128 { assert EncodeLength(n / 128) == [n / 128]; }
    } else {
      assert |EncodeLength(n / 128)| >= 2;
    }
  }

  /** Other values than 1 and 2 publish with QoS 0. */
  function Level(qos: nat): (q: nat)
    ensures q <= 2
  {
    if qos == 1 || qos == 2 then qos else 0
  }

  function Remaining(topic: seq<Byte>, msg: seq<Byte>, qos: nat): (n: nat)
    ensures n < WORD
  {
    (2 + |topic| + (if Level(qos) > 0 then 2 else 0) + |msg|) % WORD
  }

  function PublishPacket(topic: seq<Byte>, msg: seq<Byte>, retain: bool, qos: nat, id: nat): seq<Byte>
    requires |topic| < WORD && id < WORD
  {
    [PUBLISH + 2 * Level(qos) + (if retain then 1 else 0)]
    + (LengthField(Remaining(topic, msg, qos)) + (Big(|topic|) + (topic + ((if Level(qos) > 0 then Big(id) else []) + msg))))
  }

  class Broker {
    var nextId: nat

    constructor ()
      ensures nextId == 1
    {
      nextId := 1;
    }
  }

  /** memcpy into the packet. */
  method Append(packet: array<Byte>, len: nat, piece: seq<Byte>) returns (end: nat)
    requires len + |piece| <= packet.Length
    modifies packet
    ensures end == len + |piece| && packet[..end] == old(packet[..len]) + piece
  {
    for i := 0 to |piece|
      invariant packet[..len + i] == old(packet[..len]) + piece[..i]
    {
      packet[len + i] := piece[i];
      assert piece[..i + 1] == piece[..i] + [piece[i]];
    }
    assert piece[..|piece|] == piece;
    end := len + |piece|;
  }

  /** The fixed header and the length of the topic. */
  method WriteHeader(packet: array<Byte>, first: Byte, remainLen: nat, topiclen: nat) returns (len: nat)
    requires remainLen < WORD && topiclen < WORD && packet.Length >= 5
    modifies packet
    ensures len == 3 + |LengthField(remainLen)| && packet[..len] == ([first] + LengthField(remainLen)) + Big(topiclen)
  {
    hide Big;
    len := Append(packet, 0, [first]);
    assert packet[..len] == [first];
    len := Append(packet, len, LengthField(remainLen));
    len := Append(packet, len, Big(topiclen));
  }

  /** mqtt_publish_with_qos: the packet handed to send, of which send takes sent bytes. */
  method PublishWithQos(broker: Broker, topic: seq<Byte>, msg: seq<Byte>, retain: bool, qos: nat, sent: int)
    returns (ret: int, packet: seq<Byte>, messageId: nat)
    requires |topic| < WORD && |msg| < WORD && broker.nextId < WORD
    modifies broker
    ensures packet == PublishPacket(topic, msg, retain, qos, old(broker.nextId))
    ensures Level(qos) > 0 ==> messageId == old(broker.nextId) && broker.nextId == (old(broker.nextId) + 1) % WORD
    ensures Level(qos) == 0 ==> broker.nextId == old(broker.nextId)
    ensures ret == if sent < |packet| then -1 else 1
  {
    hide LengthField, Big;
    var topiclen, msglen := |topic|, |msg|;
    var packet_p := new Byte[topiclen + msglen + 20](_ => 0);
    var qos_flag, qos_size := 0, 0;
    if qos == 1 {
      qos_size, qos_flag := 2, 2;
    } else if qos == 2 {
      qos_size, qos_flag := 2, 4;
    }
    var var_header_qos: seq<Byte> := [];
    messageId := 0;
    if qos_size != 0 {
      var_header_qos := Big(broker.nextId);
      messageId := broker.nextId;
      broker.nextId := (broker.nextId + 1) % WORD;
    }
    var remainLen := (2 + topiclen + qos_size + msglen) % WORD;
    var first: Byte := PUBLISH + qos_flag + (if retain then 1 else 0);
    var packet_len := WriteHeader(packet_p, first, remainLen, topiclen);
    packet_len := Append(packet_p, packet_len, topic);
    if qos_size != 0 {
      packet_len := Append(packet_p, packet_len, var_header_qos);
    }
    packet_len := Append(packet_p, packet_len, msg);
    packet := packet_p[..packet_len];
    FromTheLeft([first], LengthField(remainLen), Big(topiclen), topic, var_header_qos, msg);
    ret := if sent < packet_len then -1 else 1;
  }

  lemma FromTheLeft(a: seq<Byte>, b: seq<Byte>, c: seq<Byte>, d: seq<Byte>, e: seq<Byte>, f: seq<Byte>)
    ensures ((((a + b) + c) + d) + e) + f == a + (b + (c + (d + (e + f))))
    ensures e == [] ==> (((a + b) + c) + d) + f == a + (b + (c + (d + (e + f))))
    ensures [] + a == a
  {
    assert (((a + b) + c) + d) + (e + f) == a + (b + (c + (d + (e + f))));
    if e == [] { assert e + f == f; }
  }

  // ------------------------------------------------------------- what was written is what is read

  /** Where six pieces lie that are written one behind another, counted from the second on. */
  lemma Pieces(a: Byte, b: seq<Byte>, c: seq<Byte>, d: seq<Byte>, e: seq<Byte>, f: seq<Byte>)
    ensures var p := [a] + (b + (c + (d + (e + f))));
            && p[0] == a && p[1..] == b + (c + (d + (e + f)))
            && p[1 + |b|..1 + |b| + |c|] == c
            && p[1 + |b| + |c|..1 + |b| + |c| + |d|] == d
            && p[1 + |b| + |c| + |d|..1 + |b| + |c| + |d| + |e|] == e
            && p[1 + |b| + |c| + |d| + |e|..] == f
  {
    var t1, t2, t3 := c + (d + (e + f)), d + (e + f), e + f;
    var p := [a] + (b + t1);
    assert p[1..] == b + t1;
    assert p[1 + |b|..] == t1;
    assert p[1 + |b| + |c|..] == t2;
    assert p[1 + |b| + |c| + |d|..] == t3;
    assert p[1 + |b| + |c| + |d| + |e|..] == f;
  }

  /** The pieces of a publish packet. */
  lemma PacketLayout(topic: seq<Byte>, msg: seq<Byte>, retain: bool, qos: nat, id: nat)
    requires |topic| < WORD && id < WORD && Remaining(topic, msg, qos) <= 16383
    ensures var p, rlb := PublishPacket(topic, msg, retain, qos, id), |LengthField(Remaining(topic, msg, qos))|;
            var q := if Level(qos) > 0 then 2 else 0;
            && |p| == 3 + rlb + |topic| + q + |msg|
            && DecodeLength(p[1..]) == Length(Remaining(topic, msg, qos), rlb)
            && p[1 + rlb] == |topic| / 256 && p[2 + rlb] == |topic| % 256
            && p[rlb + 3..rlb + 3 + |topic|] == topic
            && (q == 2 ==> p[rlb + 3 + |topic|] == id / 256 && p[rlb + 4 + |topic|] == id % 256)
            && p[rlb + 3 + |topic| + q..] == msg
            && p[0] == PUBLISH + 2 * Level(qos) + (if retain then 1 else 0)
  {
    var n := Remaining(topic, msg, qos);
    var p, f := PublishPacket(topic, msg, retain, qos, id), LengthField(n);
    var c, e := Big(|topic|), if Level(qos) > 0 then Big(id) else [];
    LengthFieldIsStandard(n);
    LengthRoundTrip(n, c + (topic + (e + msg)));
    Pieces(p[0], f, c, topic, e, msg);
    assert p[1 + |f|..3 + |f|] == c;
    assert p[1 + |f|] == c[0] && p[2 + |f|] == c[1];
    if Level(qos) > 0 {
      var at := 3 + |f| + |topic|;
      assert p[at..at + 2] == e;
      assert p[at] == e[0] && p[at + 1] == e[1];
    }
  }

  lemma TypeByte(q: nat, r: nat)
    requires q <= 2 && r <= 1
    ensures (PUBLISH + 2 * q + r) / 16 * 16 == PUBLISH && (PUBLISH + 2 * q + r) / 2 % 4 == q
  {
    if q == 0 {} else if q == 1 {} else {}
  }

  predicate SliceIs(p: seq<Byte>, at: nat, s: seq<Byte>) {
    at + |s| <= |p| && p[at..at + |s|] == s
  }

  /** Where the topic ends, and where the message starts. */
  function TopicEnd(topic: seq<Byte>, msg: seq<Byte>, qos: nat): nat {
    |LengthField(Remaining(topic, msg, qos))| + 3 + |topic|
  }

  function IdBytes(qos: nat): nat {
    if Level(qos) > 0 then 2 else 0
  }

  predicate TwoByteLength(topic: seq<Byte>, msg: seq<Byte>, qos: nat) {
    |topic| < WORD && 2 + |topic| + IdBytes(qos) + |msg| <= 16383
  }

  lemma NarrowSum(n: nat, k: nat)
    ensures (n % 256 + k) % 256 == (k + n) % 256
  {
  }

  lemma PublishFacts(topic: seq<Byte>, msg: seq<Byte>, retain: bool, qos: nat, id: nat)
    requires TwoByteLength(topic, msg, qos) && id < WORD
    ensures var p := PublishPacket(topic, msg, retain, qos, id);
            && HasHeader(p) && MessageType(p) == PUBLISH && MessageQos(p) == Level(qos)
            && LengthBytes(p) == |LengthField(Remaining(topic, msg, qos))|
            && TopicLength(p) == |topic| && SliceIs(p, LengthBytes(p) + 3, topic)
            && NarrowOffset(p) == TopicEnd(topic, msg, qos) % 256
            && DecodeLength(p[1..]).value == 2 + |topic| + IdBytes(qos) + |msg|
            && SliceIs(p, TopicEnd(topic, msg, qos) + IdBytes(qos), msg)
            && (IdBytes(qos) == 2 ==> SliceIs(p, TopicEnd(topic, msg, qos), Big(id)))
  {
    hide DecodeLength, PublishPacket, LengthField;
    PacketLayout(topic, msg, retain, qos, id);
    TypeByte(Level(qos), if retain then 1 else 0);
    NarrowSum(|topic|, |LengthField(Remaining(topic, msg, qos))| + 3);
    var p := PublishPacket(topic, msg, retain, qos, id);
    var start := TopicEnd(topic, msg, qos) + IdBytes(qos);
    assert p[start..start + |msg|] == p[start..];
  }

  /** The topic always comes back. The offset of what follows it has eight bits, and so the message
      is looked for in its place exactly when it starts within the first 256 bytes, and the id
      exactly when the topic ends within them. */
  lemma PublishRoundTrip(topic: seq<Byte>, msg: seq<Byte>, retain: bool, qos: nat, id: nat)
    requires TwoByteLength(topic, msg, qos) && id < WORD
    ensures var p, start := PublishPacket(topic, msg, retain, qos, id), TopicEnd(topic, msg, qos) + IdBytes(qos);
            && HasHeader(p) && MessageType(p) == PUBLISH && MessageQos(p) == Level(qos)
            && TopicLength(p) == |topic| && SliceIs(p, LengthBytes(p) + 3, topic)
            && SliceIs(p, start, msg)
            && (MsgOffset(p) == start <==> start < 256)
            && (start < 256 ==> MsgLength(p) == |msg|)
            && (NarrowOffset(p) == TopicEnd(topic, msg, qos) <==> TopicEnd(topic, msg, qos) < 256)
            && (TopicEnd(topic, msg, qos) < 256 && Level(qos) > 0 ==> NarrowOffset(p) + 1 < |p| && MsgId(p) == id)
  {
    hide DecodeLength, PublishPacket, LengthField, NarrowOffset, TopicLength;
    PublishFacts(topic, msg, retain, qos, id);
    var p, start := PublishPacket(topic, msg, retain, qos, id), TopicEnd(topic, msg, qos) + IdBytes(qos);
    if TopicEnd(topic, msg, qos) < 256 && Level(qos) > 0 {
      var at := TopicEnd(topic, msg, qos);
      assert p[at] == p[at..at + 2][0] && p[at + 1] == p[at..at + 2][1];
    }
  }

  /** For the topics the subscription interface admits, everything comes back. */
  lemma ShortTopicRoundTrip(topic: seq<Byte>, msg: seq<Byte>, retain: bool, qos: nat, id: nat)
    requires |topic| <= 64 && TwoByteLength(topic, msg, qos) && id < WORD
    ensures var p := PublishPacket(topic, msg, retain, qos, id);
            && HasHeader(p) && MsgLength(p) == |msg| && SliceIs(p, MsgOffset(p), msg)
            && (Level(qos) > 0 ==> NarrowOffset(p) + 1 < |p| && MsgId(p) == id)
            && TopicLength(p) == |topic| && SliceIs(p, LengthBytes(p) + 3, topic)
  {
    hide DecodeLength, PublishPacket, LengthField, NarrowOffset, TopicLength, MsgOffset, MsgLength;
    PublishRoundTrip(topic, msg, retain, qos, id);
    ShortField(topic, msg, qos);
    NarrowFits(topic, msg, retain, qos, id);
  }

  lemma ShortField(topic: seq<Byte>, msg: seq<Byte>, qos: nat)
    ensures |LengthField(Remaining(topic, msg, qos))| <= 2
  {
  }

  lemma NarrowFits(topic: seq<Byte>, msg: seq<Byte>, retain: bool, qos: nat, id: nat)
    requires |topic| <= 64 && TwoByteLength(topic, msg, qos) && id < WORD
    ensures var p := PublishPacket(topic, msg, retain, qos, id);
            HasHeader(p) && (Level(qos) > 0 ==> NarrowOffset(p) + 1 < |p|)
  {
    hide DecodeLength, PublishPacket, LengthField, NarrowOffset;
    PublishFacts(topic, msg, retain, qos, id);
    ShortField(topic, msg, qos);
  }

  // ------------------------------------------------------------- subscribing

  function SubscribePacket(topic: seq<Byte>, id: nat): seq<Byte>
    requires |topic| <= 121 && id < WORD
  {
    [SUBSCRIBE + 2, 5 + |topic|] + (Big(id) + (Big(|topic|) + (topic + [2])))
  }

  lemma SubscribePieces(topic: seq<Byte>, id: nat)
    requires |topic| <= 121 && id < WORD
    ensures (([] + [SUBSCRIBE + 2, 5 + |topic|] + Big(id)) + Big(|topic|) + topic) + [2] == SubscribePacket(topic, id)
  {
    hide Big;
    FromTheLeft([SUBSCRIBE + 2, 5 + |topic|], Big(id), Big(|topic|), topic, [], [2]);
  }

  /** mqtt_subscribe: the packet buffer holds 128 bytes. */
  method Subscribe(broker: Broker, topic: seq<Byte>, sent: int) returns (ret: int, packet: seq<Byte>, messageId: nat)
    requires |topic| <= 121 && broker.nextId < WORD
    modifies broker
    ensures packet == SubscribePacket(topic, old(broker.nextId)) && messageId == old(broker.nextId)
    ensures broker.nextId == (old(broker.nextId) + 1) % WORD
    ensures ret == if sent < |packet| then -1 else 1
  {
    hide Big, SubscribePacket;
    var topiclen := |topic|;
    messageId := broker.nextId;
    var var_header := Big(broker.nextId);
    broker.nextId := (broker.nextId + 1) % WORD;
    var buffer := new Byte[128](_ => 0);
    var len := Append(buffer, 0, [SUBSCRIBE + 2, (2 + 2 + topiclen + 1) % 256]);
    len := Append(buffer, len, var_header);
    len := Append(buffer, len, Big(topiclen));
    len := Append(buffer, len, topic);
    len := Append(buffer, len, [2]);
    packet := buffer[..len];
    SubscribePieces(topic, messageId);
    ret := if sent < len then -1 else 1;
  }

  /** By section 3.8 of the standard the packet asks for the topic under its id; the flag used
      for the requested level is the one for the fixed header, and so it asks for level 2. */
  lemma SubscribeRoundTrip(topic: seq<Byte>, id: nat)
    requires |topic| <= 121 && id < WORD
    ensures var p := SubscribePacket(topic, id);
            && p[0] == SUBSCRIBE + 2 && DecodeLength(p[1..]) == Length(|p| - 2, 1)
            && SliceIs(p, 2, Big(id)) && SliceIs(p, 4, Big(|topic|)) && SliceIs(p, 6, topic)
            && p[|p| - 1] == 2 && |p| == 7 + |topic|
  {
    var p := SubscribePacket(topic, id);
    assert p[1..][0] == 5 + |topic|;
  }

  /** The topic a/b and the message hi, at level 1 with id 10; and the subscription to a/b. */
  lemma PacketsWritten()
    ensures PublishPacket([0x61, 0x2f, 0x62], [0x68, 0x69], false, 1, 10) ==
            [0x32, 9, 0, 3, 0x61, 0x2f, 0x62, 0, 10, 0x68, 0x69]
    ensures SubscribePacket([0x61, 0x2f, 0x62], 10) == [0x82, 8, 0, 10, 0, 3, 0x61, 0x2f, 0x62, 2]
  {
  }

  /** An acknowledgement that echoes an id is read as that id. */
  lemma AckId(kind: int, id: nat, rest: seq<Byte>)
    requires kind in {PUBACK, SUBACK, UNSUBACK} && id < WORD && 2 + |rest| < 128
    ensures var p := [kind, 2 + |rest|] + (Big(id) + rest);
            HasHeader(p) && MessageType(p) == kind && MsgId(p) == id
  {
    var p: seq<Byte> := [kind, 2 + |rest|] + (Big(id) + rest);
    assert p[1..][0] == 2 + |rest|;
    assert p[2] == id / 256 && p[3] == id % 256;
  }
}
