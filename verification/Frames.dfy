/**
  Every control packet as bytes, and exactly which frames the decoder takes for which packet: a frame is
  decoded to a packet if and only if the packet is a legal one and the frame is its encoding.
 */
module Frames {
  import opened Basics
  import opened FixedHeader
  import opened TopicFilter
  import opened Packets
  import opened PacketLaws
  import opened PacketBytes
  import opened Codec

  // ---------------------------------------------------------------- packets as bytes

  /** A packet with nothing but an identifier. */
  predicate IsAckKind(kind: byte) {
    kind == PUBACK || kind == PUBREC || kind == PUBREL || kind == PUBCOMP || kind == UNSUBACK
  }

  predicate Legal(p: Packet) {
    match p
    case PConnect(c) => SendableConnect(c)
    case PConnack(_, code) => code < 6
    case PPublish(q) => Sendable(q)
    case PAck(kind, _) => IsAckKind(kind)
    case PSubscribe(q) => q.items != [] && forall i :: 0 <= i < |q.items| ==> DecodableItem(q.items[i])
    case PSuback(q) => forall c :: c in q.codes ==> ReturnCode(c)
    case PUnsubscribe(q) => q.filters != [] && forall i :: 0 <= i < |q.filters| ==> DecodableNamed(q.filters[i])
    case PEmpty(kind) => kind == PINGREQ || kind == PINGRESP || kind == DISCONNECT
  }

  /** What follows the fixed header. */
  function Body(p: Packet): Str
    requires Legal(p)
  {
    match p
    case PConnect(c) => ConnectBody(c)
    case PConnack(present, code) => [if present then 1 else 0, code]
    case PPublish(q) => PublishBody(q)
    case PAck(_, id) => Uint16Bytes(id)
    case PSubscribe(q) => Uint16Bytes(q.packetId) + ItemsBytes(q.items)
    case PSuback(q) => Uint16Bytes(q.packetId) + q.codes
    case PUnsubscribe(q) => UnsubscribeBody(q)
    case PEmpty(_) => []
  }

  /** Type and flags (section 2.2 of MQTT 3.1.1). */
  function FirstByte(p: Packet): byte
    requires Legal(p)
  {
    match p
    case PConnect(_) => 0x10
    case PConnack(_, _) => 0x20
    case PPublish(q) => 0x30 + q.flags
    case PAck(kind, _) =>
      if kind == PUBACK then 0x40 else if kind == PUBREC then 0x50 else if kind == PUBREL then 0x62
      else if kind == PUBCOMP then 0x70 else 0xB0
    case PSubscribe(_) => 0x82
    case PSuback(_) => 0x90
    case PUnsubscribe(_) => 0xA2
    case PEmpty(kind) => if kind == PINGREQ then 0xC0 else if kind == PINGRESP then 0xD0 else 0xE0
  }

  function HeaderFor(p: Packet): Header
    requires Legal(p)
  {
    Header(FirstByte(p) / 16, FirstByte(p) % 16, |Body(p)|)
  }

  /** The whole packet, with the shortest remaining length. */
  function Encode(p: Packet): Str
    requires Legal(p)
  {
    [FirstByte(p)] + (RemainingLengthBytes(|Body(p)|) + Body(p))
  }

  // ---------------------------------------------------------------- what is encoded is decoded

  lemma FirstByteOk(p: Packet)
    requires Legal(p)
    ensures var h := HeaderFor(p);
      CONNECT <= h.kind <= DISCONNECT && FlagsOk(h.kind, h.flags) && h.kind * 16 + h.flags == FirstByte(p)
  {
    if p.PPublish? { FlagBitsRoundTrip(p.publish.dup, p.publish.qos, p.publish.retain); }
  }

  lemma ConnackDecodes(present: bool, code: byte)
    requires code < 6
    ensures ConnackOf([if present then 1 else 0, code]) == Ok((present, code), [])
  {
    var bs: Str := [if present then 1 else 0, code];
    assert bs[1..] == [code] && [code][1..] == [];
  }

  lemma BodyDecodes(p: Packet)
    requires Legal(p)
    ensures BodyOf(HeaderFor(p), Body(p)) == Ok(p, [])
  {
    var body := Body(p);
    assert body + [] == body;
    FirstByteOk(p);
    match p
    case PConnect(c) => ConnectRoundTrip(c, []);
    case PConnack(present, code) => ConnackDecodes(present, code);
    case PPublish(q) => PublishDecodes(q);
    case PAck(_, id) => WordOfBytes(id, []);
    case PSubscribe(q) => SubscribeDecodes(q);
    case PSuback(q) => SubackRoundTrip(q, []);
    case PUnsubscribe(q) => UnsubscribeDecodes(q);
    case PEmpty(_) =>
  }

  lemma PublishDecodes(q: Publish)
    requires Sendable(q)
    ensures HeaderFor(PPublish(q)) == PublishHeader(q) && PublishOf(PublishHeader(q), PublishBody(q)) == Ok(q, [])
  {
    FlagBitsRoundTrip(q.dup, q.qos, q.retain);
    PublishBodyLength(q);
    PublishBodyRoundTrip(q, []);
    assert PublishBody(q) + [] == PublishBody(q);
  }

  lemma SubscribeDecodes(q: Subscribe)
    requires Legal(PSubscribe(q))
    ensures SubscribeOf(HeaderFor(PSubscribe(q)), Body(PSubscribe(q))) == Ok(q, [])
  {
    ItemsBytesLength(q.items);
    SubscribeRoundTrip(q, []);
    assert Body(PSubscribe(q)) + [] == Body(PSubscribe(q));
  }

  lemma UnsubscribeDecodes(q: Unsubscribe)
    requires Legal(PUnsubscribe(q))
    ensures UnsubscribeOf(HeaderFor(PUnsubscribe(q)), UnsubscribeBody(q)) == Ok(q, [])
  {
    NamesBytesLength(q.filters);
    UnsubscribeRoundTrip(q, []);
    assert UnsubscribeBody(q) + [] == UnsubscribeBody(q);
  }

  lemma HeaderThenBody(b: byte, body: Str)
    ensures [b] + (RemainingLengthBytes(|body|) + body) == HeaderBytes(Header(b / 16, b % 16, |body|)) + body
  {
    Assoc([b], RemainingLengthBytes(|body|), body);
  }

  /** The serializers write the fixed header and then the body: the same bytes. */
  lemma EncodeInParts(p: Packet)
    requires Legal(p)
    ensures HeaderFor(p).kind < 16 && HeaderFor(p).flags < 16 && Encode(p) == HeaderBytes(HeaderFor(p)) + Body(p)
  {
    HeaderThenBody(FirstByte(p), Body(p));
  }

  /** Every legal packet, of whatever type, is a frame when it is encoded, if it is not too long. */
  lemma EncodeIsFrame(p: Packet)
    requires Legal(p) && |Body(p)| <= 2_097_151
    ensures IsFrame(Encode(p), p)
  {
    FirstByteOk(p);
    BodyDecodes(p);
    EncodeInParts(p);
    FrameOf(HeaderFor(p), Body(p), p);
  }

  // ---------------------------------------------------------------- and nothing else

  /** p is legal, and these are its type, flags and bytes. */
  predicate IsEncoding(h: Header, bs: Str, p: Packet) {
    Legal(p) && h == HeaderFor(p) && bs == Body(p)
  }

  /** Which constructor a packet came from. */
  lemma BodyIs(h: Header, bs: Str, p: Packet)
    requires CONNECT <= h.kind <= DISCONNECT && BodyOf(h, bs) == Ok(p, [])
    ensures match p
      case PConnect(c) => h.kind == CONNECT && ConnectOf(bs) == Ok(c, [])
      case PConnack(present, code) => h.kind == CONNACK && ConnackOf(bs) == Ok((present, code), [])
      case PPublish(q) => h.kind == PUBLISH && PublishOf(h, bs) == Ok(q, [])
      case PAck(kind, id) => h.kind == kind && IsAckKind(kind) && Uint16(bs) == Ok(id, [])
      case PSubscribe(q) => h.kind == SUBSCRIBE && SubscribeOf(h, bs) == Ok(q, [])
      case PSuback(q) => h.kind == SUBACK && SubackOf(h, bs) == Ok(q, [])
      case PUnsubscribe(q) => h.kind == UNSUBSCRIBE && UnsubscribeOf(h, bs) == Ok(q, [])
      case PEmpty(kind) => h.kind == kind && Legal(p) && bs == []
  {
  }

  lemma ConnectTaken(h: Header, bs: Str, c: Connect)
    requires h.kind == CONNECT && h.flags == 0 && |bs| == h.remaining && ConnectOf(bs) == Ok(c, [])
    requires SendableConnect(c) ==> |ConnectBody(c)| == |bs|
    ensures IsEncoding(h, bs, PConnect(c))
  {
    ConnectWhole(bs);
  }

  lemma PublishTaken(h: Header, bs: Str, q: Publish)
    requires h.kind == PUBLISH && h.flags < 16 && |bs| == h.remaining <= 2_097_151 && PublishOf(h, bs) == Ok(q, [])
    ensures IsEncoding(h, bs, PPublish(q))
  {
    PublishOnly(h, bs);
  }

  lemma SubscribeTaken(h: Header, bs: Str, q: Subscribe)
    requires h.kind == SUBSCRIBE && h.flags == 2 && |bs| == h.remaining && SubscribeOf(h, bs) == Ok(q, [])
    ensures IsEncoding(h, bs, PSubscribe(q))
  {
    SubscribeOnly(h, bs);
  }

  lemma SubackTaken(h: Header, bs: Str, q: Suback)
    requires h.kind == SUBACK && h.flags == 0 && |bs| == h.remaining && SubackOf(h, bs) == Ok(q, [])
    ensures IsEncoding(h, bs, PSuback(q))
  {
    WordOnly(bs);
    CodesOnly(bs[2..], h.remaining - 2);
    assert q.codes + [] == q.codes;
  }

  lemma UnsubscribeTaken(h: Header, bs: Str, q: Unsubscribe)
    requires h.kind == UNSUBSCRIBE && h.flags == 2 && |bs| == h.remaining && UnsubscribeOf(h, bs) == Ok(q, [])
    ensures IsEncoding(h, bs, PUnsubscribe(q))
  {
    UnsubscribeOnly(h, bs);
  }

  lemma AckTaken(h: Header, bs: Str, kind: byte, id: uint16)
    requires h.kind == kind && IsAckKind(kind) && FlagsOk(kind, h.flags) && |bs| == h.remaining
    requires Uint16(bs) == Ok(id, [])
    ensures IsEncoding(h, bs, PAck(kind, id))
  {
    WordOnly(bs);
  }

  lemma ConnackTaken(h: Header, bs: Str, present: bool, code: byte)
    requires h.kind == CONNACK && h.flags == 0 && |bs| == h.remaining && ConnackOf(bs) == Ok((present, code), [])
    ensures IsEncoding(h, bs, PConnack(present, code))
  {
    assert bs == [bs[0], bs[1]];
  }

  lemma TakenIsEncoding(h: Header, bs: Str, p: Packet)
    requires CONNECT <= h.kind <= DISCONNECT && h.flags < 16 && FlagsOk(h.kind, h.flags)
    requires |bs| == h.remaining <= 2_097_151 && BodyOf(h, bs) == Ok(p, [])
    requires p.PConnect? && Legal(p) ==> |Body(p)| == |bs|
    ensures IsEncoding(h, bs, p)
  {
    BodyIs(h, bs, p);
    match p
    case PConnect(c) => ConnectTaken(h, bs, c);
    case PConnack(present, code) => ConnackTaken(h, bs, present, code);
    case PPublish(q) => PublishTaken(h, bs, q);
    case PAck(kind, id) => AckTaken(h, bs, kind, id);
    case PSubscribe(q) => SubscribeTaken(h, bs, q);
    case PSuback(q) => SubackTaken(h, bs, q);
    case PUnsubscribe(q) => UnsubscribeTaken(h, bs, q);
    case PEmpty(_) =>
  }

  /** Main result on decoding: a frame is taken for a packet if and only if the packet is legal and the frame
      holds exactly its type, flags and bytes. For a CONNECT the second half is asked for, because one whose
      strings hold bytes of 0xF8 or above is taken too, without them. */
  lemma FrameIff(f: Str, p: Packet)
    requires HeaderOf(f).Ok?
    requires p.PConnect? && Legal(p) ==> |Body(p)| == HeaderOf(f).value.remaining
    ensures IsFrame(f, p) <==> IsEncoding(HeaderOf(f).value, HeaderOf(f).rest, p)
  {
    var h, bs := HeaderOf(f).value, HeaderOf(f).rest;
    HeaderLimits(f);
    if IsFrame(f, p) {
      TakenIsEncoding(h, bs, p);
    }
    if IsEncoding(h, bs, p) {
      FirstByteOk(p);
      BodyDecodes(p);
    }
  }
}
