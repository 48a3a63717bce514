/** Whatever the decoder yields is an event the broker's invariant allows for. */
module BrokerInput {
  import opened Basics
  import opened FixedHeader
  import opened TopicFilter
  import opened Packets
  import opened Codec
  import opened Frames
  import opened Broker

  lemma StringLimit(bs: Str)
    requires StringOf(bs).Ok?
    ensures |StringOf(bs).value| < 0x1_0000 && Readable(StringOf(bs).value)
  {
    StringConsume(bs);
    CharsAreReadable(Uint16(bs).rest, Uint16(bs).value);
  }

  /** A decoded PUBLISH is exactly as long as its header said. */
  lemma PublishDecoded(h: Header, bs: Str)
    requires PublishOf(h, bs).Ok?
    ensures var p := PublishOf(h, bs).value;
      PublishLength(p) == h.remaining && p.qos <= 2 && |p.topic| < 0x1_0000 && PublishableTopic(p.topic)
        && Readable(p.topic)
  {
    StringLimit(bs);
  }

  lemma {:induction false} ItemsDecoded(bs: Str, remain: int)
    requires ItemsOf(bs, remain).Ok?
    ensures |ItemsOf(bs, remain).value| <= if remain > 0 then remain else 0
    ensures forall i :: 0 <= i < |ItemsOf(bs, remain).value| ==> Decoded(ItemsOf(bs, remain).value[i])
    decreases remain
  {
    if remain > 0 {
      var item, r := ItemOf(bs).value, ItemOf(bs).rest;
      ItemsStep(bs, remain, item, r);
      ItemsDecoded(r, remain - ItemLength(item));
    }
  }

  lemma {:induction false} FiltersDecoded(bs: Str, remain: int)
    requires FiltersOf(bs, remain).Ok?
    ensures forall i :: 0 <= i < |FiltersOf(bs, remain).value| ==>
      FiltersOf(bs, remain).value[i].wild == HasWildcard(FiltersOf(bs, remain).value[i].filter)
    decreases remain
  {
    if remain > 0 {
      var n, r := NamedOf(bs).value, NamedOf(bs).rest;
      FiltersStep(bs, remain, n, r);
      assert n.wild == HasWildcard(n.filter);
      FiltersDecoded(r, remain - NamedLength(n));
    }
  }

  lemma WillDecoded(qos: byte, retain: bool, bs: Str)
    requires qos <= 2 && WillOf(qos, retain, bs).Ok?
    ensures WillFits(WillOf(qos, retain, bs).value)
  {
    StringLimit(bs);
  }

  lemma PayloadDecoded(bs: Str, flags: byte)
    requires (flags / 8) % 4 < 3 && ConnectPayloadOf(bs, flags).Ok? && ConnectPayloadOf(bs, flags).value.will.Some?
    ensures WillFits(ConnectPayloadOf(bs, flags).value.will.value)
  {
    var r1 := StringOf(bs).rest;
    assert WillOf((flags / 8) % 4, Bit(flags, 0x20), r1).Ok?;
    WillDecoded((flags / 8) % 4, Bit(flags, 0x20), r1);
  }

  lemma ConnectDecoded(bs: Str)
    requires ConnectOf(bs).Ok? && ConnectOf(bs).value.will.Some?
    ensures WillFits(ConnectOf(bs).value.will.value)
  {
    var flags := Uint8(Uint8(StringOf(bs).rest).rest);
    PayloadDecoded(Uint16(flags.rest).rest, flags.value);
  }

  /** The event a packet from a channel gives rise to; `login` is what authentication makes of a CONNECT. */
  function EventOf(ch: Channel, p: Packet, login: Login): Option<Event> {
    match p
    case PConnect(c) => Some(Connecting(ch, login.(id := c.clientId, clean := c.clean, will := c.will)))
    case PPublish(q) => Some(Publishing(ch, q))
    case PSubscribe(q) => Some(Subscribing(ch, q.packetId, q.items))
    case PUnsubscribe(q) => Some(Unsubscribing(ch, q.packetId, q.filters))
    case PAck(kind, id) =>
      if kind == PUBACK then Some(Acked(ch, id)) else if kind == PUBREC then Some(GotPubrec(ch, id))
      else if kind == PUBREL then Some(Released(ch, id)) else if kind == PUBCOMP then Some(Completed(ch, id)) else None
    case PEmpty(kind) => if kind == DISCONNECT then Some(Disconnecting(ch)) else None
    case _ => None
  }

  /** What the broker relies on in a packet. */
  predicate Welcome(p: Packet) {
    match p
    case PConnect(c) => c.will.Some? ==> WillFits(c.will.value)
    case PPublish(q) => Fits(q) && PublishableTopic(q.topic)
    case PSubscribe(q) => |q.items| <= 2_097_149 && forall i :: 0 <= i < |q.items| ==> Decoded(q.items[i])
    case PUnsubscribe(q) => forall i :: 0 <= i < |q.filters| ==> q.filters[i].wild == HasWildcard(q.filters[i].filter)
    case _ => true
  }

  lemma SubscribeDecoded(h: Header, bs: Str)
    requires SubscribeOf(h, bs).Ok? && h.remaining <= 2_097_151
    ensures Welcome(PSubscribe(SubscribeOf(h, bs).value))
  {
    ItemsDecoded(Uint16(bs).rest, h.remaining - 2);
  }

  lemma UnsubscribeDecoded(h: Header, bs: Str)
    requires UnsubscribeOf(h, bs).Ok?
    ensures Welcome(PUnsubscribe(UnsubscribeOf(h, bs).value))
  {
    FiltersDecoded(Uint16(bs).rest, h.remaining - 2);
  }

  lemma BodyWelcome(h: Header, bs: Str)
    requires CONNECT <= h.kind <= DISCONNECT && BodyOf(h, bs).Ok? && h.remaining <= 2_097_151
    ensures Welcome(BodyOf(h, bs).value)
  {
    if h.kind == CONNECT { if ConnectOf(bs).value.will.Some? { ConnectDecoded(bs); } }
    else if h.kind == PUBLISH { PublishDecoded(h, bs); }
    else if h.kind == SUBSCRIBE { SubscribeDecoded(h, bs); }
    else if h.kind == UNSUBSCRIBE { UnsubscribeDecoded(h, bs); }
  }

  lemma ReadWelcome(bs: Str)
    requires Read(bs).Got?
    ensures Welcome(Read(bs).packet)
  {
    HeaderLimits(bs);
    BodyWelcome(HeaderOf(bs).value, HeaderOf(bs).rest);
  }

  /** From bytes to the invariant: whatever bytes a client sends, the decoder only yields packets whose
      handling is covered; of a CONNECT nothing is asked but that it is the channel's first and has an id. */
  lemma DecodedIsPossible(s: Server, ch: Channel, bs: Str, login: Login)
    requires Read(bs).Got? && EventOf(ch, Read(bs).packet, login).Some?
    requires Read(bs).packet.PConnect? ==> ch !in s.seen && Read(bs).packet.connect.clientId != []
    requires login.code <= 5
    ensures Possible(s, EventOf(ch, Read(bs).packet, login).value)
  {
    ReadWelcome(bs);
  }

  /** Which handler the bytes of a packet lead to, by the type in their first four bits, and with what; the
      packets a server sends lead to none. */
  lemma BytesToEvent(ch: Channel, p: Packet, login: Login)
    requires Frames.Legal(p) && |Body(p)| <= 2_097_151
    ensures var bs := Encode(p);
      Read(bs) == Got(p, []) && var e := EventOf(ch, p, login);
        match bs[0] / 16
        case 1 => p.PConnect? && var c := p.connect;
          e == Some(Connecting(ch, Login(c.clientId, c.clean, c.will, login.admin, login.code, login.generated)))
        case 3 => p.PPublish? && e == Some(Publishing(ch, p.publish))
        case 4 => p.PAck? && e == Some(Acked(ch, p.packetId))
        case 5 => p.PAck? && e == Some(GotPubrec(ch, p.packetId))
        case 6 => p.PAck? && e == Some(Released(ch, p.packetId))
        case 7 => p.PAck? && e == Some(Completed(ch, p.packetId))
        case 8 => p.PSubscribe? && e == Some(Subscribing(ch, p.subscribe.packetId, p.subscribe.items))
        case 10 => p.PUnsubscribe? && e == Some(Unsubscribing(ch, p.unsubscribe.packetId, p.unsubscribe.filters))
        case 14 => e == Some(Disconnecting(ch))
        case _ => e == None
  {
    EncodeIsFrame(p);
    FirstByteOk(p);
  }
}
