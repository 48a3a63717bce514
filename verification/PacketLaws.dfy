/** Round trips of the packets the broker serializes, and stability of every decode under later bytes. */
module PacketLaws {
  import opened Basics
  import opened FixedHeader
  import opened TopicFilter
  import opened Packets

  // ---------------------------------------------------------------- PUBLISH

  /** A PUBLISH the decoder would accept: what a conforming peer and the building constructor give. */
  predicate Sendable(p: Publish) {
    && p.qos <= 2 && p.flags == FlagBits(p.dup, p.qos, p.retain) && (p.qos == 0 ==> !p.dup && p.packetId == 0)
    && PublishableTopic(p.topic) && Readable(p.topic) && |p.topic| < 0x1_0000
    && PublishLength(p) <= 2_097_151
  }

  /** Everything the serializer of a packet writes: the fixed header, then exactly `remaining` bytes. */
  lemma HeaderRoundTrip(h: Header, rest: Str)
    requires h.kind < 16 && h.flags < 16 && FlagsOk(h.kind, h.flags) && h.remaining <= 2_097_151
    ensures HeaderOf(HeaderBytes(h) + rest) == Ok(h, rest)
  {
    var b := h.kind * 16 + h.flags;
    Assoc([b], RemainingLengthBytes(h.remaining), rest);
    RemainingLengthAccepted(h.remaining, rest);
    HeaderCons(b, RemainingLengthBytes(h.remaining) + rest);
  }

  /** Exactly the topics a client may publish to: not empty, not starting with '$', and without '#' and '+'. */
  lemma TopicsOfClients(t: Str)
    ensures PublishableTopic(t) <==>
      t != [] && t[0] != 0x24 && forall i :: 0 <= i < |t| ==> t[i] != 0x23 && t[i] != 0x2B
  {
    HasWildcardMeans(t);
  }

  lemma PublishBodyLength(p: Publish)
    ensures |PublishBody(p)| == PublishLength(p)
  {
  }

  lemma PublishBodyRoundTrip(p: Publish, rest: Str)
    requires Sendable(p)
    ensures PublishOf(PublishHeader(p), PublishBody(p) + rest) == Ok(p, rest)
  {
    PublishTopicRoundTrip(p, rest);
    FlagBitsRoundTrip(p.dup, p.qos, p.retain);
    var tail := p.payload + rest;
    if p.qos > 0 {
      WordOfBytes(p.packetId, tail);
    } else {
      assert IdBytes(p) + tail == tail;
    }
    PayloadRoundTrip(p, rest);
  }

  lemma FlagBitsRoundTrip(dup: bool, qos: byte, retain: bool)
    requires qos <= 3
    ensures var f := FlagBits(dup, qos, retain);
      ((f / 8) % 2 != 0) == dup && (f / 2) % 4 == qos && (f % 2 != 0) == retain && f < 16
  {
  }

  lemma PublishTopicRoundTrip(p: Publish, rest: Str)
    requires Readable(p.topic) && |p.topic| < 0x1_0000
    ensures StringOf(PublishBody(p) + rest) == Ok(p.topic, IdBytes(p) + (p.payload + rest))
  {
    var id := IdBytes(p);
    Assoc(StringBytes(p.topic), id + p.payload, rest);
    Assoc(id, p.payload, rest);
    StringRoundTrip(p.topic, id + (p.payload + rest));
  }

  lemma PayloadRoundTrip(p: Publish, rest: Str)
    ensures PublishPayload(p.(payload := []), PublishLength(p), p.payload + rest) == Ok(p, rest)
  {
    var bs := p.payload + rest;
    assert bs[..|p.payload|] == p.payload && bs[|p.payload|..] == rest;
  }

  /** Exactly which arguments the building constructor makes a packet of that a receiver can decode: its own
      tests do not look at the topic, at DUP, or at the size a receiver takes. */
  lemma MakePublishIsSendable(dup: bool, qos: byte, retain: bool, topic: Str, id: uint16, payload: Str)
    requires qos <= 3
    ensures var p := MakePublish(dup, qos, retain, topic, id, payload);
      p.Some? && Sendable(p.value) <==>
        && qos <= 2 && (qos == 0 ==> !dup) && PublishableTopic(topic) && Readable(topic) && |topic| < 0x1_0000
        && |topic| + 2 + (if qos == 0 then 0 else 2) + |payload| <= 2_097_151
    ensures MakePublish(dup, qos, retain, topic, id, payload).None? <==>
      qos == 3 || |topic| + 2 + (if qos == 0 then 0 else 2) + |payload| > 268_435_455
    ensures var p := MakePublish(dup, qos, retain, topic, id, payload);
      p.Some? ==> p.value.qos == qos && p.value.topic == topic && p.value.payload == payload
  {
  }

  /** Setting the `dup` field, once or again, never reaches the wire: the flags were computed for DUP = 0. */
  lemma DupIsNotSent(p: Publish, rest: Str)
    requires Sendable(p.(dup := false))
    ensures PublishHeader(p) == PublishHeader(p.(dup := false))
    ensures PublishOf(PublishHeader(p), PublishBody(p) + rest) == Ok(p.(dup := false), rest)
  {
    PublishBodyRoundTrip(p.(dup := false), rest);
  }

  // ---------------------------------------------------------------- SUBSCRIBE

  /** A filter the decoder returns: with its QoS if it is valid, and marked as a failure if it is not. */
  predicate DecodableItem(i: Item) {
    && i.filter != [] && Readable(i.filter) && |i.filter| < 0x1_0000
    && if Valid(i.filter) then i.qos < QOS_INVALID && i.wild == HasWildcard(i.filter) else i.qos == FAILURE && !i.wild
  }

  lemma ItemRoundTrip(i: Item, rest: Str)
    requires DecodableItem(i)
    ensures ItemOf(ItemBytes(i) + rest) == Ok(i, rest)
  {
    if i.qos == FAILURE {
      StringRoundTrip(i.filter, rest);
      assert ItemBytes(i) == StringBytes(i.filter);
    } else {
      StringRoundTrip(i.filter, [i.qos] + rest);
      Assoc(StringBytes(i.filter), [i.qos], rest);
      assert ([i.qos] + rest)[1..] == rest;
    }
  }

  /** One item in front of bytes that decode to the others. */
  lemma ItemsCons(i: Item, all: Str, more: Str, items: seq<Item>, rest: Str)
    requires ItemOf(all) == Ok(i, more) && ItemsOf(more, ItemsLength(items)) == Ok(items, rest)
    ensures ItemsOf(all, ItemLength(i) + ItemsLength(items)) == Ok([i] + items, rest)
  {
    ItemsStep(all, ItemLength(i) + ItemsLength(items), i, more);
  }

  lemma ItemsBytesFront(i: Item, tail: seq<Item>, rest: Str)
    ensures ItemsBytes([i] + tail) + rest == ItemBytes(i) + (ItemsBytes(tail) + rest)
    ensures ItemsLength([i] + tail) == ItemLength(i) + ItemsLength(tail)
  {
    assert ([i] + tail)[1..] == tail;
    Assoc(ItemBytes(i), ItemsBytes(tail), rest);
  }

  lemma {:induction false} ItemsRoundTrip(items: seq<Item>, rest: Str)
    requires forall i :: 0 <= i < |items| ==> DecodableItem(items[i])
    ensures ItemsOf(ItemsBytes(items) + rest, ItemsLength(items)) == Ok(items, rest)
  {
    if items == [] {
      assert ItemsBytes(items) + rest == rest;
    } else {
      var i, tail := items[0], items[1..];
      assert [i] + tail == items;
      ItemsRoundTrip(tail, rest);
      ItemsBytesFront(i, tail, rest);
      ItemRoundTrip(i, ItemsBytes(tail) + rest);
      ItemsCons(i, ItemsBytes(items) + rest, ItemsBytes(tail) + rest, tail, rest);
    }
  }

  lemma ItemBytesLength(i: Item)
    ensures |ItemBytes(i)| == ItemLength(i)
  {
  }

  /** The bytes of the items are as many as the remaining length counts for them. */
  lemma {:induction false} ItemsBytesLength(items: seq<Item>)
    ensures |ItemsBytes(items)| == ItemsLength(items)
  {
    if items != [] {
      ItemBytesLength(items[0]);
      ItemsBytesLength(items[1..]);
    }
  }

  lemma SubscribeRoundTrip(s: Subscribe, rest: Str)
    requires s.items != [] && forall i :: 0 <= i < |s.items| ==> DecodableItem(s.items[i])
    ensures SubscribeOf(Header(SUBSCRIBE, 2, 2 + ItemsLength(s.items)),
                        (Uint16Bytes(s.packetId) + ItemsBytes(s.items)) + rest) == Ok(s, rest)
  {
    var body := ItemsBytes(s.items);
    Assoc(Uint16Bytes(s.packetId), body, rest);
    WordOfBytes(s.packetId, body + rest);
    ItemsRoundTrip(s.items, rest);
  }

  // ---------------------------------------------------------------- SUBACK

  lemma {:induction false} CodesRoundTrip(codes: Str, rest: Str)
    requires forall c :: c in codes ==> ReturnCode(c)
    ensures CodesOf(codes + rest, |codes|) == Ok(codes, rest)
  {
    if codes == [] {
      assert codes + rest == rest;
    } else {
      assert (codes + rest)[1..] == codes[1..] + rest;
      assert ReturnCode(codes[0]);
      CodesRoundTrip(codes[1..], rest);
      assert [codes[0]] + codes[1..] == codes;
    }
  }

  lemma SubackRoundTrip(s: Suback, rest: Str)
    requires forall c :: c in s.codes ==> ReturnCode(c)
    ensures SubackOf(Header(SUBACK, 0, 2 + |s.codes|), (Uint16Bytes(s.packetId) + s.codes) + rest) == Ok(s, rest)
  {
    Assoc(Uint16Bytes(s.packetId), s.codes, rest);
    WordOfBytes(s.packetId, s.codes + rest);
    CodesRoundTrip(s.codes, rest);
  }

  // ---------------------------------------------------------------- later bytes

  lemma Uint8Extend(bs: Str, x: Str)
    requires bs != []
    ensures Uint8(bs + x) == Ok(bs[0], bs[1..] + x)
  {
    assert (bs + x)[1..] == bs[1..] + x;
  }

  lemma Uint16Extend(bs: Str, x: Str)
    requires |bs| >= 2
    ensures Uint16(bs + x) == Ok(Word(bs[0], bs[1]), bs[2..] + x)
  {
    assert (bs + x)[2..] == bs[2..] + x;
  }

  lemma PublishExtend(h: Header, bs: Str, x: Str)
    requires PublishOf(h, bs).Ok?
    ensures PublishOf(h, bs + x) == Ok(PublishOf(h, bs).value, PublishOf(h, bs).rest + x)
  {
    StringExtend(bs, x);
    var r1 := StringOf(bs).rest;
    if (h.flags / 2) % 4 != 0 { Uint16Extend(r1, x); }
    var r2 := if (h.flags / 2) % 4 == 0 then r1 else r1[2..];
    PayloadExtend(r2, x, |PublishOf(h, bs).value.payload|);
  }

  lemma PayloadExtend(bs: Str, x: Str, n: nat)
    requires n <= |bs|
    ensures (bs + x)[..n] == bs[..n] && (bs + x)[n..] == bs[n..] + x
  {
  }

  lemma ItemExtend(bs: Str, x: Str)
    requires ItemOf(bs).Ok?
    ensures ItemOf(bs + x) == Ok(ItemOf(bs).value, ItemOf(bs).rest + x)
  {
    StringExtend(bs, x);
    if Valid(StringOf(bs).value) { Uint8Extend(StringOf(bs).rest, x); }
  }

  /** q is p with more unread bytes, if p succeeded. */
  predicate Extends<T(==)>(p: Parsed<T>, q: Parsed<T>, x: Str) {
    p.Ok? ==> q.Ok? && q.value == p.value && q.rest == p.rest + x
  }

  lemma PrependExtends<T>(s: seq<T>, p: Parsed<seq<T>>, q: Parsed<seq<T>>, x: Str)
    requires Extends(p, q, x)
    ensures Extends(Prepend(s, p), Prepend(s, q), x)
  {
  }

  lemma {:induction false} ItemsExtend(bs: Str, remain: int, x: Str)
    ensures Extends(ItemsOf(bs, remain), ItemsOf(bs + x, remain), x)
    decreases remain
  {
    if remain > 0 {
      match ItemOf(bs)
      case Ok(item, r) =>
        ItemExtend(bs, x);
        ItemsExtend(r, remain - ItemLength(item), x);
        PrependExtends([item], ItemsOf(r, remain - ItemLength(item)), ItemsOf(r + x, remain - ItemLength(item)), x);
        ItemsStep(bs, remain, item, r);
        ItemsStep(bs + x, remain, item, r + x);
      case NotEnough =>
      case Malformed =>
    }
  }

  lemma {:induction false} CodesExtend(bs: Str, n: int, x: Str)
    requires CodesOf(bs, n).Ok?
    ensures CodesOf(bs + x, n) == Ok(CodesOf(bs, n).value, CodesOf(bs, n).rest + x)
    decreases n
  {
    if n > 0 {
      Uint8Extend(bs, x);
      CodesExtend(bs[1..], n - 1, x);
    }
  }

  lemma NamedExtend(bs: Str, x: Str)
    requires NamedOf(bs).Ok?
    ensures NamedOf(bs + x) == Ok(NamedOf(bs).value, NamedOf(bs).rest + x)
  {
    StringExtend(bs, x);
  }

  lemma {:induction false} FiltersExtend(bs: Str, remain: int, x: Str)
    ensures Extends(FiltersOf(bs, remain), FiltersOf(bs + x, remain), x)
    decreases remain
  {
    if remain > 0 {
      match NamedOf(bs)
      case Ok(n, r) =>
        NamedExtend(bs, x);
        FiltersExtend(r, remain - NamedLength(n), x);
        PrependExtends([n], FiltersOf(r, remain - NamedLength(n)), FiltersOf(r + x, remain - NamedLength(n)), x);
        FiltersStep(bs, remain, n, r);
        FiltersStep(bs + x, remain, n, r + x);
      case NotEnough =>
      case Malformed =>
    }
  }

  lemma SubscribeExtend(h: Header, bs: Str, x: Str)
    requires SubscribeOf(h, bs).Ok?
    ensures SubscribeOf(h, bs + x) == Ok(SubscribeOf(h, bs).value, SubscribeOf(h, bs).rest + x)
  {
    Uint16Extend(bs, x);
    ItemsExtend(bs[2..], h.remaining - 2, x);
    assert ItemsOf(bs[2..], h.remaining - 2).Ok?;
  }

  lemma SubackExtend(h: Header, bs: Str, x: Str)
    requires SubackOf(h, bs).Ok?
    ensures SubackOf(h, bs + x) == Ok(SubackOf(h, bs).value, SubackOf(h, bs).rest + x)
  {
    Uint16Extend(bs, x);
    CodesExtend(bs[2..], h.remaining - 2, x);
  }

  lemma UnsubscribeExtend(h: Header, bs: Str, x: Str)
    requires UnsubscribeOf(h, bs).Ok?
    ensures UnsubscribeOf(h, bs + x) == Ok(UnsubscribeOf(h, bs).value, UnsubscribeOf(h, bs).rest + x)
  {
    Uint16Extend(bs, x);
    FiltersExtend(bs[2..], h.remaining - 2, x);
    assert FiltersOf(bs[2..], h.remaining - 2).Ok?;
  }

  lemma ConnackExtend(bs: Str, x: Str)
    requires ConnackOf(bs).Ok?
    ensures ConnackOf(bs + x) == Ok(ConnackOf(bs).value, ConnackOf(bs).rest + x)
  {
    Uint8Extend(bs, x);
    Uint8Extend(bs[1..], x);
  }

  lemma WillExtend(qos: byte, retain: bool, bs: Str, x: Str)
    requires WillOf(qos, retain, bs).Ok?
    ensures WillOf(qos, retain, bs + x) == Ok(WillOf(qos, retain, bs).value, WillOf(qos, retain, bs).rest + x)
  {
    StringExtend(bs, x);
    BinaryExtend(StringOf(bs).rest, x);
  }

  lemma ConnectPayloadExtend(bs: Str, flags: byte, x: Str)
    requires ConnectPayloadOf(bs, flags).Ok?
    ensures ConnectPayloadOf(bs + x, flags) == Ok(ConnectPayloadOf(bs, flags).value,
      ConnectPayloadOf(bs, flags).rest + x)
  {
    var qos, retain := (flags / 8) % 4, Bit(flags, 0x20);
    StringExtend(bs, x);
    var r1 := StringOf(bs).rest;
    if Bit(flags, 4) { WillExtend(qos, retain, r1, x); }
    var r2 := if Bit(flags, 4) then WillOf(qos, retain, r1).rest else r1;
    if Bit(flags, 0x80) { StringExtend(r2, x); }
    var r3 := if Bit(flags, 0x80) then StringOf(r2).rest else r2;
    if Bit(flags, 0x40) { BinaryExtend(r3, x); }
  }

  lemma ConnectExtend(bs: Str, x: Str)
    requires ConnectOf(bs).Ok?
    ensures ConnectOf(bs + x) == Ok(ConnectOf(bs).value, ConnectOf(bs).rest + x)
  {
    StringExtend(bs, x);
    var r1 := StringOf(bs).rest;
    Uint8Extend(r1, x);
    Uint8Extend(r1[1..], x);
    Uint16Extend(r1[1..][1..], x);
    ConnectPayloadExtend(r1[1..][1..][2..], r1[1..][0], x);
  }
}
