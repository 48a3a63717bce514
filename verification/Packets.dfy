/**
  The control packets the broker decodes, and the three it can also serialize with a payload:
  PUBLISH, SUBSCRIBE and SUBACK. Parsers take the fixed header and every unread byte, as the
  decoding constructors do; what follows the packet is left unread.
 */
module Packets {
  import opened Basics
  import opened FixedHeader
  import opened TopicFilter

  const QOS_INVALID: byte := 3
  const FAILURE: byte := 0x80

  /** `flags` is what goes on the wire; `dup` is the field a replay sets. */
  datatype Publish = Publish(flags: byte, dup: bool, qos: byte, retain: bool, topic: Str, packetId: uint16,
      payload: Str)

  datatype Item = Item(filter: Str, qos: byte, wild: bool)
  datatype Subscribe = Subscribe(packetId: uint16, items: seq<Item>)
  datatype Suback = Suback(packetId: uint16, codes: seq<byte>)
  datatype Named = Named(filter: Str, wild: bool)
  datatype Unsubscribe = Unsubscribe(packetId: uint16, filters: seq<Named>)
  datatype Will = Will(topic: Str, qos: byte, retain: bool, message: Str)
  datatype Connect = Connect(protocolName: Str, level: byte, clean: bool, keepAlive: uint16, clientId: Str,
                             will: Option<Will>, username: Option<Str>, password: Option<Str>)

  // ---------------------------------------------------------------- PUBLISH

  function FlagBits(dup: bool, qos: byte, retain: bool): byte
    requires qos <= 3
  {
    (if dup then 8 else 0) + 2 * (qos as int) + (if retain then 1 else 0)
  }

  /** What a topic name must be for the broker to decode the packet. */
  predicate PublishableTopic(t: Str) {
    t != [] && t[0] != DOLLAR && !HasWildcard(t)
  }

  function HeaderLength(p: Publish): nat {
    |p.topic| + 2 + if p.qos == 1 || p.qos == 2 then 2 else 0
  }

  function PublishLength(p: Publish): nat {
    HeaderLength(p) + |p.payload|
  }

  /** The building constructor; None when it throws. The id of a QoS 0 packet is left unset. */
  function MakePublish(dup: bool, qos: byte, retain: bool, topic: Str, packetId: uint16, payload: Str): Option<Publish>
    requires qos <= 3
  {
    var id := if qos == 1 || qos == 2 then packetId else 0;
    var p := Publish(FlagBits(dup, qos, retain), dup, qos, retain, topic, id, payload);
    if qos == QOS_INVALID || PublishLength(p) > 0x0FFF_FFFF then None else Some(p)
  }

  /** The decoding constructor. A remaining length smaller than the variable header wraps around to
      a payload no buffer can hold. */
  function PublishOf(h: Header, bs: Str): (r: Parsed<Publish>)
    ensures r.Ok? ==> |r.rest| <= |bs|
  {
    var dup, qos, retain := (h.flags / 8) % 2 != 0, (h.flags / 2) % 4, h.flags % 2 != 0;
    if (qos == 0 && dup) || qos == QOS_INVALID then Malformed
    else
      var (topic, r1) :- StringOf(bs);
      if !PublishableTopic(topic) then Malformed
      else
        var (id, r2) :- (if qos == 0 then Ok(0, r1) else Uint16(r1));
        PublishPayload(Publish(h.flags, dup, qos, retain, topic, id, []), h.remaining, r2)
  }

  function PublishPayload(p: Publish, remaining: nat, bs: Str): (r: Parsed<Publish>)
    ensures r.Ok? ==> |r.rest| <= |bs|
  {
    var n := remaining - HeaderLength(p);
    if n < 0 || |bs| < n then Malformed else Ok(p.(payload := bs[..n]), bs[n..])
  }

  function IdBytes(p: Publish): Str {
    if p.qos == 1 || p.qos == 2 then Uint16Bytes(p.packetId) else []
  }

  function PublishBody(p: Publish): Str {
    StringBytes(p.topic) + (IdBytes(p) + p.payload)
  }

  function PublishHeader(p: Publish): Header {
    Header(PUBLISH, p.flags, PublishLength(p))
  }

  // ---------------------------------------------------------------- SUBSCRIBE

  /** The payload loop: an invalid filter keeps 0x80 as its QoS, and its QoS byte is not read. */
  function ItemsOf(bs: Str, remain: int): (r: Parsed<seq<Item>>)
    ensures r.Ok? ==> |r.rest| <= |bs|
    decreases remain
  {
    if remain <= 0 then Ok([], bs)
    else match ItemOf(bs)
      case Ok(item, r) => Prepend([item], ItemsOf(r, remain - ItemLength(item)))
      case NotEnough => NotEnough
      case Malformed => Malformed
  }

  lemma ItemsStep(bs: Str, remain: int, item: Item, r: Str)
    requires remain > 0 && ItemOf(bs) == Ok(item, r)
    ensures ItemsOf(bs, remain) == Prepend([item], ItemsOf(r, remain - ItemLength(item)))
  {
  }

  function ItemLength(item: Item): nat {
    |item.filter| + 2 + if item.qos == FAILURE then 0 else 1
  }

  function ItemOf(bs: Str): (r: Parsed<Item>)
    ensures r.Ok? ==> |r.rest| <= |bs|
  {
    var (f, r1) :- StringOf(bs);
    if f == [] then Malformed
    else if !Valid(f) then Ok(Item(f, FAILURE, false), r1)
    else
      var (q, r2) :- Uint8(r1);
      if q >= QOS_INVALID then Malformed else Ok(Item(f, q, HasWildcard(f)), r2)
  }

  function SubscribeOf(h: Header, bs: Str): (r: Parsed<Subscribe>)
    ensures r.Ok? ==> |r.rest| <= |bs|
  {
    var (id, r1) :- Uint16(bs);
    var (items, r2) :- ItemsOf(r1, h.remaining - 2);
    if items == [] then Malformed else Ok(Subscribe(id, items), r2)
  }

  function ItemsLength(items: seq<Item>): nat {
    if items == [] then 0 else ItemLength(items[0]) + ItemsLength(items[1..])
  }

  /** An item as it is read: the QoS byte of an invalid filter is left for the next item. */
  function ItemBytes(item: Item): Str {
    StringBytes(item.filter) + if item.qos == FAILURE then [] else [item.qos]
  }

  function ItemsBytes(items: seq<Item>): Str {
    if items == [] then [] else ItemBytes(items[0]) + ItemsBytes(items[1..])
  }

  // ---------------------------------------------------------------- SUBACK, UNSUBSCRIBE

  predicate ReturnCode(c: byte) { c < 3 || c == FAILURE }

  function CodesOf(bs: Str, n: int): (r: Parsed<Str>)
    ensures r.Ok? ==> |r.rest| <= |bs|
    decreases n
  {
    if n <= 0 then Ok([], bs)
    else if bs == [] then NotEnough
    else if !ReturnCode(bs[0]) then Malformed
    else Prepend([bs[0]], CodesOf(bs[1..], n - 1))
  }

  function SubackOf(h: Header, bs: Str): (r: Parsed<Suback>)
    ensures r.Ok? ==> |r.rest| <= |bs|
  {
    var (id, r1) :- Uint16(bs);
    var (codes, r2) :- CodesOf(r1, h.remaining - 2);
    Ok(Suback(id, codes), r2)
  }

  function NamedOf(bs: Str): (r: Parsed<Named>)
    ensures r.Ok? ==> |r.rest| <= |bs|
  {
    var (f, r) :- StringOf(bs);
    if f == [] then Malformed else Ok(Named(f, HasWildcard(f)), r)
  }

  function NamedLength(n: Named): nat {
    |n.filter| + 2
  }

  function FiltersOf(bs: Str, remain: int): (r: Parsed<seq<Named>>)
    ensures r.Ok? ==> |r.rest| <= |bs|
    decreases remain
  {
    if remain <= 0 then Ok([], bs)
    else match NamedOf(bs)
      case Ok(n, r) => Prepend([n], FiltersOf(r, remain - NamedLength(n)))
      case NotEnough => NotEnough
      case Malformed => Malformed
  }

  lemma FiltersStep(bs: Str, remain: int, n: Named, r: Str)
    requires remain > 0 && NamedOf(bs) == Ok(n, r)
    ensures FiltersOf(bs, remain) == Prepend([n], FiltersOf(r, remain - NamedLength(n)))
  {
  }

  function UnsubscribeOf(h: Header, bs: Str): (r: Parsed<Unsubscribe>)
    ensures r.Ok? ==> |r.rest| <= |bs|
  {
    var (id, r1) :- Uint16(bs);
    var (fs, r2) :- FiltersOf(r1, h.remaining - 2);
    if fs == [] then Malformed else Ok(Unsubscribe(id, fs), r2)
  }

  // ---------------------------------------------------------------- CONNECT, CONNACK

  function Optional<T>(present: bool, p: Parsed<T>, bs: Str): (r: Parsed<Option<T>>)
    ensures r.Ok? ==> if present then p.Ok? && r.rest == p.rest else r.rest == bs
  {
    if !present then Ok(None, bs)
    else
      var (v, r) :- p;
      Ok(Some(v), r)
  }

  function WillOf(qos: byte, retain: bool, bs: Str): (r: Parsed<Will>)
    ensures r.Ok? ==> |r.rest| <= |bs|
  {
    var (topic, r1) :- StringOf(bs);
    var (message, r2) :- Binary(r1);
    Ok(Will(topic, qos, retain, message), r2)
  }

  /** Bit i of a byte. */
  predicate Bit(b: byte, weight: nat)
    requires weight > 0
  {
    (b / weight) % 2 == 1
  }

  predicate ConnectFlagsOk(b: byte) {
    !Bit(b, 1) && (!Bit(b, 4) ==> (b / 8) % 4 == 0 && !Bit(b, 0x20)) && (b / 8) % 4 < 3
  }

  datatype ConnectPayload = ConnectPayload(clientId: Str, will: Option<Will>, username: Option<Str>,
      password: Option<Str>)

  function ConnectPayloadOf(bs: Str, flags: byte): (r: Parsed<ConnectPayload>)
    ensures r.Ok? ==> |r.rest| <= |bs|
  {
    var (id, r1) :- StringOf(bs);
    var (will, r2) :- Optional(Bit(flags, 4), WillOf((flags / 8) % 4, Bit(flags, 0x20), r1), r1);
    var (user, r3) :- Optional(Bit(flags, 0x80), StringOf(r2), r2);
    var (pass, r4) :- Optional(Bit(flags, 0x40), Binary(r3), r3);
    Ok(ConnectPayload(id, will, user, pass), r4)
  }

  function ConnectOf(bs: Str): (r: Parsed<Connect>)
    ensures r.Ok? ==> |r.rest| <= |bs|
  {
    var (name, r1) :- StringOf(bs);
    var (level, r2) :- Uint8(r1);
    var (flags, r3) :- Uint8(r2);
    if !ConnectFlagsOk(flags) then Malformed
    else
      var (keep, r4) :- Uint16(r3);
      var (c, r5) :- ConnectPayloadOf(r4, flags);
      Ok(Connect(name, level, Bit(flags, 2), keep, c.clientId, c.will, c.username, c.password), r5)
  }

  function ConnackOf(bs: Str): (r: Parsed<(bool, byte)>)
    ensures r.Ok? ==> |r.rest| <= |bs|
  {
    var (b, r1) :- Uint8(bs);
    if b > 1 then Malformed
    else
      var (code, r2) :- Uint8(r1);
      if code >= 6 then Malformed else Ok((b == 1, code), r2)
  }
}
