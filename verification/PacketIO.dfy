/** The decoding constructors and serializers, over the stream buffer, with the loops of the source. */
module PacketIO {
  import opened Basics
  import opened FixedHeader
  import opened TopicFilter
  import opened Packets
  import opened PacketBytes

  method DecodePublish(h: Header, sb: StreamBuf) returns (r: Outcome<Publish>)
    requires sb.Valid()
    modifies sb`pos
    ensures sb.Valid() && Agrees(PublishOf(h, old(sb.Unread())), r, sb.Unread())
  {
    var dup, qos, retain := (h.flags / 8) % 2 != 0, (h.flags / 2) % 4, h.flags % 2 != 0;
    if (qos == 0 && dup) || qos == QOS_INVALID { return Bad; }
    var topic :- DecodeString(sb);
    if !PublishableTopic(topic) { return Bad; }
    var p := Publish(h.flags, dup, qos, retain, topic, 0, []);
    if qos == 1 || qos == 2 {
      var id :- sb.ReadUint16();
      p := p.(packetId := id);
    }
    r := DecodePayload(p, h.remaining, sb);
  }

  method DecodePayload(p: Publish, remaining: nat, sb: StreamBuf) returns (r: Outcome<Publish>)
    requires sb.Valid()
    modifies sb`pos
    ensures sb.Valid() && Agrees(PublishPayload(p, remaining, old(sb.Unread())), r, sb.Unread())
  {
    var n := remaining - HeaderLength(p);
    if n < 0 || |sb.buf| - sb.pos < n { return Bad; }
    ghost var before := sb.Unread();
    var payload := sb.Read(n);
    assert before[..n] == payload && before[n..] == sb.Unread();
    r := Value(p.(payload := payload));
  }

  method DecodeItem(sb: StreamBuf) returns (r: Outcome<Item>)
    requires sb.Valid()
    modifies sb`pos
    ensures sb.Valid() && Agrees(ItemOf(old(sb.Unread())), r, sb.Unread())
  {
    var f :- DecodeString(sb);
    if f == [] { return Bad; }
    var valid, isWild := IsTopicFilterValid(f);
    if !valid { return Value(Item(f, FAILURE, false)); }
    var q :- sb.ReadUint8();
    if q >= QOS_INVALID { return Bad; }
    r := Value(Item(f, q, isWild));
  }

  /** Reading one more element of a list that `all` parses from the bytes `bs`. */
  lemma LoopStep<T>(all: Parsed<seq<T>>, was: seq<T>, more: Parsed<seq<T>>, v: T, rest: Parsed<seq<T>>)
    requires all == Prepend(was, more) && more == Prepend([v], rest)
    ensures all == Prepend(was + [v], rest)
  {
    if rest.Ok? { assert was + ([v] + rest.value) == (was + [v]) + rest.value; }
  }

  lemma LoopStart<T>(p: Parsed<seq<T>>)
    ensures Prepend([], p) == p
  {
    if p.Ok? { assert [] + p.value == p.value; }
  }

  lemma LoopEnd<T>(all: Parsed<seq<T>>, was: seq<T>, bs: Str)
    requires all == Prepend(was, Ok([], bs))
    ensures all == Ok(was, bs)
  {
    assert was + [] == was;
  }

  lemma ItemsTurn(all: Parsed<seq<Item>>, was: seq<Item>, bs: Str, remain: int, item: Item, rest: Str)
    requires all == Prepend(was, ItemsOf(bs, remain)) && remain > 0 && ItemOf(bs) == Ok(item, rest)
    ensures all == Prepend(was + [item], ItemsOf(rest, remain - ItemLength(item)))
  {
    ItemsStep(bs, remain, item, rest);
    LoopStep(all, was, ItemsOf(bs, remain), item, ItemsOf(rest, remain - ItemLength(item)));
  }

  lemma ItemsStop(all: Parsed<seq<Item>>, was: seq<Item>, bs: Str, remain: int)
    requires all == Prepend(was, ItemsOf(bs, remain)) && remain > 0
    ensures (ItemOf(bs).NotEnough? ==> all.NotEnough?) && (ItemOf(bs).Malformed? ==> all.Malformed?)
  {
  }

  lemma ItemsEnd(all: Parsed<seq<Item>>, was: seq<Item>, bs: Str, remain: int)
    requires all == Prepend(was, ItemsOf(bs, remain)) && remain <= 0
    ensures all == Ok(was, bs)
  {
    LoopEnd(all, was, bs);
  }

  /** One turn of the loop: the items so far, and what is left of the payload. */
  method DecodeNextItem(sb: StreamBuf, ghost all: Parsed<seq<Item>>, items: seq<Item>, remain: int)
      returns (r: Outcome<seq<Item>>, left: int)
    requires sb.Valid() && remain > 0 && all == Prepend(items, ItemsOf(sb.Unread(), remain))
    modifies sb`pos
    ensures sb.Valid() && left < remain
    ensures r.Value? ==> all == Prepend(r.value, ItemsOf(sb.Unread(), left))
    ensures (r.Short? ==> all.NotEnough?) && (r.Bad? ==> all.Malformed?)
  {
    ghost var before := sb.Unread();
    left := remain - 1;
    ItemsStop(all, items, before, remain);
    var item :- DecodeItem(sb);
    ItemsTurn(all, items, before, remain, item, sb.Unread());
    r, left := Value(items + [item]), remain - ItemLength(item);
  }

  /** The payload loop of SUBSCRIBE. */
  method DecodeItems(length: int, sb: StreamBuf) returns (r: Outcome<seq<Item>>)
    requires sb.Valid()
    modifies sb`pos
    ensures sb.Valid() && Agrees(ItemsOf(old(sb.Unread()), length), r, sb.Unread())
  {
    ghost var all := ItemsOf(sb.Unread(), length);
    var remain := length;
    var items: seq<Item> := [];
    LoopStart(all);
    while remain > 0
      invariant sb.Valid()
      invariant all == Prepend(items, ItemsOf(sb.Unread(), remain))
      decreases remain
    {
      var next, left := DecodeNextItem(sb, all, items, remain);
      items :- next;
      remain := left;
    }
    ItemsEnd(all, items, sb.Unread(), remain);
    r := Value(items);
  }

  method DecodeSubscribe(h: Header, sb: StreamBuf) returns (r: Outcome<Subscribe>)
    requires sb.Valid()
    modifies sb`pos
    ensures sb.Valid() && Agrees(SubscribeOf(h, old(sb.Unread())), r, sb.Unread())
  {
    var id :- sb.ReadUint16();
    var items :- DecodeItems(h.remaining - 2, sb);
    if items == [] { return Bad; }
    r := Value(Subscribe(id, items));
  }

  method DecodeCodes(count: int, sb: StreamBuf) returns (r: Outcome<Str>)
    requires sb.Valid()
    modifies sb`pos
    ensures sb.Valid() && Agrees(CodesOf(old(sb.Unread()), count), r, sb.Unread())
  {
    ghost var all := CodesOf(sb.Unread(), count);
    var codes: Str := [];
    var inx := 0;
    LoopStart(all);
    while inx < count
      invariant sb.Valid() && 0 <= inx
      invariant all == Prepend(codes, CodesOf(sb.Unread(), count - inx))
      decreases count - inx
    {
      ghost var was, before, todo := codes, sb.Unread(), count - inx;
      var code :- sb.ReadUint8();
      if code >= 3 && code != FAILURE { return Bad; }
      codes := codes + [code];
      inx := inx + 1;
      LoopStep(all, was, CodesOf(before, todo), code, CodesOf(sb.Unread(), todo - 1));
    }
    LoopEnd(all, codes, sb.Unread());
    r := Value(codes);
  }

  method DecodeSuback(h: Header, sb: StreamBuf) returns (r: Outcome<Suback>)
    requires sb.Valid()
    modifies sb`pos
    ensures sb.Valid() && Agrees(SubackOf(h, old(sb.Unread())), r, sb.Unread())
  {
    var id :- sb.ReadUint16();
    var codes :- DecodeCodes(h.remaining - 2, sb);
    r := Value(Suback(id, codes));
  }

  method DecodeNamed(sb: StreamBuf) returns (r: Outcome<Named>)
    requires sb.Valid()
    modifies sb`pos
    ensures sb.Valid() && Agrees(NamedOf(old(sb.Unread())), r, sb.Unread())
  {
    var f :- DecodeString(sb);
    if f == [] { return Bad; }
    var valid, isWild := IsTopicFilterValid(f);
    r := Value(Named(f, isWild));
  }

  lemma FiltersTurn(all: Parsed<seq<Named>>, was: seq<Named>, bs: Str, remain: int, n: Named, rest: Str)
    requires all == Prepend(was, FiltersOf(bs, remain)) && remain > 0 && NamedOf(bs) == Ok(n, rest)
    ensures all == Prepend(was + [n], FiltersOf(rest, remain - NamedLength(n)))
  {
    FiltersStep(bs, remain, n, rest);
    LoopStep(all, was, FiltersOf(bs, remain), n, FiltersOf(rest, remain - NamedLength(n)));
  }

  lemma FiltersStop(all: Parsed<seq<Named>>, was: seq<Named>, bs: Str, remain: int)
    requires all == Prepend(was, FiltersOf(bs, remain)) && remain > 0
    ensures (NamedOf(bs).NotEnough? ==> all.NotEnough?) && (NamedOf(bs).Malformed? ==> all.Malformed?)
  {
  }

  lemma FiltersEnd(all: Parsed<seq<Named>>, was: seq<Named>, bs: Str, remain: int)
    requires all == Prepend(was, FiltersOf(bs, remain)) && remain <= 0
    ensures all == Ok(was, bs)
  {
    LoopEnd(all, was, bs);
  }

  /** One turn of the loop: the filters so far, and what is left of the payload. */
  method DecodeNextFilter(sb: StreamBuf, ghost all: Parsed<seq<Named>>, filters: seq<Named>, remain: int)
      returns (r: Outcome<seq<Named>>, left: int)
    requires sb.Valid() && remain > 0 && all == Prepend(filters, FiltersOf(sb.Unread(), remain))
    modifies sb`pos
    ensures sb.Valid() && left < remain
    ensures r.Value? ==> all == Prepend(r.value, FiltersOf(sb.Unread(), left))
    ensures (r.Short? ==> all.NotEnough?) && (r.Bad? ==> all.Malformed?)
  {
    ghost var before := sb.Unread();
    left := remain - 1;
    FiltersStop(all, filters, before, remain);
    var n :- DecodeNamed(sb);
    FiltersTurn(all, filters, before, remain, n, sb.Unread());
    r, left := Value(filters + [n]), remain - NamedLength(n);
  }

  /** The payload loop of UNSUBSCRIBE. */
  method DecodeFilters(length: int, sb: StreamBuf) returns (r: Outcome<seq<Named>>)
    requires sb.Valid()
    modifies sb`pos
    ensures sb.Valid() && Agrees(FiltersOf(old(sb.Unread()), length), r, sb.Unread())
  {
    ghost var all := FiltersOf(sb.Unread(), length);
    var remain := length;
    var filters: seq<Named> := [];
    LoopStart(all);
    while remain > 0
      invariant sb.Valid()
      invariant all == Prepend(filters, FiltersOf(sb.Unread(), remain))
      decreases remain
    {
      var next, left := DecodeNextFilter(sb, all, filters, remain);
      filters :- next;
      remain := left;
    }
    FiltersEnd(all, filters, sb.Unread(), remain);
    r := Value(filters);
  }

  method DecodeUnsubscribe(h: Header, sb: StreamBuf) returns (r: Outcome<Unsubscribe>)
    requires sb.Valid()
    modifies sb`pos
    ensures sb.Valid() && Agrees(UnsubscribeOf(h, old(sb.Unread())), r, sb.Unread())
  {
    var id :- sb.ReadUint16();
    var filters :- DecodeFilters(h.remaining - 2, sb);
    if filters == [] { return Bad; }
    r := Value(Unsubscribe(id, filters));
  }

  method DecodeBinary(sb: StreamBuf) returns (r: Outcome<Str>)
    requires sb.Valid()
    modifies sb`pos
    ensures sb.Valid() && Agrees(Binary(old(sb.Unread())), r, sb.Unread())
  {
    var length :- sb.ReadUint16();
    ghost var before := sb.Unread();
    var result := sb.Read(length);
    if |result| < length { return Bad; }
    assert before[..length] == result && before[length..] == sb.Unread();
    r := Value(result);
  }

  method DecodeWill(qos: byte, retain: bool, sb: StreamBuf) returns (r: Outcome<Will>)
    requires sb.Valid()
    modifies sb`pos
    ensures sb.Valid() && Agrees(WillOf(qos, retain, old(sb.Unread())), r, sb.Unread())
  {
    var topic :- DecodeString(sb);
    var message :- DecodeBinary(sb);
    r := Value(Will(topic, qos, retain, message));
  }

  method DecodeOptionalString(present: bool, sb: StreamBuf) returns (r: Outcome<Option<Str>>)
    requires sb.Valid()
    modifies sb`pos
    ensures sb.Valid() && Agrees(Optional(present, StringOf(old(sb.Unread())), old(sb.Unread())), r, sb.Unread())
  {
    if !present { return Value(None); }
    var s :- DecodeString(sb);
    r := Value(Some(s));
  }

  method DecodeOptionalBinary(present: bool, sb: StreamBuf) returns (r: Outcome<Option<Str>>)
    requires sb.Valid()
    modifies sb`pos
    ensures sb.Valid() && Agrees(Optional(present, Binary(old(sb.Unread())), old(sb.Unread())), r, sb.Unread())
  {
    if !present { return Value(None); }
    var s :- DecodeBinary(sb);
    r := Value(Some(s));
  }

  method DecodeOptionalWill(present: bool, qos: byte, retain: bool, sb: StreamBuf) returns (r: Outcome<Option<Will>>)
    requires sb.Valid()
    modifies sb`pos
    ensures sb.Valid()
      && Agrees(Optional(present, WillOf(qos, retain, old(sb.Unread())), old(sb.Unread())), r, sb.Unread())
  {
    if !present { return Value(None); }
    var w :- DecodeWill(qos, retain, sb);
    r := Value(Some(w));
  }

  method DecodeConnectPayload(flags: byte, sb: StreamBuf) returns (r: Outcome<ConnectPayload>)
    requires sb.Valid()
    modifies sb`pos
    ensures sb.Valid() && Agrees(ConnectPayloadOf(old(sb.Unread()), flags), r, sb.Unread())
  {
    var id :- DecodeString(sb);
    var will :- DecodeOptionalWill(Bit(flags, 4), (flags / 8) % 4, Bit(flags, 0x20), sb);
    var user :- DecodeOptionalString(Bit(flags, 0x80), sb);
    var pass :- DecodeOptionalBinary(Bit(flags, 0x40), sb);
    r := Value(ConnectPayload(id, will, user, pass));
  }

  method DecodeConnect(sb: StreamBuf) returns (r: Outcome<Connect>)
    requires sb.Valid()
    modifies sb`pos
    ensures sb.Valid() && Agrees(ConnectOf(old(sb.Unread())), r, sb.Unread())
  {
    var name :- DecodeString(sb);
    var level :- sb.ReadUint8();
    var flags :- sb.ReadUint8();
    if !ConnectFlagsOk(flags) { return Bad; }
    var keep :- sb.ReadUint16();
    var c :- DecodeConnectPayload(flags, sb);
    r := Value(Connect(name, level, Bit(flags, 2), keep, c.clientId, c.will, c.username, c.password));
  }

  method DecodeConnack(sb: StreamBuf) returns (r: Outcome<(bool, byte)>)
    requires sb.Valid()
    modifies sb`pos
    ensures sb.Valid() && Agrees(ConnackOf(old(sb.Unread())), r, sb.Unread())
  {
    var b :- sb.ReadUint8();
    if b > 1 { return Bad; }
    var code :- sb.ReadUint8();
    if code >= 6 { return Bad; }
    r := Value((b == 1, code));
  }

  // ---------------------------------------------------------------- serializers

  method EncodeHeader(h: Header, sb: StreamBuf) returns (ok: bool)
    requires sb.Valid() && h.kind < 16 && h.flags < 16
    modifies sb`buf
    ensures sb.Valid() && ok == (h.remaining <= 0x0FFF_FFFF)
    ensures ok ==> sb.buf == old(sb.buf) + HeaderBytes(h)
  {
    ghost var start := sb.buf;
    Assoc(start, [h.kind * 16 + h.flags], RemainingLengthBytes(h.remaining));
    sb.Append([h.kind * 16 + h.flags]);
    ok := EncodeRemainingLength(h.remaining, sb);
  }

  /** `mqtt_publish::serialize`; not ok when it throws. */
  method EncodePublish(p: Publish, sb: StreamBuf) returns (ok: bool)
    requires sb.Valid() && p.flags < 16
    modifies sb`buf
    ensures sb.Valid() && ok == (PublishLength(p) <= 0x0FFF_FFFF && |p.topic| < 0x1_0000)
    ensures ok ==> sb.buf == old(sb.buf) + HeaderBytes(PublishHeader(p)) + PublishBody(p)
  {
    ok := EncodeHeader(PublishHeader(p), sb);
    if !ok { return; }
    ghost var start := sb.buf;
    ok := EncodeString(p.topic, sb);
    if !ok { return; }
    if p.qos == 1 || p.qos == 2 {
      sb.Append(Uint16Bytes(p.packetId));
    }
    sb.Append(p.payload);
    EncodedBody(start, p);
  }

  lemma EncodedBody(start: Str, p: Publish)
    ensures start + PublishBody(p) == start + StringBytes(p.topic) + IdBytes(p) + p.payload
    ensures p.qos != 1 && p.qos != 2 ==> start + PublishBody(p) == start + StringBytes(p.topic) + p.payload
  {
    var s := StringBytes(p.topic);
    Assoc(start, s, IdBytes(p) + p.payload);
    Assoc(start + s, IdBytes(p), p.payload);
    if p.qos != 1 && p.qos != 2 { assert IdBytes(p) + p.payload == p.payload; }
  }

  /** A SUBSCRIBE built filter by filter. */
  class MqttSubscribe {
    var packetId: uint16
    var items: seq<Item>
    var remaining: nat

    ghost predicate Valid()
      reads this
    {
      remaining == 2 + ItemsLength(items) && forall i :: 0 <= i < |items| ==> items[i].qos < QOS_INVALID
    }

    constructor (id: uint16)
      ensures Valid() && packetId == id && items == []
    {
      packetId, items, remaining := id, [], 2;
    }

    method AddTopicFilter(f: Str, q: byte) returns (ok: bool)
      requires Valid()
      modifies this`items, this`remaining
      ensures Valid() && ok == (q < QOS_INVALID)
      ensures items == old(items) + if ok then [Item(f, q, HasWildcard(f))] else []
    {
      if q >= QOS_INVALID { return false; }
      ItemsLengthSnoc(items, Item(f, q, HasWildcard(f)));
      remaining := remaining + 2 + |f|;
      remaining := remaining + 1;
      items := items + [Item(f, q, HasWildcard(f))];
      ok := true;
    }

    /** Exactly `remaining` bytes follow the fixed header. */
    method Serialize(sb: StreamBuf) returns (ok: bool)
      requires Valid() && sb.Valid()
      modifies sb`buf
      ensures sb.Valid()
      ensures ok <==> remaining <= 0x0FFF_FFFF && forall i :: 0 <= i < |items| ==> |items[i].filter| < 0x1_0000
      ensures ok ==>
        sb.buf == old(sb.buf) + HeaderBytes(Header(SUBSCRIBE, 2, remaining)) +
        (Uint16Bytes(packetId) + ItemsBytes(items))
    {
      ok := EncodeHeader(Header(SUBSCRIBE, 2, remaining), sb);
      if !ok { return; }
      ghost var start := sb.buf;
      sb.Append(Uint16Bytes(packetId));
      ok := EncodeItems(items, sb);
      Assoc(start, Uint16Bytes(packetId), ItemsBytes(items));
    }
  }

  lemma {:induction false} ItemsLengthSnoc(items: seq<Item>, i: Item)
    ensures ItemsLength(items + [i]) == ItemsLength(items) + ItemLength(i)
  {
    if items != [] {
      assert (items + [i])[1..] == items[1..] + [i];
      ItemsLengthSnoc(items[1..], i);
    }
  }

  method EncodeItems(items: seq<Item>, sb: StreamBuf) returns (ok: bool)
    requires sb.Valid() && forall i :: 0 <= i < |items| ==> items[i].qos < QOS_INVALID
    modifies sb`buf
    ensures sb.Valid()
    ensures ok <==> forall i :: 0 <= i < |items| ==> |items[i].filter| < 0x1_0000
    ensures ok ==> sb.buf == old(sb.buf) + ItemsBytes(items)
  {
    ghost var done: Str := old(sb.buf) + ItemsBytes(items);
    var inx := 0;
    while inx < |items|
      invariant sb.Valid() && 0 <= inx <= |items|
      invariant forall i :: 0 <= i < inx ==> |items[i].filter| < 0x1_0000
      invariant done == sb.buf + ItemsBytes(items[inx..])
    {
      ghost var start := sb.buf;
      ok := EncodeString(items[inx].filter, sb);
      if !ok { return; }
      sb.Append([items[inx].qos]);
      ItemsBytesStep(start, items, inx);
      inx := inx + 1;
    }
    ok := true;
  }

  lemma ItemsBytesStep(start: Str, items: seq<Item>, k: nat)
    requires k < |items| && items[k].qos != FAILURE
    ensures start + ItemsBytes(items[k..]) == start + StringBytes(items[k].filter) + [items[k].qos] +
      ItemsBytes(items[k + 1..])
  {
    var s, more := StringBytes(items[k].filter), ItemsBytes(items[k + 1..]);
    assert items[k..][1..] == items[k + 1..];
    Assoc(start, s + [items[k].qos], more);
    Assoc(start, s, [items[k].qos]);
  }

  /** A SUBACK built code by code. */
  class MqttSuback {
    var packetId: uint16
    var codes: Str
    var remaining: nat

    ghost predicate Valid()
      reads this
    {
      remaining == 2 + |codes| && forall c :: c in codes ==> ReturnCode(c)
    }

    constructor (id: uint16)
      ensures Valid() && packetId == id && codes == []
    {
      packetId, codes, remaining := id, [], 2;
    }

    method AddReturnCode(code: byte) returns (ok: bool)
      requires Valid()
      modifies this`codes, this`remaining
      ensures Valid() && ok == ReturnCode(code)
      ensures codes == old(codes) + if ok then [code] else []
    {
      if code >= 3 && code != FAILURE { return false; }
      remaining := remaining + 1;
      codes := codes + [code];
      ok := true;
    }

    method Serialize(sb: StreamBuf) returns (ok: bool)
      requires Valid() && sb.Valid()
      modifies sb`buf
      ensures sb.Valid() && ok == (remaining <= 0x0FFF_FFFF)
      ensures ok ==> sb.buf == old(sb.buf) + HeaderBytes(Header(SUBACK, 0, remaining)) + (Uint16Bytes(packetId) + codes)
    {
      ok := EncodeHeader(Header(SUBACK, 0, remaining), sb);
      if !ok { return; }
      Assoc(sb.buf, Uint16Bytes(packetId), codes);
      sb.Append(Uint16Bytes(packetId));
      sb.Append(codes);
    }
  }

  // ---------------------------------------------------------------- CONNECT, and packets of two bytes

  /** `encode_binary`. */
  method EncodeBinary(s: Str, sb: StreamBuf) returns (ok: bool)
    requires sb.Valid()
    modifies sb`buf
    ensures sb.Valid() && ok == (|s| < 0x1_0000)
    ensures sb.buf == old(sb.buf) + if ok then StringBytes(s) else []
  {
    ok := EncodeString(s, sb);
  }

  method EncodeWill(w: Option<Will>, sb: StreamBuf) returns (ok: bool)
    requires sb.Valid()
    modifies sb`buf
    ensures sb.Valid() && ok == (w.Some? ==> |w.value.topic| < 0x1_0000 && |w.value.message| < 0x1_0000)
    ensures ok ==> sb.buf == old(sb.buf) + WillBytes(w)
  {
    if w.None? { return true; }
    ghost var start := sb.buf;
    Assoc(start, StringBytes(w.value.topic), StringBytes(w.value.message));
    ok := EncodeString(w.value.topic, sb);
    if ok { ok := EncodeBinary(w.value.message, sb); }
  }

  method EncodeOptional(s: Option<Str>, sb: StreamBuf) returns (ok: bool)
    requires sb.Valid()
    modifies sb`buf
    ensures sb.Valid() && ok == (s.Some? ==> |s.value| < 0x1_0000)
    ensures ok ==> sb.buf == old(sb.buf) + OptionalBytes(s)
  {
    if s.None? { return true; }
    ok := EncodeString(s.value, sb);
  }

  /** No part of a payload is too long to be written. */
  predicate Writable(c: ConnectPayload) {
    && |c.clientId| < 0x1_0000
    && (c.will.Some? ==> |c.will.value.topic| < 0x1_0000 && |c.will.value.message| < 0x1_0000)
    && (c.username.Some? ==> |c.username.value| < 0x1_0000) && (c.password.Some? ==> |c.password.value| < 0x1_0000)
  }

  method EncodeConnectPayload(c: ConnectPayload, sb: StreamBuf) returns (ok: bool)
    requires sb.Valid()
    modifies sb`buf
    ensures sb.Valid() && ok == Writable(c)
    ensures ok ==> sb.buf == old(sb.buf) + ConnectPayloadBytes(c)
  {
    PayloadParts(sb.buf, c);
    ok := EncodeString(c.clientId, sb);
    if ok { ok := EncodeWill(c.will, sb); }
    if ok { ok := EncodeOptional(c.username, sb); }
    if ok { ok := EncodeOptional(c.password, sb); }
  }

  lemma PayloadParts(start: Str, c: ConnectPayload)
    ensures start + ConnectPayloadBytes(c) ==
      start + StringBytes(c.clientId) + WillBytes(c.will) + OptionalBytes(c.username) + OptionalBytes(c.password)
  {
    var id, will, user, pass := StringBytes(c.clientId), WillBytes(c.will), OptionalBytes(c.username),
      OptionalBytes(c.password);
    Assoc(start, id, will + (user + pass));
    Assoc(start + id, will, user + pass);
    Assoc(start + id + will, user, pass);
  }

  /** `mqtt_connect::serialize`, with the flags its building constructor left; not ok when it throws. */
  method EncodeConnect(c: Connect, sb: StreamBuf) returns (ok: bool)
    requires sb.Valid() && FlagsOf(c).qos <= 2
    modifies sb`buf
    ensures sb.Valid()
    ensures ok <==>
      |SerializedConnect(c)| <= 0x0FFF_FFFF && |c.protocolName| < 0x1_0000 && Writable(PayloadOf(c))
    ensures ok ==>
      sb.buf == old(sb.buf) + HeaderBytes(Header(CONNECT, 0, |SerializedConnect(c)|)) + SerializedConnect(c)
  {
    ok := EncodeHeader(Header(CONNECT, 0, |SerializedConnect(c)|), sb);
    if !ok { return; }
    ghost var start := sb.buf;
    var flags := FlagByte(BuiltFlags(FlagsOf(c)));
    ghost var name, keep := StringBytes(c.protocolName), Uint16Bytes(c.keepAlive);
    Assoc(start, name, [c.level, flags] + (keep + ConnectPayloadBytes(PayloadOf(c))));
    Assoc(start + name, [c.level, flags], keep + ConnectPayloadBytes(PayloadOf(c)));
    Assoc(start + name + [c.level, flags], keep, ConnectPayloadBytes(PayloadOf(c)));
    ok := EncodeString(c.protocolName, sb);
    if !ok { return; }
    sb.Append([c.level, flags]);
    sb.Append(Uint16Bytes(c.keepAlive));
    ok := EncodeConnectPayload(PayloadOf(c), sb);
  }

  /** `serialize` of PUBACK, PUBREC, PUBREL, PUBCOMP and UNSUBACK. */
  method EncodeIdentifier(kind: byte, flags: byte, id: uint16, sb: StreamBuf)
    requires sb.Valid() && kind < 16 && flags < 16
    modifies sb`buf
    ensures sb.Valid() && sb.buf == old(sb.buf) + (HeaderBytes(Header(kind, flags, 2)) + Uint16Bytes(id))
  {
    Assoc(sb.buf, HeaderBytes(Header(kind, flags, 2)), Uint16Bytes(id));
    var ok := EncodeHeader(Header(kind, flags, 2), sb);
    sb.Append(Uint16Bytes(id));
  }

  /** `mqtt_connack::serialize`. */
  method EncodeConnack(present: bool, code: byte, sb: StreamBuf)
    requires sb.Valid()
    modifies sb`buf
    ensures sb.Valid()
    ensures sb.buf == old(sb.buf) + (HeaderBytes(Header(CONNACK, 0, 2)) + [if present then 1 else 0, code])
  {
    Assoc(sb.buf, HeaderBytes(Header(CONNACK, 0, 2)), [if present then 1 else 0, code]);
    var ok := EncodeHeader(Header(CONNACK, 0, 2), sb);
    ghost var start := sb.buf;
    if present {
      sb.Append([1]);
    } else {
      sb.Append([0]);
    }
    sb.Append([code]);
    assert start + [if present then 1 else 0] + [code] == start + [if present then 1 else 0, code];
  }
}
