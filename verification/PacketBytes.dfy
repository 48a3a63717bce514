/**
  The packets a client sends, written from their fields as MQTT 3.1.1 lays them out, and decoded: CONNECT
  and UNSUBSCRIBE, which the broker only reads, beside those it also writes.
 */
module PacketBytes {
  import opened Basics
  import opened FixedHeader
  import opened TopicFilter
  import opened Packets
  import opened PacketLaws

  // ---------------------------------------------------------------- CONNECT

  datatype Flags = Flags(user: bool, pass: bool, retain: bool, qos: byte, will: bool, clean: bool)

  /** The connect flags, bit by bit (section 3.1.2.3 of MQTT 3.1.1). */
  function FlagByte(f: Flags): byte
    requires f.qos <= 3
  {
    (if f.user then 128 else 0) + (if f.pass then 64 else 0) + (if f.retain then 32 else 0) + 8 * (f.qos as int)
      + (if f.will then 4 else 0) + (if f.clean then 2 else 0)
  }

  /** The will's QoS is not 3, and without a will its QoS and RETAIN are 0. */
  predicate Legal(f: Flags) {
    f.qos <= 2 && (!f.will ==> f.qos == 0 && !f.retain)
  }

  function FlagsOf(c: Connect): Flags {
    match c.will
    case None => Flags(c.username.Some?, c.password.Some?, false, 0, false, c.clean)
    case Some(w) => Flags(c.username.Some?, c.password.Some?, w.retain, w.qos, true, c.clean)
  }

  /** Text and binary data alike: two bytes for the length, and the bytes. */
  function OptionalBytes(s: Option<Str>): Str {
    if s.Some? then StringBytes(s.value) else []
  }

  function WillBytes(w: Option<Will>): Str {
    if w.Some? then StringBytes(w.value.topic) + StringBytes(w.value.message) else []
  }

  /** The payload, in the order of section 3.1.3. */
  function ConnectPayloadBytes(c: ConnectPayload): Str {
    StringBytes(c.clientId) + (WillBytes(c.will) + (OptionalBytes(c.username) + OptionalBytes(c.password)))
  }

  function PayloadOf(c: Connect): ConnectPayload {
    ConnectPayload(c.clientId, c.will, c.username, c.password)
  }

  /** The body of a CONNECT with a given flag byte. */
  function ConnectBytes(c: Connect, flags: byte): Str {
    StringBytes(c.protocolName) + ([c.level, flags] + (Uint16Bytes(c.keepAlive) + ConnectPayloadBytes(PayloadOf(c))))
  }

  function ConnectBody(c: Connect): Str
    requires FlagsOf(c).qos <= 3
  {
    ConnectBytes(c, FlagByte(FlagsOf(c)))
  }

  predicate Text(s: Str) {
    Readable(s) && |s| < 0x1_0000
  }

  predicate SendableConnect(c: Connect) {
    && Text(c.protocolName) && Text(c.clientId) && (c.username.Some? ==> Text(c.username.value))
    && (c.password.Some? ==> |c.password.value| < 0x1_0000)
    && (c.will.Some? ==> Text(c.will.value.topic) && |c.will.value.message| < 0x1_0000 && c.will.value.qos <= 2)
  }

  function One(b: bool): nat {
    if b then 1 else 0
  }

  /** A bit, from the number that is left when the bits below it are dropped. */
  lemma BitIs(b: byte, weight: nat, above: nat, one: bool)
    requires weight > 0 && (b as int) / weight == 2 * above + One(one)
    ensures Bit(b, weight) == one
  {
  }

  lemma Quotients(n: nat, u: nat, p: nat, r: nat, q: nat, w: nat, c: nat)
    requires n == 128 * u + 64 * p + 32 * r + 8 * q + 4 * w + 2 * c
    requires p <= 1 && r <= 1 && q <= 3 && w <= 1 && c <= 1
    ensures n / 128 == u && n / 64 == 2 * u + p && n / 32 == 4 * u + 2 * p + r
    ensures n / 8 == 16 * u + 8 * p + 4 * r + q && n / 4 == 32 * u + 16 * p + 8 * r + 2 * q + w
    ensures n / 2 == 64 * u + 32 * p + 16 * r + 4 * q + 2 * w + c && n % 2 == 0
  {
  }

  lemma FlagByteBits(f: Flags)
    requires f.qos <= 3
    ensures var b := FlagByte(f);
      Bit(b, 0x80) == f.user && Bit(b, 0x40) == f.pass && Bit(b, 0x20) == f.retain && (b / 8) % 4 == f.qos
        && Bit(b, 4) == f.will && Bit(b, 2) == f.clean && !Bit(b, 1)
  {
    var u, p, r, q, w, c := One(f.user), One(f.pass), One(f.retain), f.qos as int, One(f.will), One(f.clean);
    var b := FlagByte(f);
    Quotients(b as int, u, p, r, q, w, c);
    BitIs(b, 0x80, 0, f.user);
    BitIs(b, 0x40, u, f.pass);
    BitIs(b, 0x20, 2 * u + p, f.retain);
    BitIs(b, 4, 16 * u + 8 * p + 4 * r + q, f.will);
    BitIs(b, 2, 32 * u + 16 * p + 8 * r + 2 * q + w, f.clean);
    BitIs(b, 1, b as int / 2, false);
    QosBits(b as int / 8, 4 * u + 2 * p + r, q);
  }

  lemma QosBits(n: nat, above: nat, q: nat)
    requires n == 4 * above + q && q <= 3
    ensures n % 4 == q
  {
  }

  lemma LowDigits(m: nat)
    requires m < 32
    ensures m == 8 * (m / 8) + 4 * (m / 4 % 2) + 2 * (m / 2 % 2) + m % 2
  {
  }

  lemma HighDigits(m: nat)
    requires m < 8
    ensures m == 4 * (m / 4) + 2 * (m / 2 % 2) + m % 2
  {
  }

  lemma Parts(n: nat, high: nat, low: nat)
    requires n == 32 * high + low && low < 32
    ensures n / 32 == high && n / 64 == high / 2 && n / 128 == high / 4
    ensures n / 2 == 16 * high + low / 2 && n / 4 == 8 * high + low / 4 && n / 8 == 4 * high + low / 8
  {
  }

  lemma EvenPlus(k: nat, m: nat)
    ensures (2 * k + m) % 2 == m % 2
  {
  }

  lemma DigitsOf(n: nat, high: nat, low: nat)
    requires n == 32 * high + low && low < 32 && high < 8
    ensures n / 128 % 2 == high / 4 && n / 64 % 2 == high / 2 % 2 && n / 32 % 2 == high % 2
    ensures n / 8 % 4 == low / 8 && n / 4 % 2 == low / 4 % 2 && n / 2 % 2 == low / 2 % 2 && n % 2 == low % 2
  {
    Parts(n, high, low);
    QosBits(n / 8, high, low / 8);
    EvenPlus(4 * high, low / 4);
    EvenPlus(8 * high, low / 2);
    EvenPlus(16 * high, low);
  }

  lemma BitDigit(b: byte, weight: nat, digit: nat)
    requires weight > 0 && digit == (b / weight) % 2
    ensures One(Bit(b, weight)) == digit
  {
  }

  /** A byte is the sum of its bits. */
  lemma BitsOfByte(b: byte)
    ensures var f := Flags(Bit(b, 0x80), Bit(b, 0x40), Bit(b, 0x20), (b / 8) % 4, Bit(b, 4), Bit(b, 2));
      b as int == FlagByte(f) as int + One(Bit(b, 1))
  {
    var high: nat, low: nat := b / 32, b % 32;
    DigitsOf(b, high, low);
    HighDigits(high);
    LowDigits(low);
    SumOfBits(b, high, low);
  }

  lemma SumOfBits(b: byte, high: nat, low: nat)
    requires b == 32 * high + low && low == 8 * ((b / 8) % 4) + 4 * ((b / 4) % 2) + 2 * ((b / 2) % 2) + (b / 1) % 2
    requires high == 4 * ((b / 0x80) % 2) + 2 * ((b / 0x40) % 2) + (b / 0x20) % 2
    ensures var f := Flags(Bit(b, 0x80), Bit(b, 0x40), Bit(b, 0x20), (b / 8) % 4, Bit(b, 4), Bit(b, 2));
      b as int == FlagByte(f) as int + One(Bit(b, 1))
  {
    BitDigit(b, 0x80, (b / 0x80) % 2);
    BitDigit(b, 0x40, (b / 0x40) % 2);
    BitDigit(b, 0x20, (b / 0x20) % 2);
    BitDigit(b, 4, (b / 4) % 2);
    BitDigit(b, 2, (b / 2) % 2);
    BitDigit(b, 1, (b / 1) % 2);
  }

  lemma BinaryRoundTrip(s: Str, rest: Str)
    requires |s| < 0x1_0000
    ensures Binary(StringBytes(s) + rest) == Ok(s, rest)
  {
    StringBytesFront(s, rest);
    WordOfBytes(|s|, s + rest);
    assert (s + rest)[..|s|] == s && (s + rest)[|s|..] == rest;
  }

  /** Binary data that is not all there is refused, not waited for. */
  lemma BinaryCut(s: Str, n: nat)
    requires |s| < 0x1_0000 && n < |s|
    ensures Binary(Uint16Bytes(|s|) + s[..n]) == Malformed
  {
    WordOfBytes(|s|, s[..n]);
  }

  lemma WillRoundTrip(w: Will, rest: Str)
    requires Text(w.topic) && |w.message| < 0x1_0000
    ensures WillOf(w.qos, w.retain, WillBytes(Some(w)) + rest) == Ok(w, rest)
  {
    Assoc(StringBytes(w.topic), StringBytes(w.message), rest);
    StringRoundTrip(w.topic, StringBytes(w.message) + rest);
    BinaryRoundTrip(w.message, rest);
  }

  lemma UserRoundTrip(user: Option<Str>, rest: Str)
    requires user.Some? ==> Text(user.value)
    ensures var bs := OptionalBytes(user) + rest; Optional(user.Some?, StringOf(bs), bs) == Ok(user, rest)
  {
    assert [] + rest == rest;
    if user.Some? { StringRoundTrip(user.value, rest); }
  }

  lemma PasswordRoundTrip(pass: Option<Str>)
    requires pass.Some? ==> |pass.value| < 0x1_0000
    ensures var bs := OptionalBytes(pass); Optional(pass.Some?, Binary(bs), bs) == Ok(pass, [])
  {
    if pass.Some? {
      BinaryRoundTrip(pass.value, []);
      assert StringBytes(pass.value) + [] == StringBytes(pass.value);
    }
  }

  lemma OptionalWillRoundTrip(w: Option<Will>, qos: byte, retain: bool, rest: Str)
    requires w.Some? ==> Text(w.value.topic) && |w.value.message| < 0x1_0000
    requires w.Some? ==> qos == w.value.qos && retain == w.value.retain
    ensures var bs := WillBytes(w) + rest; Optional(w.Some?, WillOf(qos, retain, bs), bs) == Ok(w, rest)
  {
    assert [] + rest == rest;
    if w.Some? { WillRoundTrip(w.value, rest); }
  }

  /** A flag byte and a payload that go together. */
  predicate Fitting(flags: byte, c: ConnectPayload) {
    && Bit(flags, 4) == c.will.Some? && Bit(flags, 0x80) == c.username.Some? && Bit(flags, 0x40) == c.password.Some?
    && (c.will.Some? ==> (flags / 8) % 4 == c.will.value.qos && Bit(flags, 0x20) == c.will.value.retain)
  }

  lemma PayloadRoundTrip(c: ConnectPayload, flags: byte)
    requires Text(c.clientId) && (c.username.Some? ==> Text(c.username.value)) && Fitting(flags, c)
    requires c.password.Some? ==> |c.password.value| < 0x1_0000
    requires c.will.Some? ==> Text(c.will.value.topic) && |c.will.value.message| < 0x1_0000
    ensures ConnectPayloadOf(ConnectPayloadBytes(c), flags) == Ok(c, [])
  {
    var r2 := OptionalBytes(c.username) + OptionalBytes(c.password);
    StringRoundTrip(c.clientId, WillBytes(c.will) + r2);
    OptionalWillRoundTrip(c.will, (flags / 8) % 4, Bit(flags, 0x20), r2);
    UserRoundTrip(c.username, OptionalBytes(c.password));
    PasswordRoundTrip(c.password);
  }

  lemma FlagsFit(c: Connect)
    requires SendableConnect(c)
    ensures var b := FlagByte(FlagsOf(c)); Fitting(b, PayloadOf(c)) && ConnectFlagsOk(b) && Bit(b, 2) == c.clean
  {
    FlagByteBits(FlagsOf(c));
  }

  /** The fixed part of a CONNECT is read back, and the payload is next. */
  lemma ConnectFront(c: Connect, flags: byte)
    requires Text(c.protocolName)
    ensures var r := ConnectOf(ConnectBytes(c, flags));
      var p := ConnectPayloadOf(ConnectPayloadBytes(PayloadOf(c)), flags);
      if !ConnectFlagsOk(flags) then r == Malformed
      else if p.Ok? then
        r == Ok(Connect(c.protocolName, c.level, Bit(flags, 2), c.keepAlive, p.value.clientId, p.value.will,
          p.value.username, p.value.password), p.rest)
      else !r.Ok?
  {
    var more := Uint16Bytes(c.keepAlive) + ConnectPayloadBytes(PayloadOf(c));
    StringRoundTrip(c.protocolName, [c.level, flags] + more);
    assert ([c.level, flags] + more)[1..] == [flags] + more && ([flags] + more)[1..] == more;
    WordOfBytes(c.keepAlive, ConnectPayloadBytes(PayloadOf(c)));
  }

  /** Every CONNECT, whatever its clean session flag, will, user name and password, is decoded to its fields
      in front of any bytes. */
  lemma ConnectRoundTrip(c: Connect, rest: Str)
    requires SendableConnect(c)
    ensures ConnectOf(ConnectBody(c) + rest) == Ok(c, rest)
  {
    FlagsFit(c);
    PayloadRoundTrip(PayloadOf(c), FlagByte(FlagsOf(c)));
    ConnectFront(c, FlagByte(FlagsOf(c)));
    ConnectExtend(ConnectBody(c), rest);
    assert [] + rest == rest;
  }

  lemma FlagsAreLegal(b: byte)
    ensures ConnectFlagsOk(b) <==> exists f :: Legal(f) && b == FlagByte(f)
  {
    BitsOfByte(b);
    if ConnectFlagsOk(b) {
      var f := Flags(Bit(b, 0x80), Bit(b, 0x40), Bit(b, 0x20), (b / 8) % 4, Bit(b, 4), Bit(b, 2));
      assert Legal(f) && b == FlagByte(f);
    }
    if f :| Legal(f) && b == FlagByte(f) { FlagByteBits(f); }
  }

  /** The flag byte of a CONNECT comes after the protocol name and level. */
  predicate HasFlags(bs: Str, b: byte) {
    StringOf(bs).Ok? && |StringOf(bs).rest| >= 2 && StringOf(bs).rest[1] == b
  }

  /** Exactly which flag bytes are refused: one that no legal flags give is, whatever else the packet holds;
      any other is taken with a payload to go with it. */
  lemma ConnectFlagsExact(b: byte)
    ensures if exists f :: Legal(f) && b == FlagByte(f)
      then exists c :: SendableConnect(c) && HasFlags(ConnectBody(c), b) && ConnectOf(ConnectBody(c)) == Ok(c, [])
      else forall bs :: HasFlags(bs, b) ==> ConnectOf(bs) == Malformed
  {
    FlagsAreLegal(b);
    if f :| Legal(f) && b == FlagByte(f) {
      var c := LegalFlagsUsed(f);
    }
  }

  lemma LegalFlagsUsed(f: Flags) returns (c: Connect)
    requires Legal(f)
    ensures SendableConnect(c) && HasFlags(ConnectBody(c), FlagByte(f)) && ConnectOf(ConnectBody(c)) == Ok(c, [])
  {
    c := Connect([], 4, f.clean, 0, [], if f.will then Some(Will([], f.qos, f.retain, [])) else None,
      if f.user then Some([]) else None, if f.pass then Some([]) else None);
    assert FlagsOf(c) == f;
    ConnectRoundTrip(c, []);
    assert ConnectBody(c) + [] == ConnectBody(c);
    var more := [c.level, FlagByte(f)] + (Uint16Bytes(c.keepAlive) + ConnectPayloadBytes(PayloadOf(c)));
    StringRoundTrip(c.protocolName, more);
  }

  // ---------------------------------------------------------------- CONNECT as the broker serializes it

  /** The flags the building constructor computes: it leaves the will flag out. */
  function BuiltFlags(f: Flags): Flags {
    f.(will := false)
  }

  /** What `mqtt_connect::serialize` writes after the fixed header; the will follows nevertheless. */
  function SerializedConnect(c: Connect): Str
    requires FlagsOf(c).qos <= 3
  {
    ConnectBytes(c, FlagByte(BuiltFlags(FlagsOf(c))))
  }

  /** Exactly when a CONNECT survives the broker's own serializer: when it has no will. */
  lemma SerializedConnectIff(c: Connect, rest: Str)
    requires SendableConnect(c)
    ensures ConnectOf(SerializedConnect(c) + rest) == Ok(c, rest) <==> c.will == None
  {
    if c.will.None? {
      ConnectRoundTrip(c, rest);
    } else {
      var b := FlagByte(BuiltFlags(FlagsOf(c)));
      FlagByteBits(BuiltFlags(FlagsOf(c)));
      var more := Uint16Bytes(c.keepAlive) + ConnectPayloadBytes(PayloadOf(c));
      Assoc(StringBytes(c.protocolName), [c.level, b] + more, rest);
      StringRoundTrip(c.protocolName, ([c.level, b] + more) + rest);
      NoWillFlag(SerializedConnect(c) + rest, b);
    }
  }

  lemma NoWillFlag(bs: Str, b: byte)
    requires HasFlags(bs, b) && !Bit(b, 4)
    ensures ConnectOf(bs).Ok? ==> ConnectOf(bs).value.will == None
  {
    var r3 := StringOf(bs).rest[1..][1..];
    if ConnectOf(bs).Ok? {
      assert ConnectPayloadOf(Uint16(r3).rest, b).Ok?;
    }
  }

  // ---------------------------------------------------------------- UNSUBSCRIBE

  function NamesBytes(names: seq<Named>): Str {
    if names == [] then [] else StringBytes(names[0].filter) + NamesBytes(names[1..])
  }

  function NamesLength(names: seq<Named>): nat {
    if names == [] then 0 else NamedLength(names[0]) + NamesLength(names[1..])
  }

  function UnsubscribeBody(u: Unsubscribe): Str {
    Uint16Bytes(u.packetId) + NamesBytes(u.filters)
  }

  predicate DecodableNamed(n: Named) {
    n.filter != [] && Text(n.filter) && n.wild == HasWildcard(n.filter)
  }

  lemma {:induction false} NamesBytesLength(names: seq<Named>)
    requires forall i :: 0 <= i < |names| ==> |names[i].filter| < 0x1_0000
    ensures |NamesBytes(names)| == NamesLength(names)
  {
    if names != [] { NamesBytesLength(names[1..]); }
  }

  lemma NamedRoundTrip(n: Named, rest: Str)
    requires DecodableNamed(n)
    ensures NamedOf(StringBytes(n.filter) + rest) == Ok(n, rest)
  {
    StringRoundTrip(n.filter, rest);
  }

  lemma {:induction false} NamesRoundTrip(names: seq<Named>)
    requires forall i :: 0 <= i < |names| ==> DecodableNamed(names[i])
    ensures FiltersOf(NamesBytes(names), NamesLength(names)) == Ok(names, [])
  {
    if names != [] {
      var n, tail := names[0], names[1..];
      assert [n] + tail == names;
      NamesRoundTrip(tail);
      NamesCons(n, tail);
      NamedRoundTrip(n, NamesBytes(tail));
      FiltersStep(NamesBytes(names), NamesLength(names), n, NamesBytes(tail));
    }
  }

  /** Any number of filters, valid or not, in order, and each marked for the table it belongs to. */
  lemma UnsubscribeRoundTrip(u: Unsubscribe, rest: Str)
    requires u.filters != [] && forall i :: 0 <= i < |u.filters| ==> DecodableNamed(u.filters[i])
    ensures UnsubscribeOf(Header(UNSUBSCRIBE, 2, 2 + NamesLength(u.filters)), UnsubscribeBody(u) + rest) == Ok(u, rest)
  {
    UnsubscribeAlone(u);
    UnsubscribeExtend(Header(UNSUBSCRIBE, 2, 2 + NamesLength(u.filters)), UnsubscribeBody(u), rest);
    assert [] + rest == rest;
  }

  lemma UnsubscribeAlone(u: Unsubscribe)
    requires u.filters != [] && forall i :: 0 <= i < |u.filters| ==> DecodableNamed(u.filters[i])
    ensures UnsubscribeOf(Header(UNSUBSCRIBE, 2, 2 + NamesLength(u.filters)), UnsubscribeBody(u)) == Ok(u, [])
  {
    WordOfBytes(u.packetId, NamesBytes(u.filters));
    NamesRoundTrip(u.filters);
  }

  // ---------------------------------------------------------------- only these bytes

  /** Between bs and rest stand the bytes e, or more bytes than e has: a decoded string can be shorter than
      what it was decoded from. */
  predicate Spans(bs: Str, e: Str, rest: Str) {
    |bs| - |rest| >= |e| && (|bs| - |rest| == |e| ==> bs == e + rest)
  }

  lemma SpansAppend(a: Str, e1: Str, b: Str, e2: Str, c: Str)
    requires Spans(a, e1, b) && Spans(b, e2, c)
    ensures Spans(a, e1 + e2, c)
  {
    Assoc(e1, e2, c);
  }

  lemma SpansNothing(bs: Str)
    ensures Spans(bs, [], bs)
  {
    assert [] + bs == bs;
  }

  lemma WordOnly(bs: Str)
    requires |bs| >= 2
    ensures bs == Uint16Bytes(Word(bs[0], bs[1])) + bs[2..]
  {
    assert Uint16Bytes(Word(bs[0], bs[1])) == bs[..2];
  }

  lemma StringSlices(bs: Str, s: Str)
    requires |bs| >= 2 && |bs| >= 2 + |s| && |s| == Word(bs[0], bs[1]) && s == bs[2..2 + |s|]
    ensures bs == StringBytes(s) + bs[2 + |s|..]
  {
    var rest := bs[2 + |s|..];
    WordOnly(bs);
    StringBytesFront(s, rest);
    assert bs[2..] == s + rest;
  }

  lemma StringOnly(bs: Str)
    requires StringOf(bs).Ok?
    ensures Text(StringOf(bs).value) && Spans(bs, StringBytes(StringOf(bs).value), StringOf(bs).rest)
  {
    StringConsume(bs);
    CharsAreReadable(Uint16(bs).rest, Uint16(bs).value);
    if |StringOf(bs).value| == Word(bs[0], bs[1]) { StringSlices(bs, StringOf(bs).value); }
  }

  lemma BinaryOnly(bs: Str)
    requires Binary(bs).Ok?
    ensures |Binary(bs).value| < 0x1_0000 && Spans(bs, StringBytes(Binary(bs).value), Binary(bs).rest)
  {
    var len := Word(bs[0], bs[1]);
    WordOnly(bs);
    assert bs == bs[..2] + (bs[2..][..len] + bs[2..][len..]);
    StringBytesFront(bs[2..][..len], bs[2..][len..]);
  }

  lemma WillOnly(qos: byte, retain: bool, bs: Str)
    requires WillOf(qos, retain, bs).Ok?
    ensures var w := WillOf(qos, retain, bs).value;
      Text(w.topic) && |w.message| < 0x1_0000 && Spans(bs, WillBytes(Some(w)), WillOf(qos, retain, bs).rest)
  {
    var r1 := StringOf(bs).rest;
    StringOnly(bs);
    BinaryOnly(r1);
    SpansAppend(bs, StringBytes(StringOf(bs).value), r1, StringBytes(Binary(r1).value), Binary(r1).rest);
  }

  lemma OptionalWillOnly(present: bool, qos: byte, retain: bool, bs: Str)
    requires Optional(present, WillOf(qos, retain, bs), bs).Ok?
    ensures var p := Optional(present, WillOf(qos, retain, bs), bs);
      && p.value.Some? == present && Spans(bs, WillBytes(p.value), p.rest)
      && (present ==> Text(p.value.value.topic) && |p.value.value.message| < 0x1_0000)
      && (present ==> p.value.value.qos == qos && p.value.value.retain == retain)
  {
    if present { WillOnly(qos, retain, bs); } else { SpansNothing(bs); }
  }

  lemma UserOnly(present: bool, bs: Str)
    requires Optional(present, StringOf(bs), bs).Ok?
    ensures var p := Optional(present, StringOf(bs), bs);
      p.value.Some? == present && Spans(bs, OptionalBytes(p.value), p.rest) && (present ==> Text(p.value.value))
  {
    if present { StringOnly(bs); } else { SpansNothing(bs); }
  }

  lemma PasswordOnly(present: bool, bs: Str)
    requires Optional(present, Binary(bs), bs).Ok?
    ensures var p := Optional(present, Binary(bs), bs);
      p.value.Some? == present && Spans(bs, OptionalBytes(p.value), p.rest)
        && (present ==> |p.value.value| < 0x1_0000)
  {
    if present { BinaryOnly(bs); } else { SpansNothing(bs); }
  }

  lemma SpansFour(a: Str, e1: Str, b: Str, e2: Str, c: Str, e3: Str, d: Str, e4: Str, e: Str)
    requires Spans(a, e1, b) && Spans(b, e2, c) && Spans(c, e3, d) && Spans(d, e4, e)
    ensures Spans(a, e1 + (e2 + (e3 + e4)), e)
  {
    SpansAppend(c, e3, d, e4, e);
    SpansAppend(b, e2, c, e3 + e4, e);
    SpansAppend(a, e1, b, e2 + (e3 + e4), e);
  }

  lemma PayloadOnly(bs: Str, flags: byte)
    requires ConnectPayloadOf(bs, flags).Ok?
    ensures var c := ConnectPayloadOf(bs, flags).value;
      && Text(c.clientId) && (c.username.Some? ==> Text(c.username.value)) && Fitting(flags, c)
      && (c.password.Some? ==> |c.password.value| < 0x1_0000)
      && (c.will.Some? ==> Text(c.will.value.topic) && |c.will.value.message| < 0x1_0000)
      && Spans(bs, ConnectPayloadBytes(c), ConnectPayloadOf(bs, flags).rest)
  {
    var c, r1 := ConnectPayloadOf(bs, flags).value, StringOf(bs).rest;
    var will := Optional(Bit(flags, 4), WillOf((flags / 8) % 4, Bit(flags, 0x20), r1), r1);
    var user := Optional(Bit(flags, 0x80), StringOf(will.rest), will.rest);
    var pass := Optional(Bit(flags, 0x40), Binary(user.rest), user.rest);
    StringOnly(bs);
    OptionalWillOnly(Bit(flags, 4), (flags / 8) % 4, Bit(flags, 0x20), r1);
    UserOnly(Bit(flags, 0x80), will.rest);
    PasswordOnly(Bit(flags, 0x40), user.rest);
    SpansFour(bs, StringBytes(c.clientId), r1, WillBytes(c.will), will.rest, OptionalBytes(c.username), user.rest,
      OptionalBytes(c.password), pass.rest);
  }

  /** A CONNECT that is taken is legal, and its bytes are its encoding, unless some string in it lost bytes. */
  lemma ConnectOnly(bs: Str)
    requires ConnectOf(bs).Ok?
    ensures SendableConnect(ConnectOf(bs).value) && Spans(bs, ConnectBody(ConnectOf(bs).value), ConnectOf(bs).rest)
  {
    var c, r1 := ConnectOf(bs).value, StringOf(bs).rest;
    var flags, r4 := r1[1], r1[2..][2..];
    StringOnly(bs);
    assert r1[1..][1..] == r1[2..] && r1[1..][0] == flags && r1 == [c.level, flags] + r1[2..];
    WordOnly(r1[2..]);
    PayloadOnly(r4, flags);
    FlagsOfDecoded(c, flags);
    SpansFour(bs, StringBytes(c.protocolName), r1, [c.level, flags], r1[2..], Uint16Bytes(c.keepAlive), r4,
      ConnectPayloadBytes(PayloadOf(c)), ConnectOf(bs).rest);
  }

  lemma FlagsOfDecoded(c: Connect, b: byte)
    requires ConnectFlagsOk(b) && Fitting(b, PayloadOf(c)) && Bit(b, 2) == c.clean
    ensures FlagsOf(c).qos <= 2 && FlagByte(FlagsOf(c)) == b
  {
    BitsOfByte(b);
  }

  lemma FlagsOfByte(f: byte)
    requires f < 16
    ensures f == FlagBits((f / 8) % 2 != 0, (f / 2) % 4, f % 2 != 0)
  {
  }

  lemma WholePayload(p: Publish, remaining: nat, bs: Str)
    requires PublishPayload(p, remaining, bs).Ok? && PublishPayload(p, remaining, bs).rest == []
    ensures PublishPayload(p, remaining, bs).value == p.(payload := bs) && |bs| == remaining - HeaderLength(p)
  {
    assert bs[..|bs|] == bs;
  }

  /** A PUBLISH whose flags are given. */
  function PublishWith(p: Publish, remaining: nat, bs: Str): Parsed<Publish> {
    var (topic, r1) :- StringOf(bs);
    if !PublishableTopic(topic) then Malformed
    else
      var (id, r2) :- (if p.qos == 0 then Ok(0, r1) else Uint16(r1));
      PublishPayload(p.(topic := topic, packetId := id), remaining, r2)
  }

  function FlaggedPublish(f: byte): Publish {
    Publish(f, (f / 8) % 2 != 0, (f / 2) % 4, f % 2 != 0, [], 0, [])
  }

  lemma PublishSplits(h: Header, bs: Str)
    requires PublishOf(h, bs).Ok?
    ensures var p := FlaggedPublish(h.flags);
      PublishOf(h, bs) == PublishWith(p, h.remaining, bs) && p.qos <= 2 && (p.qos == 0 ==> !p.dup)
  {
  }

  lemma PublishParts(p: Publish, remaining: nat, bs: Str)
    requires PublishWith(p, remaining, bs).Ok? && PublishWith(p, remaining, bs).rest == [] && p.qos <= 2
    ensures var q := PublishWith(p, remaining, bs).value;
      && StringOf(bs).Ok? && PublishableTopic(q.topic) && StringOf(bs).rest == IdBytes(q) + q.payload
      && q == p.(topic := StringOf(bs).value, packetId := q.packetId, payload := q.payload)
      && (q.qos == 0 ==> q.packetId == 0) && |q.payload| == remaining - HeaderLength(q)
  {
    var r1 := StringOf(bs).rest;
    var id, r2 := if p.qos == 0 then 0 else Word(r1[0], r1[1]), if p.qos == 0 then r1 else r1[2..];
    WholePayload(p.(topic := StringOf(bs).value, packetId := id), remaining, r2);
    if p.qos == 0 { assert [] + r1 == r1; } else { WordOnly(r1); }
  }

  lemma PublishOnly(h: Header, bs: Str)
    requires PublishOf(h, bs).Ok? && h.flags < 16 && h.remaining <= 2_097_151 && |bs| == h.remaining
    requires PublishOf(h, bs).rest == []
    ensures var p := PublishOf(h, bs).value; Sendable(p) && bs == PublishBody(p) && h.flags == p.flags
  {
    PublishSplits(h, bs);
    PublishParts(FlaggedPublish(h.flags), h.remaining, bs);
    FlagsOfByte(h.flags);
    StringOnly(bs);
  }

  lemma ItemOnly(bs: Str)
    requires ItemOf(bs).Ok?
    ensures DecodableItem(ItemOf(bs).value) && Spans(bs, ItemBytes(ItemOf(bs).value), ItemOf(bs).rest)
  {
    var i, rest, r1 := ItemOf(bs).value, ItemOf(bs).rest, StringOf(bs).rest;
    StringOnly(bs);
    if i.qos == FAILURE { SpansNothing(r1); }
    SpansAppend(bs, StringBytes(i.filter), r1, if i.qos == FAILURE then [] else [i.qos], rest);
  }

  lemma {:induction false} ItemsOnly(bs: Str, remain: int)
    requires ItemsOf(bs, remain).Ok?
    ensures var items := ItemsOf(bs, remain).value;
      && (forall i :: 0 <= i < |items| ==> DecodableItem(items[i])) && ItemsLength(items) >= remain
      && Spans(bs, ItemsBytes(items), ItemsOf(bs, remain).rest)
    decreases remain
  {
    SpansNothing(bs);
    if remain > 0 {
      var i, r := ItemOf(bs).value, ItemOf(bs).rest;
      ItemOnly(bs);
      ItemsStep(bs, remain, i, r);
      ItemsOnly(r, remain - ItemLength(i));
      var tail := ItemsOf(r, remain - ItemLength(i)).value;
      assert ([i] + tail)[1..] == tail;
      SpansAppend(bs, ItemBytes(i), r, ItemsBytes(tail), ItemsOf(bs, remain).rest);
    }
  }

  lemma NamedOnly(bs: Str)
    requires NamedOf(bs).Ok?
    ensures DecodableNamed(NamedOf(bs).value) && Spans(bs, StringBytes(NamedOf(bs).value.filter), NamedOf(bs).rest)
  {
    StringOnly(bs);
  }

  lemma NamesCons(n: Named, tail: seq<Named>)
    ensures NamesBytes([n] + tail) == StringBytes(n.filter) + NamesBytes(tail)
    ensures NamesLength([n] + tail) == NamedLength(n) + NamesLength(tail)
  {
    assert ([n] + tail)[1..] == tail;
  }

  ghost predicate NamesSpan(bs: Str, names: seq<Named>, rest: Str) {
    (forall i :: 0 <= i < |names| ==> DecodableNamed(names[i])) && Spans(bs, NamesBytes(names), rest)
  }

  lemma NamesSpanMore(bs: Str, n: Named, r: Str, tail: seq<Named>, rest: Str)
    requires DecodableNamed(n) && Spans(bs, StringBytes(n.filter), r) && NamesSpan(r, tail, rest)
    ensures NamesSpan(bs, [n] + tail, rest)
  {
    NamesCons(n, tail);
    SpansAppend(bs, StringBytes(n.filter), r, NamesBytes(tail), rest);
  }

  lemma {:induction false} NamesOnly(bs: Str, remain: int)
    requires FiltersOf(bs, remain).Ok?
    ensures var names := FiltersOf(bs, remain).value;
      NamesLength(names) >= remain && NamesSpan(bs, names, FiltersOf(bs, remain).rest)
    decreases remain
  {
    SpansNothing(bs);
    if remain > 0 {
      var n, r := NamedOf(bs).value, NamedOf(bs).rest;
      var tail := FiltersOf(r, remain - NamedLength(n));
      FiltersStep(bs, remain, n, r);
      NamesOnly(r, remain - NamedLength(n));
      NamedOnly(bs);
      NamesCons(n, tail.value);
      NamesSpanMore(bs, n, r, tail.value, tail.rest);
    }
  }

  lemma {:induction false} CodesOnly(bs: Str, n: int)
    requires CodesOf(bs, n).Ok?
    ensures var codes := CodesOf(bs, n).value;
      && bs == codes + CodesOf(bs, n).rest && (forall c :: c in codes ==> ReturnCode(c))
      && |codes| == if n < 0 then 0 else n
    decreases n
  {
    if n > 0 { CodesOnly(bs[1..], n - 1); }
  }

  lemma WordThen(bs: Str, e: Str)
    requires |bs| >= 2 && Spans(bs[2..], e, []) && |bs| <= 2 + |e|
    ensures bs == Uint16Bytes(Word(bs[0], bs[1])) + e
  {
    WordOnly(bs);
    assert e + [] == e;
  }

  lemma SubscribeParts(h: Header, bs: Str)
    requires SubscribeOf(h, bs).Ok?
    ensures |bs| >= 2 && var q, items := SubscribeOf(h, bs).value, ItemsOf(bs[2..], h.remaining - 2);
      items.Ok? && q.packetId == Word(bs[0], bs[1]) && q.items == items.value != []
        && SubscribeOf(h, bs).rest == items.rest
  {
  }

  lemma SubscribeOnly(h: Header, bs: Str)
    requires SubscribeOf(h, bs).Ok? && SubscribeOf(h, bs).rest == [] && |bs| == h.remaining
    ensures var q := SubscribeOf(h, bs).value;
      q.items != [] && (forall i :: 0 <= i < |q.items| ==> DecodableItem(q.items[i]))
        && bs == Uint16Bytes(q.packetId) + ItemsBytes(q.items)
  {
    SubscribeParts(h, bs);
    ItemsOnly(bs[2..], h.remaining - 2);
    ItemsBytesLength(SubscribeOf(h, bs).value.items);
    WordThen(bs, ItemsBytes(SubscribeOf(h, bs).value.items));
  }

  lemma UnsubscribeParts(h: Header, bs: Str)
    requires UnsubscribeOf(h, bs).Ok?
    ensures |bs| >= 2 && var q, names := UnsubscribeOf(h, bs).value, FiltersOf(bs[2..], h.remaining - 2);
      names.Ok? && q.packetId == Word(bs[0], bs[1]) && q.filters == names.value != []
        && UnsubscribeOf(h, bs).rest == names.rest
  {
  }

  lemma UnsubscribeOnly(h: Header, bs: Str)
    requires UnsubscribeOf(h, bs).Ok? && UnsubscribeOf(h, bs).rest == [] && |bs| == h.remaining
    ensures var q := UnsubscribeOf(h, bs).value;
      q.filters != [] && (forall i :: 0 <= i < |q.filters| ==> DecodableNamed(q.filters[i]))
        && bs == UnsubscribeBody(q)
  {
    UnsubscribeParts(h, bs);
    NamesOnly(bs[2..], h.remaining - 2);
    NamesBytesLength(UnsubscribeOf(h, bs).value.filters);
    WordThen(bs, NamesBytes(UnsubscribeOf(h, bs).value.filters));
  }

  lemma ConnectWhole(bs: Str)
    requires ConnectOf(bs).Ok? && ConnectOf(bs).rest == []
    ensures var c := ConnectOf(bs).value;
      && SendableConnect(c) && |ConnectBody(c)| <= |bs| && (|ConnectBody(c)| == |bs| ==> bs == ConnectBody(c))
  {
    ConnectOnly(bs);
    assert ConnectBody(ConnectOf(bs).value) + [] == ConnectBody(ConnectOf(bs).value);
  }
}
