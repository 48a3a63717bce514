/**
  The fixed header of a control packet: remaining-length bytes, length-prefixed strings and
  binary data. Pure parsers say what the cursor methods of the source compute; the methods
  over `StreamBuf` are proved against them.
 */
module FixedHeader {
  import opened Basics

  /** A parse of a byte sequence: a value and the unread bytes, `not_enough_error`, or `mqtt_error`. */
  datatype Parsed<+T> = Ok(value: T, rest: Str) | NotEnough | Malformed {
    predicate IsFailure() { !Ok? }
    function PropagateFailure<U>(): Parsed<U>
      requires IsFailure()
    {
      if NotEnough? then NotEnough else Malformed
    }
    function Extract(): (T, Str)
      requires Ok?
    {
      (value, rest)
    }
  }

  /** What a cursor method returns; the cursor itself holds the unread bytes. */
  datatype Outcome<+T> = Value(value: T) | Short | Bad {
    predicate IsFailure() { !Value? }
    function PropagateFailure<U>(): Outcome<U>
      requires IsFailure()
    {
      if Short? then Short else Bad
    }
    function Extract(): T
      requires Value?
    {
      value
    }
  }

  /** The cursor method's result r, leaving `unread`, is the parse p. */
  predicate Agrees<T(==)>(p: Parsed<T>, r: Outcome<T>, unread: Str) {
    match p
    case Ok(v, rest) => r == Value(v) && unread == rest
    case NotEnough => r.Short?
    case Malformed => r.Bad?
  }

  // ---------------------------------------------------------------- pure parsers

  function Uint8(bs: Str): (p: Parsed<byte>)
    ensures p.Ok? ==> |p.rest| < |bs|
  {
    if bs == [] then NotEnough else Ok(bs[0], bs[1..])
  }

  /** Two bytes, the high one first. */
  function Word(high: byte, low: byte): uint16 { 0x100 * (high as int) + (low as int) }

  function Uint16(bs: Str): (p: Parsed<uint16>)
    ensures p.Ok? ==> |p.rest| < |bs|
  {
    if |bs| < 2 then NotEnough else Ok(Word(bs[0], bs[1]), bs[2..])
  }

  function Uint16Bytes(n: uint16): (s: Str)
    ensures |s| == 2
  {
    [n / 0x100, n % 0x100]
  }

  /** Remaining length from its k-th byte on: at most three bytes are accepted. */
  function RemainingLength(bs: Str, k: nat): (p: Parsed<nat>)
    requires k <= 3
    ensures p.Ok? ==> |p.rest| < |bs|
    decreases |bs|
  {
    if bs == [] then NotEnough
    else if k == 3 then Malformed
    else if bs[0] < 0x80 then Ok(bs[0], bs[1..])
    else
      var (high, rest) :- RemainingLength(bs[1..], k + 1);
      Ok(bs[0] - 0x80 + 0x80 * high, rest)
  }

  function RemainingLengthBytes(n: nat): (s: Str)
    ensures |s| >= 1
  {
    if n < 0x80 then [n] else [n % 0x80 + 0x80] + RemainingLengthBytes(n / 0x80)
  }

  /** How many bytes the decoder takes for a character with this lead byte. */
  function CharLen(lead: byte): nat {
    if lead <= 0x7F then 1 else if lead <= 0xDF then 2 else if lead <= 0xEF then 3
    else if lead <= 0xF7 then 4 else 1
  }

  function Prepend<T>(s: seq<T>, p: Parsed<seq<T>>): Parsed<seq<T>> {
    match p
    case Ok(v, rest) => Ok(s + v, rest)
    case NotEnough => NotEnough
    case Malformed => Malformed
  }

  lemma PrependEmpty(p: Parsed<Str>)
    ensures Prepend([], p) == p
  {
    if p.Ok? { assert [] + p.value == p.value; }
  }

  lemma PrependTwice(a: Str, b: Str, p: Parsed<Str>)
    ensures Prepend(a, Prepend(b, p)) == Prepend(a + b, p)
  {
    if p.Ok? { assert a + (b + p.value) == (a + b) + p.value; }
  }

  /** The bytes of one character: as many as its lead byte asks for, except U+0000 and surrogates. */
  function CharOf(bs: Str): (p: Parsed<Str>)
    ensures p.Ok? ==> |p.value| >= 1 && bs == p.value + p.rest && |p.value| == CharLen(bs[0])
  {
    if bs == [] then NotEnough
    else if bs[0] == 0 then Malformed
    else if bs[0] == 0xED && |bs| >= 2 && bs[1] >= 0xA0 then Malformed
    else if |bs| < CharLen(bs[0]) then NotEnough
    else Ok(bs[..CharLen(bs[0])], bs[CharLen(bs[0])..])
  }

  /** What the decoder stores of a character: a lead byte of 0xF8 or above is skipped. */
  function Stored(c: Str): Str
    requires c != []
  {
    if c[0] > 0xF7 then [] else c
  }

  /** The characters of a string of which `len` bytes are still declared. */
  function Chars(bs: Str, len: nat): (p: Parsed<Str>)
    ensures p.Ok? ==> |p.rest| <= |bs|
    decreases len
  {
    if len == 0 then Ok([], bs)
    else
      var (c, rest) :- CharOf(bs);
      if len < |c| then Malformed else Prepend(Stored(c), Chars(rest, len - |c|))
  }

  /** Reading one character first. */
  lemma CharsCons(bs: Str, len: nat, c: Str, rest: Str)
    requires CharOf(bs) == Ok(c, rest) && c != [] && |c| <= len
    ensures Chars(bs, len) == Prepend(Stored(c), Chars(rest, len - |c|))
  {
  }

  function StringOf(bs: Str): (p: Parsed<Str>)
    ensures p.Ok? ==> |p.rest| < |bs|
  {
    var (len, rest) :- Uint16(bs);
    Chars(rest, len)
  }

  /** The length is cast to 16 bits; `encode_string` throws before a longer string gets here. */
  function StringBytes(s: Str): Str {
    Uint16Bytes(|s| % 0x1_0000) + s
  }

  function Binary(bs: Str): (p: Parsed<Str>)
    ensures p.Ok? ==> |p.rest| < |bs|
  {
    var (len, rest) :- Uint16(bs);
    if |rest| < len then Malformed else Ok(rest[..len], rest[len..])
  }

  const CONNECT := 1
  const CONNACK := 2
  const PUBLISH := 3
  const PUBACK := 4
  const PUBREC := 5
  const PUBREL := 6
  const PUBCOMP := 7
  const SUBSCRIBE := 8
  const SUBACK := 9
  const UNSUBSCRIBE := 10
  const UNSUBACK := 11
  const PINGREQ := 12
  const PINGRESP := 13
  const DISCONNECT := 14

  datatype Header = Header(kind: byte, flags: byte, remaining: nat)

  predicate FlagsOk(kind: byte, flags: byte) {
    if kind == PUBREL || kind == SUBSCRIBE || kind == UNSUBSCRIBE then flags == 2
    else if kind == PUBLISH then (flags / 2) % 4 != 3
    else if 1 <= kind <= 14 then flags == 0
    else true
  }

  function HeaderOf(bs: Str): (p: Parsed<Header>)
    ensures p.Ok? ==> |p.rest| + 2 <= |bs| && p.value.kind < 16 && p.value.flags < 16
  {
    var (b, r1) :- Uint8(bs);
    if !FlagsOk(b / 16, b % 16) then Malformed
    else
      var (n, r2) :- RemainingLength(r1, 0);
      Ok(Header(b / 16, b % 16, n), r2)
  }

  function HeaderBytes(h: Header): Str
    requires h.kind < 16 && h.flags < 16
  {
    [h.kind * 16 + h.flags] + RemainingLengthBytes(h.remaining)
  }

  // ---------------------------------------------------------------- remaining length

  /** Decoding an encoding gives the number back when it takes at most three bytes; every longer
      encoding is rejected, whatever follows. The limit of section 2.2.3 of MQTT 3.1.1 is four bytes. */
  lemma {:induction false} RemainingLengthRoundTrip(n: nat, k: nat, rest: Str)
    requires k <= 3
    ensures RemainingLength(RemainingLengthBytes(n) + rest, k) ==
      if |RemainingLengthBytes(n)| + k <= 3 then Ok(n, rest) else Malformed
    decreases n
  {
    var bs := RemainingLengthBytes(n) + rest;
    if n < 0x80 {
      assert bs[1..] == rest;
    } else {
      if k < 3 {
        RemainingLengthRoundTrip(n / 0x80, k + 1, rest);
        assert bs[1..] == RemainingLengthBytes(n / 0x80) + rest;
      }
    }
  }

  /** The size of an encoding, up to the four bytes `encode_remaining_length` allows. */
  lemma RemainingLengthSize(n: nat)
    requires n <= 0x0FFF_FFFF
    ensures |RemainingLengthBytes(n)| ==
      if n < 0x80 then 1 else if n < 0x4000 then 2 else if n < 0x20_0000 then 3 else 4
  {
    if n >= 0x80 {
      assert |RemainingLengthBytes(n)| == 1 + |RemainingLengthBytes(n / 0x80)|;
      if n >= 0x4000 {
        assert |RemainingLengthBytes(n / 0x80)| == 1 + |RemainingLengthBytes(n / 0x80 / 0x80)|;
        if n >= 0x20_0000 {
          assert |RemainingLengthBytes(n / 0x80 / 0x80)| == 1 + |RemainingLengthBytes(n / 0x80 / 0x80 / 0x80)|;
        }
      }
    }
  }

  /** Exactly the lengths up to 2,097,151 survive a round trip; the larger encodable ones are refused. */
  lemma RemainingLengthAccepted(n: nat, rest: Str)
    requires n <= 0x0FFF_FFFF
    ensures RemainingLength(RemainingLengthBytes(n) + rest, 0) == if n <= 2_097_151 then Ok(n, rest) else Malformed
  {
    RemainingLengthRoundTrip(n, 0, rest);
    RemainingLengthSize(n);
  }

  /** Section 2.2.3: e is some encoding of n, least significant group first, of any length. */
  predicate Encodes(e: Str, n: nat) {
    && |e| >= 1
    && n % 0x80 == e[0] % 0x80
    && if e[0] < 0x80 then |e| == 1 && n < 0x80 else Encodes(e[1..], n / 0x80)
  }

  /** The encoder emits an encoding, and no encoding of the same number is shorter. */
  lemma {:induction false} RemainingLengthMinimal(e: Str, n: nat)
    requires Encodes(e, n)
    ensures Encodes(RemainingLengthBytes(n), n)
    ensures |RemainingLengthBytes(n)| <= |e|
    decreases |e|
  {
    if e[0] >= 0x80 {
      RemainingLengthMinimal(e[1..], n / 0x80);
      if n >= 0x80 {
        assert RemainingLengthBytes(n)[1..] == RemainingLengthBytes(n / 0x80);
      }
    }
  }

  /** Exactly the encodings of at most three bytes are taken, minimal or not. */
  lemma {:induction false} RemainingLengthIff(bs: Str, k: nat, n: nat, rest: Str)
    requires k <= 3
    ensures RemainingLength(bs, k) == Ok(n, rest) <==>
      exists e :: bs == e + rest && Encodes(e, n) && |e| + k <= 3
    decreases |bs|
  {
    if RemainingLength(bs, k) == Ok(n, rest) {
      var e := RemainingLengthTaken(bs, k);
    }
    if e :| bs == e + rest && Encodes(e, n) && |e| + k <= 3 { EncodingTaken(e, k, n, rest); }
  }

  lemma {:induction false} RemainingLengthTaken(bs: Str, k: nat) returns (e: Str)
    requires k <= 3 && RemainingLength(bs, k).Ok?
    ensures bs == e + RemainingLength(bs, k).rest && Encodes(e, RemainingLength(bs, k).value) && |e| + k <= 3
    ensures RemainingLength(bs, k).value < if k == 0 then 0x20_0000 else if k == 1 then 0x4000 else 0x80
    decreases |bs|
  {
    if bs[0] < 0x80 {
      e := [bs[0]];
    } else {
      var t := RemainingLengthTaken(bs[1..], k + 1);
      e := [bs[0]] + t;
      assert e[1..] == t;
      assert bs == [bs[0]] + bs[1..];
      EncodesMore(bs[0], t, RemainingLength(bs[1..], k + 1).value);
    }
  }

  lemma EncodesMore(b: byte, t: Str, high: nat)
    requires b >= 0x80 && Encodes(t, high)
    ensures Encodes([b] + t, b - 0x80 + 0x80 * high)
  {
    assert ([b] + t)[1..] == t;
  }

  lemma {:induction false} EncodingTaken(e: Str, k: nat, n: nat, rest: Str)
    requires Encodes(e, n) && |e| + k <= 3
    ensures RemainingLength(e + rest, k) == Ok(n, rest)
    decreases |e|
  {
    var bs := e + rest;
    assert bs[1..] == e[1..] + rest;
    if e[0] < 0x80 {
      assert e == [e[0]];
    } else {
      EncodingTaken(e[1..], k + 1, n / 0x80, rest);
    }
  }

  /** Which first bytes are taken, in any packet. */
  predicate FirstByteTaken(b: byte) {
    || b < 0x10 || b == 0x10 || b == 0x20 || (0x30 <= b <= 0x3F && b != 0x36 && b != 0x37 && b != 0x3E && b != 0x3F)
    || b == 0x40 || b == 0x50 || b == 0x62 || b == 0x70 || b == 0x82 || b == 0x90 || b == 0xA2 || b == 0xB0 || b == 0xC0
    || b == 0xD0 || b == 0xE0 || b >= 0xF0
  }

  lemma HeaderCons(b: byte, more: Str)
    ensures var n := RemainingLength(more, 0);
      HeaderOf([b] + more) ==
        if !FlagsOk(b / 16, b % 16) then Malformed
        else match n
          case Ok(v, rest) => Ok(Header(b / 16, b % 16, v), rest)
          case NotEnough => NotEnough
          case Malformed => Malformed
  {
    assert ([b] + more)[1..] == more;
  }

  lemma HeaderTaken(bs: Str, h: Header, rest: Str) returns (e: Str)
    requires HeaderOf(bs) == Ok(h, rest)
    ensures bs == [h.kind * 16 + h.flags] + (e + rest) && Encodes(e, h.remaining) && |e| <= 3
    ensures FlagsOk(h.kind, h.flags)
  {
    e := RemainingLengthTaken(bs[1..], 0);
    assert bs == [bs[0]] + bs[1..];
  }

  /** Exactly which fixed headers are taken: type and flags as section 2.2 of MQTT 3.1.1 has them, or a
      reserved type, and up to three bytes of remaining length. */
  lemma HeaderIff(bs: Str, h: Header, rest: Str)
    requires h.kind < 16 && h.flags < 16
    ensures HeaderOf(bs) == Ok(h, rest) <==>
      && FirstByteTaken(h.kind * 16 + h.flags)
      && exists e :: bs == [h.kind * 16 + h.flags] + (e + rest) && Encodes(e, h.remaining) && |e| <= 3
  {
    FlagsTaken(h.kind, h.flags);
    if HeaderOf(bs) == Ok(h, rest) {
      var e := HeaderTaken(bs, h, rest);
    }
    if e :| bs == [h.kind * 16 + h.flags] + (e + rest) && Encodes(e, h.remaining) && |e| <= 3 {
      HeaderMade(h, e, rest);
    }
  }

  lemma TypeAndFlags(kind: byte, flags: byte)
    requires kind < 16 && flags < 16
    ensures (kind * 16 + flags) / 16 == kind && (kind * 16 + flags) % 16 == flags
  {
  }

  lemma HeaderMadeOf(b: byte, kind: byte, flags: byte, e: Str, n: nat, rest: Str)
    requires b / 16 == kind && b % 16 == flags && Encodes(e, n) && |e| <= 3
    ensures HeaderOf([b] + (e + rest)) == if FlagsOk(kind, flags) then Ok(Header(kind, flags, n), rest) else Malformed
  {
    EncodingTaken(e, 0, n, rest);
    HeaderCons(b, e + rest);
  }

  lemma HeaderMade(h: Header, e: Str, rest: Str)
    requires h.kind < 16 && h.flags < 16 && Encodes(e, h.remaining) && |e| <= 3
    ensures HeaderOf([h.kind * 16 + h.flags] + (e + rest)) ==
      if FlagsOk(h.kind, h.flags) then Ok(h, rest) else Malformed
  {
    TypeAndFlags(h.kind, h.flags);
    HeaderMadeOf(h.kind * 16 + h.flags, h.kind, h.flags, e, h.remaining, rest);
  }

  lemma FlagsTaken(kind: byte, flags: byte)
    requires kind < 16 && flags < 16
    ensures FlagsOk(kind, flags) <==> FirstByteTaken(kind * 16 + flags)
  {
  }

  lemma HeaderLimits(f: Str)
    requires HeaderOf(f).Ok?
    ensures var h := HeaderOf(f).value; FlagsOk(h.kind, h.flags) && h.remaining <= 2_097_151
  {
    var e := RemainingLengthTaken(f[1..], 0);
  }

  // ---------------------------------------------------------------- strings

  predicate Tail(c: byte) { 0x80 <= c <= 0xBF }

  /** Length of the well-formed UTF-8 character at the head of s (section 4 of RFC 3629), or 0. */
  function CharSize(s: Str): (n: nat)
    ensures n <= |s|
    ensures n > 0 ==> n == CharLen(s[0])
  {
    if s == [] then 0
    else if s[0] <= 0x7F then 1
    else if 0xC2 <= s[0] <= 0xDF then (if |s| >= 2 && Tail(s[1]) then 2 else 0)
    else if 0xE0 <= s[0] <= 0xEF then
      (if |s| >= 3 && Tail(s[1]) && Tail(s[2]) && (s[0] == 0xE0 ==> s[1] >= 0xA0) && (s[0] == 0xED ==> s[1] <= 0x9F)
        then 3 else 0)
    else if 0xF0 <= s[0] <= 0xF4 then
      (if |s| >= 4 && Tail(s[1]) && Tail(s[2]) && Tail(s[3]) && (s[0] == 0xF0 ==> s[1] >= 0x90)
        && (s[0] == 0xF4 ==> s[1] <= 0x8F) then 4 else 0)
    else 0
  }

  predicate Utf8(s: Str)
    decreases |s|
  {
    s == [] || (CharSize(s) > 0 && Utf8(s[CharSize(s)..]))
  }

  /** One well-formed character of s, read in front of any other bytes. */
  lemma CharOfWellFormed(s: Str, rest: Str)
    requires CharSize(s) > 0 && s[0] != 0
    ensures CharOf(s + rest) == Ok(s[..CharSize(s)], s[CharSize(s)..] + rest) && s[0] <= 0xF7
  {
    var n := CharSize(s);
    var bs := s + rest;
    assert bs[0] == s[0] && (n >= 2 ==> bs[1] == s[1]);
    assert bs[..n] == s[..n] && bs[n..] == s[n..] + rest;
  }

  lemma {:induction false} CharsRoundTrip(s: Str, rest: Str)
    requires Utf8(s) && 0 !in s
    ensures Chars(s + rest, |s|) == Ok(s, rest)
    decreases |s|
  {
    if s == [] {
      assert s + rest == rest;
    } else {
      var c, t := s[..CharSize(s)], s[CharSize(s)..];
      assert s == c + t;
      CharOfWellFormed(s, rest);
      CharsRoundTrip(t, rest);
      CharsCons(s + rest, |s|, c, t + rest);
    }
  }

  lemma WordOfBytes(n: uint16, rest: Str)
    ensures Uint16(Uint16Bytes(n) + rest) == Ok(n, rest)
  {
    assert (Uint16Bytes(n) + rest)[2..] == rest;
  }

  lemma StringOfLength(n: uint16, body: Str)
    ensures StringOf(Uint16Bytes(n) + body) == Chars(body, n)
  {
    WordOfBytes(n, body);
  }

  lemma StringBytesWhole(s: Str)
    requires |s| < 0x1_0000
    ensures StringBytes(s) == Uint16Bytes(|s|) + s
  {
    assert |s| % 0x1_0000 == |s|;
  }

  lemma StringBytesFront(s: Str, rest: Str)
    requires |s| < 0x1_0000
    ensures StringBytes(s) == Uint16Bytes(|s|) + s
    ensures StringBytes(s) + rest == Uint16Bytes(|s|) + (s + rest)
  {
    StringBytesWhole(s);
    Assoc(Uint16Bytes(|s|), s, rest);
  }

  /** A string the decoder gives back unchanged: well-formed UTF-8, and whatever else it lets pass. */
  predicate Readable(s: Str) {
    Chars(s, |s|) == Ok(s, [])
  }

  lemma Utf8IsReadable(s: Str)
    requires Utf8(s) && 0 !in s
    ensures Readable(s)
  {
    CharsRoundTrip(s, []);
    assert s + [] == s;
  }

  lemma {:induction false} AsciiIsUtf8(s: Str)
    requires forall i :: 0 <= i < |s| ==> s[i] <= 0x7F
    ensures Utf8(s)
  {
    if s != [] { AsciiIsUtf8(s[1..]); }
  }

  lemma StringRoundTripOf(s: Str, rest: Str, all: Str)
    requires Readable(s) && |s| < 0x1_0000
    requires all == Uint16Bytes(|s|) + (s + rest)
    ensures StringOf(all) == Ok(s, rest)
  {
    StringOfLength(|s|, s + rest);
    CharsExtend(s, |s|, rest);
    assert [] + rest == rest;
  }

  /** `decode_string` inverts `encode_string` on every string it can return, well-formed UTF-8 or not. */
  lemma StringRoundTrip(s: Str, rest: Str)
    requires Readable(s) && |s| < 0x1_0000
    ensures StringOf(StringBytes(s) + rest) == Ok(s, rest)
  {
    StringBytesFront(s, rest);
    StringRoundTripOf(s, rest, StringBytes(s) + rest);
  }

  lemma NoNullInChar(s: Str)
    requires CharSize(s) > 0 && s[0] != 0
    ensures 0 !in s[..CharSize(s)]
  {
  }

  lemma CharOfHead(s: Str)
    requires CharSize(s) > 0 && s[0] != 0
    ensures CharOf(s) == Ok(s[..CharSize(s)], s[CharSize(s)..])
  {
    CharOfWellFormed(s, []);
    assert s + [] == s && s[CharSize(s)..] + [] == s[CharSize(s)..];
  }

  lemma NullLater(s: Str)
    requires CharSize(s) > 0 && s[0] != 0 && Chars(s[CharSize(s)..], |s| - CharSize(s)) == Malformed
    ensures Chars(s, |s|) == Malformed
  {
    CharOfHead(s);
    CharsCons(s, |s|, s[..CharSize(s)], s[CharSize(s)..]);
  }

  lemma {:induction false} NullUnread(s: Str)
    requires Utf8(s) && 0 in s
    ensures Chars(s, |s|) == Malformed
    decreases |s|
  {
    if s[0] != 0 {
      var t := s[CharSize(s)..];
      assert s == s[..CharSize(s)] + t;
      NoNullInChar(s);
      NullUnread(t);
      NullLater(s);
    }
  }

  /** Of well-formed UTF-8, exactly the strings without U+0000 are read. */
  lemma Utf8ReadableIff(s: Str)
    requires Utf8(s)
    ensures Readable(s) <==> 0 !in s
  {
    if 0 in s { NullUnread(s); } else { Utf8IsReadable(s); }
  }

  /** The bytes of a character do not depend on what follows them. */
  lemma CharOfSame(c: Str, x: Str, y: Str)
    requires CharOf(c + x) == Ok(c, x)
    ensures CharOf(c + y) == Ok(c, y)
  {
    var n := |c|;
    assert (c + x)[0] == c[0] == (c + y)[0] && (n >= 2 ==> (c + x)[1] == c[1] == (c + y)[1]);
    assert (c + y)[..n] == c && (c + y)[n..] == y;
  }

  lemma {:induction false} CharsAreReadable(bs: Str, len: nat)
    requires Chars(bs, len).Ok?
    ensures Readable(Chars(bs, len).value)
    decreases len
  {
    if len > 0 {
      var c, rest := CharOf(bs).value, CharOf(bs).rest;
      CharsAreReadable(rest, len - |c|);
      var v := Chars(rest, len - |c|).value;
      if c[0] > 0xF7 {
        assert Stored(c) + v == v;
      } else {
        CharOfSame(c, rest, v);
        CharsCons(c + v, |c + v|, c, v);
      }
    }
  }

  lemma ReadableRest(s: Str)
    requires Readable(s) && s != []
    ensures var n := CharLen(s[0]); n <= |s| && s[0] <= 0xF7 && Readable(s[n..]) && CharOf(s) == Ok(s[..n], s[n..])
  {
    var c, t := CharOf(s).value, CharOf(s).rest;
    CharsConsume(t, |s| - |c|);
    assert t[|s| - |c|..] == [] && t[..|s| - |c|] == t;
  }

  /** A readable string is read, whatever comes behind it; and then what comes behind it. */
  lemma {:induction false} CharsThen(s: Str, more: Str, n: nat)
    requires Readable(s) && n >= |s|
    ensures Chars(s + more, n) == Prepend(s, Chars(more, n - |s|))
    decreases |s|
  {
    if s == [] {
      assert s + more == more;
      PrependEmpty(Chars(more, n));
    } else {
      var k := CharLen(s[0]);
      ReadableRest(s);
      var c, t := s[..k], s[k..];
      assert s == c + t && s + more == c + (t + more);
      CharOfSame(c, t, t + more);
      CharsThen(t, more, n - k);
      CharsCons(s + more, n, c, t + more);
      PrependTwice(c, t, Chars(more, n - |s|));
    }
  }

  /** Bytes that no string goes on with: U+0000, and the first two bytes of a surrogate. */
  predicate BadChar(bs: Str) {
    bs != [] && (bs[0] == 0 || (|bs| >= 2 && bs[0] == 0xED && bs[1] >= 0xA0))
  }

  /** How the reading of a string goes on, or stops. U+0000, a surrogate, and a character across the declared
      end are refused; a character that has not arrived is waited for; any other is read, and a byte of 0xF8
      or above is passed over. */
  lemma StringGoesOn(s: Str, more: Str, n: uint16)
    requires Readable(s) && n > |s| && more != []
    ensures var k, r := CharLen(more[0]), StringOf(Uint16Bytes(n) + (s + more));
      if BadChar(more) then r == Malformed
      else if k > |more| then r == NotEnough
      else if n < |s| + k then r == Malformed
      else if more[0] <= 0xF7 then Readable(s + more[..k])
      else r == StringOf(Uint16Bytes(n - 1) + (s + more[1..]))
  {
    if more[0] > 0xF7 {
      BytePassedOver(s, more, n);
    } else {
      StringThen(s, more, n);
      if !BadChar(more) && CharLen(more[0]) <= |more| { CharRead(s, more); }
    }
  }

  lemma SameBehind(s: Str, a: Str, n: uint16, b: Str, m: uint16)
    requires Readable(s) && n >= |s| && m >= |s| && Chars(a, n - |s|) == Chars(b, m - |s|)
    ensures StringOf(Uint16Bytes(n) + (s + a)) == StringOf(Uint16Bytes(m) + (s + b))
  {
    StringThen(s, a, n);
    StringThen(s, b, m);
  }

  lemma BytePassedOver(s: Str, more: Str, n: uint16)
    requires Readable(s) && n > |s| && more != [] && more[0] > 0xF7
    ensures StringOf(Uint16Bytes(n) + (s + more)) == StringOf(Uint16Bytes(n - 1) + (s + more[1..]))
  {
    PassedOver(more, n - |s|);
    SameBehind(s, more, n, more[1..], n - 1);
  }

  lemma CharRead(s: Str, more: Str)
    requires Readable(s) && more != [] && !BadChar(more) && CharLen(more[0]) <= |more| && more[0] <= 0xF7
    ensures Readable(s + more[..CharLen(more[0])])
  {
    var c, t := more[..CharLen(more[0])], more[CharLen(more[0])..];
    assert more == c + t && c + [] == c;
    CharOfSame(c, t, []);
    CharsCons(c, |c|, c, []);
    CharsThen(s, c, |s| + |c|);
  }

  lemma PassedOver(more: Str, n: nat)
    requires n > 0 && more != [] && more[0] > 0xF7
    ensures Chars(more, n) == Chars(more[1..], n - 1)
  {
    var c: Str := [more[0]];
    assert more[..1] == c;
    assert CharOf(more) == Ok(c, more[1..]);
    CharsCons(more, n, c, more[1..]);
    PrependEmpty(Chars(more[1..], n - 1));
  }

  lemma StringThen(s: Str, more: Str, n: uint16)
    requires Readable(s) && n >= |s|
    ensures StringOf(Uint16Bytes(n) + (s + more)) == Prepend(s, Chars(more, n - |s|))
  {
    StringOfLength(n, s + more);
    CharsThen(s, more, n);
  }

  /** The decoder counts a character by its lead byte alone: of the other bytes, any value will do, even where
      no character of UTF-8 begins. */
  lemma LooseExamples(b: byte, c: byte, d: byte)
    ensures Readable([0x80, b]) && Readable([0xDF, b]) && Readable([0xE0, b, c]) && Readable([0xEF, b, c])
    ensures Readable([0xF0, b, c, d]) && Readable([0xF7, b, c, d]) && !Readable([0xF8])
  {
    OneChar([0x80, b]);
    OneChar([0xDF, b]);
    OneChar([0xE0, b, c]);
    OneChar([0xEF, b, c]);
    OneChar([0xF0, b, c, d]);
    OneChar([0xF7, b, c, d]);
    PassedOver([0xF8], 1);
  }

  lemma OneChar(s: Str)
    requires s != [] && |s| == CharLen(s[0]) && !BadChar(s) && s[0] <= 0xF7
    ensures Readable(s)
  {
    assert s[..|s|] == s && s[|s|..] == [];
    CharsCons(s, |s|, s, []);
    assert s + [] == s;
  }

  /** Exactly the readable strings are ever decoded. */
  lemma ReadableIffDecoded(s: Str)
    requires |s| < 0x1_0000
    ensures Readable(s) <==> exists bs :: StringOf(bs).Ok? && StringOf(bs).value == s
  {
    if Readable(s) {
      StringRoundTrip(s, []);
    }
    if bs :| StringOf(bs).Ok? && StringOf(bs).value == s {
      CharsAreReadable(Uint16(bs).rest, Uint16(bs).value);
    }
  }

  /** Some character position within the first len bytes holds a byte of 0xF8 or above. */
  predicate SkippedLead(bs: Str, len: nat)
    decreases len
  {
    len > 0 && bs != [] &&
    (bs[0] > 0xF7 || (var n := CharLen(bs[0]); n <= len && n <= |bs| && SkippedLead(bs[n..], len - n)))
  }

  /** On arbitrary bytes a successful decode consumes exactly the declared bytes, and returns them
      unchanged iff no lead byte is skipped; otherwise it returns fewer. */
  lemma {:induction false} CharsConsume(bs: Str, len: nat)
    requires Chars(bs, len).Ok?
    ensures len <= |bs| && Chars(bs, len).rest == bs[len..]
    ensures |Chars(bs, len).value| <= len
    ensures |Chars(bs, len).value| == len <==> !SkippedLead(bs, len)
    ensures |Chars(bs, len).value| == len ==> Chars(bs, len).value == bs[..len]
    decreases len
  {
    if len > 0 {
      var n := CharLen(bs[0]);
      CharsConsume(bs[n..], len - n);
      assert bs[n..][len - n..] == bs[len..];
      assert bs[..n] + bs[n..][..len - n] == bs[..len];
    }
  }

  /** The same for a string with its length field. */
  lemma StringConsume(bs: Str)
    requires StringOf(bs).Ok?
    ensures var len := Word(bs[0], bs[1]);
      && |bs| >= 2 + len && StringOf(bs).rest == bs[2 + len..]
      && |StringOf(bs).value| <= len
      && (|StringOf(bs).value| == len <==> !SkippedLead(bs[2..], len))
      && (|StringOf(bs).value| == len ==> StringOf(bs).value == bs[2..2 + len])
  {
    var len := Word(bs[0], bs[1]);
    CharsConsume(bs[2..], len);
    assert bs[2..][len..] == bs[2 + len..] && bs[2..][..len] == bs[2..2 + len];
  }

  // ---------------------------------------------------------------- more bytes change nothing

  /** A successful decode is not changed by the bytes that arrive later. */
  lemma {:induction false} RemainingLengthExtend(bs: Str, k: nat, x: Str)
    requires k <= 3 && RemainingLength(bs, k).Ok?
    ensures RemainingLength(bs + x, k) == Ok(RemainingLength(bs, k).value, RemainingLength(bs, k).rest + x)
    decreases |bs|
  {
    assert (bs + x)[1..] == bs[1..] + x;
    if bs[0] >= 0x80 { RemainingLengthExtend(bs[1..], k + 1, x); }
  }

  lemma HeaderExtend(bs: Str, x: Str)
    requires HeaderOf(bs).Ok?
    ensures HeaderOf(bs + x) == Ok(HeaderOf(bs).value, HeaderOf(bs).rest + x)
  {
    assert (bs + x)[1..] == bs[1..] + x;
    RemainingLengthExtend(bs[1..], 0, x);
  }

  lemma CharOfExtend(bs: Str, x: Str)
    requires CharOf(bs).Ok?
    ensures CharOf(bs + x) == Ok(CharOf(bs).value, CharOf(bs).rest + x)
  {
    var n := CharLen(bs[0]);
    assert (bs + x)[n..] == bs[n..] + x && (bs + x)[..n] == bs[..n];
    assert n >= 2 ==> (bs + x)[1] == bs[1];
  }

  lemma {:induction false} CharsExtend(bs: Str, len: nat, x: Str)
    requires Chars(bs, len).Ok?
    ensures Chars(bs + x, len) == Ok(Chars(bs, len).value, Chars(bs, len).rest + x)
    decreases len
  {
    if len > 0 {
      CharOfExtend(bs, x);
      CharsExtend(CharOf(bs).rest, len - |CharOf(bs).value|, x);
    }
  }

  lemma StringExtend(bs: Str, x: Str)
    requires StringOf(bs).Ok?
    ensures StringOf(bs + x) == Ok(StringOf(bs).value, StringOf(bs).rest + x)
  {
    assert (bs + x)[2..] == bs[2..] + x;
    CharsExtend(bs[2..], Word(bs[0], bs[1]), x);
  }

  lemma BinaryExtend(bs: Str, x: Str)
    requires Binary(bs).Ok?
    ensures Binary(bs + x) == Ok(Binary(bs).value, Binary(bs).rest + x)
  {
    var len := Word(bs[0], bs[1]);
    assert (bs + x)[2..] == bs[2..] + x;
    assert (bs[2..] + x)[..len] == bs[2..][..len];
    assert (bs[2..] + x)[len..] == bs[2..][len..] + x;
  }

  // ---------------------------------------------------------------- the stream buffer

  /** The network library's buffer: the bytes, a read cursor and a mark to return to. */
  class StreamBuf {
    var buf: Str
    var pos: nat
    var marked: nat

    predicate Valid()
      reads this
    {
      marked <= pos <= |buf|
    }

    function Unread(): Str
      requires Valid()
      reads this
    {
      buf[pos..]
    }

    constructor (bytes: Str)
      ensures Valid() && Unread() == bytes && pos == marked == 0
    {
      buf, pos, marked := bytes, 0, 0;
    }

    method Mark()
      requires Valid()
      modifies this`marked
      ensures Valid() && marked == pos
    {
      marked := pos;
    }

    method Reset()
      requires Valid()
      modifies this`pos
      ensures Valid() && pos == marked
    {
      pos := marked;
    }

    method ReadUint8() returns (r: Outcome<byte>)
      requires Valid()
      modifies this`pos
      ensures Valid() && Agrees(Uint8(old(Unread())), r, Unread())
    {
      if pos == |buf| { return Short; }
      r := Value(buf[pos]);
      pos := pos + 1;
    }

    method ReadUint16() returns (r: Outcome<uint16>)
      requires Valid()
      modifies this`pos
      ensures Valid() && Agrees(Uint16(old(Unread())), r, Unread())
    {
      if |buf| - pos < 2 { return Short; }
      r := Value(Word(buf[pos], buf[pos + 1]));
      pos := pos + 2;
    }

    /** `read`: up to n bytes. */
    method Read(n: nat) returns (bytes: Str)
      requires Valid()
      modifies this`pos
      ensures Valid()
      ensures |bytes| == Min(n, |old(Unread())|)
      ensures old(Unread()) == bytes + Unread()
    {
      var k := Min(n, |buf| - pos);
      bytes := buf[pos..pos + k];
      pos := pos + k;
    }

    /** Bytes arrive from the network, or are written by a serializer. */
    method Append(bytes: Str)
      requires Valid()
      modifies this`buf
      ensures Valid() && buf == old(buf) + bytes && Unread() == old(Unread()) + bytes
    {
      buf := buf + bytes;
    }
  }

  method DecodeRemainingLength(sb: StreamBuf) returns (r: Outcome<nat>)
    requires sb.Valid()
    modifies sb`pos
    ensures sb.Valid() && Agrees(RemainingLength(old(sb.Unread()), 0), r, sb.Unread())
  {
    var length: nat, shift := 0, 0;
    ghost var all := RemainingLength(sb.Unread(), 0);
    while true
      invariant sb.Valid() && 0 <= shift <= 2
      invariant all == Shifted(length, shift, RemainingLength(sb.Unread(), shift))
      decreases 3 - shift
    {
      ghost var before := sb.Unread();
      var encoded :- sb.ReadUint8();
      ShiftStep(all, length, shift, before);
      length := length + ShiftLeft(encoded as int % 0x80, shift);
      shift := shift + 1;
      if encoded < 0x80 { return Value(length); }
      if shift == 3 {
        // the fourth byte takes the shift past 21 bits, whatever it holds
        var fourth :- sb.ReadUint8();
        return Bad;
      }
    }
  }

  lemma ShiftStep(all: Parsed<nat>, low: nat, k: nat, bs: Str)
    requires k <= 2 && bs != [] && all == Shifted(low, k, RemainingLength(bs, k))
    ensures var low' := low + ShiftLeft(bs[0] as int % 0x80, k);
      if bs[0] < 0x80 then all == Ok(low', bs[1..])
      else if k == 2 then all == (if bs[1..] == [] then NotEnough else Malformed)
      else all == Shifted(low', k + 1, RemainingLength(bs[1..], k + 1))
  {
  }

  /** x << 7k */
  function ShiftLeft(x: nat, k: nat): nat {
    if k == 0 then x else if k == 1 then 0x80 * x else 0x4000 * x
  }

  function Shifted(low: nat, k: nat, p: Parsed<nat>): Parsed<nat> {
    match p
    case Ok(v, rest) => Ok(low + ShiftLeft(v, k), rest)
    case NotEnough => NotEnough
    case Malformed => Malformed
  }

  method EncodeRemainingLength(n: nat, sb: StreamBuf) returns (ok: bool)
    requires sb.Valid()
    modifies sb`buf
    ensures sb.Valid() && ok == (n <= 0x0FFF_FFFF)
    ensures sb.buf == old(sb.buf) + if ok then RemainingLengthBytes(n) else []
  {
    if n > 0x0FFF_FFFF { return false; }
    var length := n;
    ghost var start := sb.buf;
    while true
      invariant sb.Valid()
      invariant start + RemainingLengthBytes(n) == sb.buf + RemainingLengthBytes(length)
      decreases length
    {
      var encoded: byte := length % 0x80;
      ghost var was := length;
      length := length / 0x80;
      if length > 0 {
        encoded := encoded + 0x80;
      }
      sb.Append([encoded]);
      if length == 0 { break; }
    }
    ok := true;
  }

  /** The branches on the lead byte in the loop of `decode_string`. */
  method DecodeChar(sb: StreamBuf) returns (r: Outcome<Str>)
    requires sb.Valid()
    modifies sb`pos
    ensures sb.Valid() && Agrees(CharOf(old(sb.Unread())), r, sb.Unread())
  {
    ghost var before := sb.Unread();
    var ch :- sb.ReadUint8();
    if ch == 0 {
      r := Bad;
    } else if ch <= 0x7F {
      assert [ch] == before[..1];
      r := Value([ch]);
    } else if ch <= 0xDF {
      var c2 :- sb.ReadUint8();
      assert [ch, c2] == before[..2];
      r := Value([ch, c2]);
    } else if ch <= 0xEF {
      var c2 :- sb.ReadUint8();
      if ch == 0xED && c2 >= 0xA0 { return Bad; }
      var c3 :- sb.ReadUint8();
      assert [ch, c2, c3] == before[..3];
      r := Value([ch, c2, c3]);
    } else if ch <= 0xF7 {
      var c2 :- sb.ReadUint8();
      var c3 :- sb.ReadUint8();
      var c4 :- sb.ReadUint8();
      assert [ch, c2, c3, c4] == before[..4];
      r := Value([ch, c2, c3, c4]);
    } else {
      assert [ch] == before[..1];
      r := Value([ch]);
    }
  }

  lemma CharsLoopStep(all: Parsed<Str>, was: Str, bs: Str, len: nat, c: Str, rest: Str)
    requires all == Prepend(was, Chars(bs, len))
    requires CharOf(bs) == Ok(c, rest) && c != [] && |c| <= len
    ensures all == Prepend(was + Stored(c), Chars(rest, len - |c|))
  {
    CharsCons(bs, len, c, rest);
    PrependTwice(was, Stored(c), Chars(rest, len - |c|));
  }

  lemma CharsLoopStop(all: Parsed<Str>, was: Str, bs: Str, len: nat)
    requires len > 0 && all == Prepend(was, Chars(bs, len))
    ensures CharOf(bs).NotEnough? ==> all.NotEnough?
    ensures CharOf(bs).Malformed? ==> all.Malformed?
    ensures CharOf(bs).Ok? && |CharOf(bs).value| > len ==> all.Malformed?
  {
  }

  /** The loop of `decode_string`, for a declared length. */
  method DecodeChars(sb: StreamBuf, length: nat) returns (r: Outcome<Str>)
    requires sb.Valid()
    modifies sb`pos
    ensures sb.Valid() && Agrees(Chars(old(sb.Unread()), length), r, sb.Unread())
  {
    ghost var all := Chars(sb.Unread(), length);
    var result: Str := [];
    var inx := 0;
    PrependEmpty(all);
    while inx < length
      invariant sb.Valid() && inx <= length
      invariant all == Prepend(result, Chars(sb.Unread(), length - inx))
      decreases length - inx
    {
      ghost var was, before, todo := result, sb.Unread(), length - inx;
      CharsLoopStop(all, was, before, todo);
      var c :- DecodeChar(sb);
      result := result + Stored(c);
      inx := inx + |c| - 1;
      if inx >= length {
        return Bad;
      }
      inx := inx + 1;
      CharsLoopStep(all, was, before, todo, c, sb.Unread());
    }
    assert result + [] == result;
    r := Value(result);
  }

  method DecodeString(sb: StreamBuf) returns (r: Outcome<Str>)
    requires sb.Valid()
    modifies sb`pos
    ensures sb.Valid() && Agrees(StringOf(old(sb.Unread())), r, sb.Unread())
  {
    ghost var all := sb.Unread();
    var length :- sb.ReadUint16();
    ghost var body := sb.Unread();
    r := DecodeChars(sb, length);
    assert StringOf(all) == Chars(body, length);
  }

  method EncodeString(s: Str, sb: StreamBuf) returns (ok: bool)
    requires sb.Valid()
    modifies sb`buf
    ensures sb.Valid() && ok == (|s| < 0x1_0000)
    ensures sb.buf == old(sb.buf) + if ok then StringBytes(s) else []
  {
    if |s| > 0xFFFF { return false; }
    StringBytesFront(s, []);
    ghost var start := sb.buf;
    var length := Uint16Bytes(|s|);
    Assoc(start, length, s);
    sb.Append(length);
    sb.Append(s);
    ok := true;
  }

  method DecodeHeader(sb: StreamBuf) returns (r: Outcome<Header>)
    requires sb.Valid()
    modifies sb`pos
    ensures sb.Valid() && Agrees(HeaderOf(old(sb.Unread())), r, sb.Unread())
  {
    var b :- sb.ReadUint8();
    if !FlagsOk(b / 16, b % 16) { return Bad; }
    var n :- DecodeRemainingLength(sb);
    r := Value(Header(b / 16, b % 16, n));
  }
}
