/**
  Framing: `mqtt_codec::channel_read` over a buffer that grows in arbitrary pieces. The main result says
  for which ways of splitting a stream its packets all come out, and what happens for the others.
 */
module Codec {
  import opened Basics
  import opened FixedHeader
  import opened Packets
  import opened PacketLaws
  import opened PacketIO

  datatype Packet =
    | PConnect(connect: Connect)
    | PConnack(present: bool, code: byte)
    | PPublish(publish: Publish)
    | PAck(kind: byte, packetId: uint16)
    | PSubscribe(subscribe: Subscribe)
    | PSuback(suback: Suback)
    | PUnsubscribe(unsubscribe: Unsubscribe)
    | PEmpty(emptyKind: byte)

  function AckOf(kind: byte, bs: Str): (r: Parsed<Packet>)
    ensures r.Ok? ==> |r.rest| <= |bs|
  {
    var (id, rest) :- Uint16(bs);
    Ok(PAck(kind, id), rest)
  }

  function Wrap<T>(p: Parsed<T>, f: T -> Packet): Parsed<Packet> {
    match p
    case Ok(v, rest) => Ok(f(v), rest)
    case NotEnough => NotEnough
    case Malformed => Malformed
  }

  /** The switch on the packet type. */
  function BodyOf(h: Header, bs: Str): (r: Parsed<Packet>)
    requires CONNECT <= h.kind <= DISCONNECT
    ensures r.Ok? ==> |r.rest| <= |bs|
  {
    if h.kind == CONNECT then Wrap(ConnectOf(bs), c => PConnect(c))
    else if h.kind == CONNACK then Wrap(ConnackOf(bs), (c: (bool, byte)) => PConnack(c.0, c.1))
    else if h.kind == PUBLISH then Wrap(PublishOf(h, bs), p => PPublish(p))
    else if h.kind == SUBSCRIBE then Wrap(SubscribeOf(h, bs), s => PSubscribe(s))
    else if h.kind == SUBACK then Wrap(SubackOf(h, bs), s => PSuback(s))
    else if h.kind == UNSUBSCRIBE then Wrap(UnsubscribeOf(h, bs), s => PUnsubscribe(s))
    else if h.kind == PINGREQ || h.kind == PINGRESP || h.kind == DISCONNECT then Ok(PEmpty(h.kind), bs)
    else AckOf(h.kind, bs)
  }

  /**
    What one `channel_read` does. `Incomplete` leaves the buffer as it was; `done` says whether
    `ctx->done(true)` was called, which the catch of `not_enough_error` omits. `Skipped` is a packet
    type the switch does not know: its fixed header is consumed and no packet is made.
   */
  datatype Reading = Got(packet: Packet, rest: Str) | Incomplete(done: bool) | Skipped(rest: Str) | Failed

  function Read(bs: Str): (r: Reading)
    ensures r.Got? ==> |r.rest| < |bs|
  {
    if |bs| < 2 then Incomplete(true)
    else
      match HeaderOf(bs)
      case NotEnough => Incomplete(false)
      case Malformed => Failed
      case Ok(h, r) =>
        if |r| < h.remaining then Incomplete(true)
        else if !(CONNECT <= h.kind <= DISCONNECT) then Skipped(r)
        else
          match BodyOf(h, r)
          case Ok(p, rest) => Got(p, rest)
          case NotEnough => Incomplete(false)
          case Malformed => Failed
  }

  // ---------------------------------------------------------------- frames

  /** f is one whole packet: it decodes to p, nothing is left over, and the remaining length is honest. */
  predicate IsFrame(f: Str, p: Packet) {
    Read(f) == Got(p, []) && HeaderOf(f).Ok? && |HeaderOf(f).rest| == HeaderOf(f).value.remaining
  }

  lemma BodyExtend(h: Header, bs: Str, x: Str)
    requires CONNECT <= h.kind <= DISCONNECT
    ensures Extends(BodyOf(h, bs), BodyOf(h, bs + x), x)
  {
    if BodyOf(h, bs).Ok? {
      if h.kind == CONNECT {
        ConnectExtend(bs, x);
      } else if h.kind == CONNACK {
        ConnackExtend(bs, x);
      } else if h.kind == PUBLISH {
        PublishExtend(h, bs, x);
      } else if h.kind == SUBSCRIBE {
        SubscribeExtend(h, bs, x);
      } else if h.kind == SUBACK {
        SubackExtend(h, bs, x);
      } else if h.kind == UNSUBSCRIBE {
        UnsubscribeExtend(h, bs, x);
      } else if h.kind == PINGREQ || h.kind == PINGRESP || h.kind == DISCONNECT {
      } else {
        Uint16Extend(bs, x);
      }
    }
  }

  /** A whole packet is decoded the same whatever has already arrived behind it. */
  lemma FrameThenMore(f: Str, p: Packet, x: Str)
    requires IsFrame(f, p)
    ensures Read(f + x) == Got(p, x)
  {
    var h, r := HeaderOf(f).value, HeaderOf(f).rest;
    HeaderExtend(f, x);
    BodyExtend(h, r, x);
    assert [] + x == x;
  }

  lemma {:induction false} RemainingLengthPrefix(bs: Str, i: nat, k: nat)
    requires i <= 3 && RemainingLength(bs, i).Ok? && k <= |bs|
    ensures var n := |bs| - |RemainingLength(bs, i).rest|;
      RemainingLength(bs[..k], i) == if k < n then NotEnough else Ok(RemainingLength(bs, i).value, bs[n..k])
    decreases |bs|
  {
    if k > 0 {
      assert bs[..k][1..] == bs[1..][..k - 1];
      if bs[0] >= 0x80 {
        RemainingLengthPrefix(bs[1..], i + 1, k - 1);
        var n := |bs| - |RemainingLength(bs, i).rest|;
        if k >= n { assert bs[1..][n - 1..k - 1] == bs[n..k]; }
      } else {
        assert bs[..k][1..] == bs[1..k];
      }
    }
  }

  lemma HeaderPrefix(bs: Str, k: nat)
    requires HeaderOf(bs).Ok? && k <= |bs|
    ensures var n := |bs| - |HeaderOf(bs).rest|;
      HeaderOf(bs[..k]) == if k < n then NotEnough else Ok(HeaderOf(bs).value, bs[n..k])
  {
    if k > 0 {
      assert bs[..k][1..] == bs[1..][..k - 1];
      RemainingLengthPrefix(bs[1..], 0, k - 1);
      var n := |bs| - |HeaderOf(bs).rest|;
      if k >= n { assert bs[1..][n - 1..k - 1] == bs[n..k]; }
    }
  }

  /** A strict prefix of a packet yields neither a packet nor an error. `done` is left uncalled exactly
      when two or more bytes have arrived and the fixed header is still incomplete. */
  lemma StrictPrefixWaits(f: Str, p: Packet, k: nat)
    requires IsFrame(f, p) && k < |f|
    ensures Read(f[..k]) == Incomplete(!(2 <= k < |f| - HeaderOf(f).value.remaining))
  {
    HeaderPrefix(f, k);
  }

  /** The first two bytes of a PUBLISH longer than 127 bytes: `done` is not called, so the undecoded
      buffer is what the next handler receives (packet_handler.cpp:22-25 rejects it). */
  lemma SplitHeaderIsNotDone()
    ensures Read([0x30, 0x80]) == Incomplete(false)
  {
    var bs: Str := [0x30, 0x80];
    assert bs[1..] == [0x80] && bs[1..][1..] == [];
    assert RemainingLength(bs[1..][1..], 1) == NotEnough;
    assert RemainingLength(bs[1..], 0) == NotEnough;
  }

  // ---------------------------------------------------------------- the serialized packets are frames

  lemma FrameOf(h: Header, body: Str, p: Packet)
    requires CONNECT <= h.kind <= DISCONNECT && h.flags < 16 && FlagsOk(h.kind, h.flags)
    requires h.remaining == |body| && h.remaining <= 2_097_151 && BodyOf(h, body) == Ok(p, [])
    ensures IsFrame(HeaderBytes(h) + body, p)
  {
    HeaderRoundTrip(h, body);
  }

  lemma PublishIsFrame(p: Publish)
    requires Sendable(p)
    ensures IsFrame(HeaderBytes(PublishHeader(p)) + PublishBody(p), PPublish(p))
  {
    PublishBodyRoundTrip(p, []);
    assert PublishBody(p) + [] == PublishBody(p);
    PublishBodyLength(p);
    FlagBitsRoundTrip(p.dup, p.qos, p.retain);
    FrameOf(PublishHeader(p), PublishBody(p), PPublish(p));
  }

  lemma SubscribeIsFrame(s: Subscribe)
    requires s.items != [] && forall i :: 0 <= i < |s.items| ==> DecodableItem(s.items[i])
    requires 2 + ItemsLength(s.items) <= 2_097_151
    ensures IsFrame(HeaderBytes(Header(SUBSCRIBE, 2, 2 + ItemsLength(s.items))) +
      (Uint16Bytes(s.packetId) + ItemsBytes(s.items)), PSubscribe(s))
  {
    var body := Uint16Bytes(s.packetId) + ItemsBytes(s.items);
    SubscribeRoundTrip(s, []);
    assert body + [] == body;
    ItemsBytesLength(s.items);
    FrameOf(Header(SUBSCRIBE, 2, 2 + ItemsLength(s.items)), body, PSubscribe(s));
  }

  lemma SubackIsFrame(s: Suback)
    requires (forall c :: c in s.codes ==> ReturnCode(c)) && 2 + |s.codes| <= 2_097_151
    ensures IsFrame(HeaderBytes(Header(SUBACK, 0, 2 + |s.codes|)) + (Uint16Bytes(s.packetId) + s.codes), PSuback(s))
  {
    var body := Uint16Bytes(s.packetId) + s.codes;
    SubackRoundTrip(s, []);
    assert body + [] == body;
    FrameOf(Header(SUBACK, 0, 2 + |s.codes|), body, PSuback(s));
  }

  // ---------------------------------------------------------------- chunking

  datatype Drained = Drained(packets: seq<Packet>, left: Str)

  /** Reading packets until the buffer yields none. */
  function Drain(bs: Str): Drained
    decreases |bs|
  {
    match Read(bs)
    case Got(p, rest) => var d := Drain(rest); Drained([p] + d.packets, d.left)
    case _ => Drained([], bs)
  }

  /**
    What becomes of a connection: it waits for more bytes, or it was rejected. A read that takes no packet
    and does not call `ctx->done` hands the raw buffer to the packet handler, which throws
    (packet_handler.cpp:22-25), and the channel is closed.
   */
  datatype Received = Waiting(packets: seq<Packet>, left: Str) | Rejected(packets: seq<Packet>)

  function Prefixed(ps: seq<Packet>, r: Received): Received {
    match r
    case Waiting(qs, left) => Waiting(ps + qs, left)
    case Rejected(qs) => Rejected(ps + qs)
  }

  /** Reading packets until the buffer yields none, as far as the channel lives. */
  function Arrive(bs: Str): Received
    decreases |bs|
  {
    match Read(bs)
    case Got(p, rest) => Prefixed([p], Arrive(rest))
    case Incomplete(done) => if done then Waiting([], bs) else Rejected([])
    case _ => Rejected([])
  }

  /** The bytes of a connection arrive as `chunks`; each is appended to what is left and read. */
  function Feed(left: Str, chunks: seq<Str>): Received
    decreases |chunks|
  {
    if chunks == [] then Waiting([], left)
    else
      match Arrive(left + chunks[0])
      case Waiting(ps, more) => Prefixed(ps, Feed(more, chunks[1..]))
      case Rejected(ps) => Rejected(ps)
  }

  /** A packet of a reserved type, 0 or 15. */
  predicate Reserved(bs: Str) {
    bs != [] && (bs[0] < 0x10 || bs[0] >= 0xF0)
  }

  /** All of a packet that the fixed header announces has arrived. */
  predicate Complete(bs: Str) {
    |bs| >= 2 && HeaderOf(bs).Ok? && |HeaderOf(bs).rest| >= HeaderOf(bs).value.remaining
  }

  /** Exactly when bytes are waited for, and what becomes of a channel otherwise: of a complete packet, a
      reserved type is rejected with its fixed header consumed; and one whose body asks for more bytes than
      were announced and have arrived is rejected too, not waited for. */
  lemma WaitsIff(bs: Str)
    ensures Read(bs) == Incomplete(true) <==> |bs| < 2 || (HeaderOf(bs).Ok? && !Complete(bs))
    ensures Complete(bs) && Reserved(bs) <==> Read(bs).Skipped?
    ensures Read(bs).Skipped? ==> Read(bs).rest == HeaderOf(bs).rest
    ensures Read(bs) == Incomplete(true) ==> Arrive(bs) == Waiting([], bs)
    ensures !Read(bs).Got? && Read(bs) != Incomplete(true) ==> Arrive(bs) == Rejected([])
  {
  }

  /** A PUBACK that announces no identifier. */
  lemma ShortBodyExample()
    ensures Arrive([0x40, 0x00]) == Rejected([])
  {
    var bs: Str := [0x40, 0x00];
    assert bs[1..] == [0x00] && bs[1..][1..] == [];
    assert RemainingLength(bs[1..], 0) == Ok(0, []);
    assert HeaderOf(bs) == Ok(Header(PUBACK, 0, 0), []) && AckOf(PUBACK, []) == NotEnough;
    WaitsIff(bs);
  }

  function Concat(ss: seq<Str>): Str {
    if ss == [] then [] else ss[0] + Concat(ss[1..])
  }

  ghost predicate AreFrames(fs: seq<Str>, ps: seq<Packet>) {
    |fs| == |ps| && forall i :: 0 <= i < |fs| ==> IsFrame(fs[i], ps[i])
  }

  /** t is a strict prefix of the first frame, or empty when there is none. */
  predicate Partial(t: Str, fs: seq<Str>) {
    if fs == [] then t == [] else |t| < |fs[0]| && t == fs[0][..|t|]
  }

  /** The bytes of the fixed header of a frame. */
  function HeaderSize(f: Str): int {
    if HeaderOf(f).Ok? then |f| - HeaderOf(f).value.remaining else 0
  }

  /** n bytes into the stream of frames, at least two bytes of a frame have arrived and its fixed header is
      incomplete. */
  ghost predicate CutAt(n: int, fs: seq<Str>) {
    exists i :: 0 <= i < |fs| && CutIn(n, fs, i)
  }

  predicate CutIn(n: int, fs: seq<Str>, i: nat)
    requires i < |fs|
  {
    2 <= n - |Concat(fs[..i])| < HeaderSize(fs[i])
  }

  /** Some chunk ends inside a fixed header, `from` bytes having arrived before the first. */
  ghost predicate Cuts(from: int, chunks: seq<Str>, fs: seq<Str>) {
    exists k :: 0 < k <= |chunks| && CutAt(from + |Concat(chunks[..k])|, fs)
  }

  lemma PartialReads(t: Str, fs: seq<Str>, ps: seq<Packet>)
    requires AreFrames(fs, ps) && Partial(t, fs)
    ensures Read(t) == Incomplete(!(fs != [] && 2 <= |t| < HeaderSize(fs[0])))
    ensures Drain(t) == Drained([], t)
  {
    if fs != [] { StrictPrefixWaits(fs[0], ps[0], |t|); }
  }

  lemma SkipOne<A, B>(fs: seq<A>, ps: seq<B>, k: nat)
    requires k < |fs| == |ps|
    ensures fs[k + 1..] == fs[1..][k..] && ps[..k + 1] == [ps[0]] + ps[1..][..k]
  {
  }

  /** Draining what has arrived of a stream of frames yields the frames that are complete in it. */
  lemma {:induction false} DrainPrefix(t: Str, more: Str, fs: seq<Str>, ps: seq<Packet>) returns (m: nat)
    requires AreFrames(fs, ps) && t + more == Concat(fs)
    ensures m <= |fs| && Drain(t).packets == ps[..m]
    ensures Partial(Drain(t).left, fs[m..]) && Drain(t).left + more == Concat(fs[m..])
    decreases |fs|
  {
    if fs == [] {
      m := 0;
      assert t == [];
      PartialReads(t, fs, ps);
    } else if |t| < |fs[0]| {
      m := 0;
      assert t == (t + more)[..|t|] == fs[0][..|t|];
      PartialReads(t, fs, ps);
      assert fs[0..] == fs;
    } else {
      var f, rest := fs[0], t[|fs[0]|..];
      FirstFrame(t, more, fs);
      FrameThenMore(f, ps[0], rest);
      var k := DrainPrefix(rest, more, fs[1..], ps[1..]);
      m := k + 1;
      SkipOne(fs, ps, k);
    }
  }

  lemma FirstFrame(t: Str, more: Str, fs: seq<Str>)
    requires fs != [] && |t| >= |fs[0]| && t + more == Concat(fs)
    ensures t == fs[0] + t[|fs[0]|..] && t[|fs[0]|..] + more == Concat(fs[1..])
  {
    var n := |fs[0]|;
    assert t[..n] == (t + more)[..n] == fs[0];
    assert t[n..] + more == (t + more)[n..] == Concat(fs[1..]);
  }

  lemma ConcatHead(fs: seq<Str>)
    ensures fs != [] ==> |Concat(fs)| >= |fs[0]|
  {
  }

  lemma {:induction false} ArriveIsDrain(bs: Str)
    ensures var d := Drain(bs);
      Arrive(bs) == if Read(d.left) == Incomplete(true) then Waiting(d.packets, d.left) else Rejected(d.packets)
    decreases |bs|
  {
    if Read(bs).Got? { ArriveIsDrain(Read(bs).rest); }
  }

  // ---------------------------------------------------------------- where the cuts are

  lemma {:induction false} ConcatTakeDrop(fs: seq<Str>, m: nat)
    requires m <= |fs|
    ensures Concat(fs) == Concat(fs[..m]) + Concat(fs[m..])
  {
    if m == 0 {
      assert fs[0..] == fs && [] + Concat(fs) == Concat(fs);
    } else {
      ConcatTakeDrop(fs[1..], m - 1);
      assert fs[..m][1..] == fs[1..][..m - 1] && fs[1..][m - 1..] == fs[m..];
      Assoc(fs[0], Concat(fs[1..][..m - 1]), Concat(fs[m..]));
    }
  }

  /** Frame i starts no later than frame j, with all its bytes in between. */
  lemma OffsetsGrow(fs: seq<Str>, i: nat, j: nat)
    requires i < j <= |fs|
    ensures |Concat(fs[..j])| >= |Concat(fs[..i])| + |fs[i]|
  {
    ConcatTakeDrop(fs[..j], i);
    assert fs[..j][..i] == fs[..i] && fs[..j][i..] == [fs[i]] + fs[i + 1..j];
    assert Concat([fs[i]] + fs[i + 1..j]) == fs[i] + Concat(fs[i + 1..j]);
  }

  lemma OffsetShift(fs: seq<Str>, m: nat, i: nat)
    requires m + i <= |fs|
    ensures |Concat(fs[..m + i])| == |Concat(fs[..m])| + |Concat(fs[m..][..i])|
  {
    ConcatTakeDrop(fs[..m + i], m);
    assert fs[..m + i][..m] == fs[..m] && fs[..m + i][m..] == fs[m..][..i];
  }

  /** Frames that have arrived as a whole are not cut any more. */
  lemma CutShift(fs: seq<Str>, m: nat, x: nat)
    requires m <= |fs|
    ensures CutAt(|Concat(fs[..m])| + x, fs) <==> CutAt(x, fs[m..])
  {
    var n := |Concat(fs[..m])| + x;
    if CutAt(n, fs) {
      var i :| 0 <= i < |fs| && CutIn(n, fs, i);
      if i < m { OffsetsGrow(fs, i, m); }
      OffsetShift(fs, m, i - m);
      assert CutIn(x, fs[m..], i - m);
    }
    if CutAt(x, fs[m..]) {
      var i :| 0 <= i < |fs[m..]| && CutIn(x, fs[m..], i);
      OffsetShift(fs, m, i);
      assert CutIn(n, fs, m + i);
    }
  }

  /** Inside the first frame, only its own header can be cut. */
  lemma CutInFirst(fs: seq<Str>, x: nat)
    requires if fs == [] then x == 0 else x < |fs[0]|
    ensures CutAt(x, fs) <==> fs != [] && 2 <= x < HeaderSize(fs[0])
  {
    if CutAt(x, fs) {
      var i :| 0 <= i < |fs| && CutIn(x, fs, i);
      if i > 0 { OffsetsGrow(fs, 0, i); }
    }
    if fs != [] && 2 <= x < HeaderSize(fs[0]) { assert CutIn(x, fs, 0); }
  }

  lemma ConcatCons(chunks: seq<Str>, k: nat)
    requires 0 < k <= |chunks|
    ensures |Concat(chunks[..k])| == |chunks[0]| + |Concat(chunks[1..][..k - 1])|
  {
    assert chunks[..k][1..] == chunks[1..][..k - 1];
  }

  lemma CutsFirst(from: int, chunks: seq<Str>, fs: seq<Str>)
    requires chunks != [] && Cuts(from, chunks, fs)
    ensures CutAt(from + |chunks[0]|, fs) || Cuts(from + |chunks[0]|, chunks[1..], fs)
  {
    var k :| 0 < k <= |chunks| && CutAt(from + |Concat(chunks[..k])|, fs);
    ConcatCons(chunks, k);
    if k == 1 {
      assert Concat(chunks[1..][..0]) == [];
    } else {
      assert CutAt(from + |chunks[0]| + |Concat(chunks[1..][..k - 1])|, fs);
    }
  }

  lemma CutsLater(from: int, chunks: seq<Str>, fs: seq<Str>, k: nat)
    requires k < |chunks| && CutAt(from + |chunks[0]| + |Concat(chunks[1..][..k])|, fs)
    ensures Cuts(from, chunks, fs)
  {
    ConcatCons(chunks, k + 1);
    assert CutAt(from + |Concat(chunks[..k + 1])|, fs);
  }

  lemma CutsStep(from: int, chunks: seq<Str>, fs: seq<Str>)
    requires chunks != []
    ensures Cuts(from, chunks, fs) <==> CutAt(from + |chunks[0]|, fs) || Cuts(from + |chunks[0]|, chunks[1..], fs)
  {
    if Cuts(from, chunks, fs) { CutsFirst(from, chunks, fs); }
    if CutAt(from + |chunks[0]|, fs) {
      assert Concat(chunks[1..][..0]) == [];
      CutsLater(from, chunks, fs, 0);
    }
    if Cuts(from + |chunks[0]|, chunks[1..], fs) {
      var k :| 0 < k <= |chunks[1..]| && CutAt(from + |chunks[0]| + |Concat(chunks[1..][..k])|, fs);
      CutsLater(from, chunks, fs, k);
    }
  }

  lemma CutsShift(fs: seq<Str>, m: nat, x: nat, chunks: seq<Str>)
    requires m <= |fs|
    ensures Cuts(|Concat(fs[..m])| + x, chunks, fs) <==> Cuts(x, chunks, fs[m..])
  {
    forall k | 0 < k <= |chunks|
      ensures CutAt(|Concat(fs[..m])| + x + |Concat(chunks[..k])|, fs) <==> CutAt(x + |Concat(chunks[..k])|, fs[m..])
    {
      CutShift(fs, m, x + |Concat(chunks[..k])|);
    }
  }

  // ---------------------------------------------------------------- the stream theorem

  /** Where the cuts are seen from the frames still to come, once m of them and the bytes l have arrived. */
  lemma CutsFromHere(left: Str, chunks: seq<Str>, fs: seq<Str>, m: nat, l: Str)
    requires chunks != [] && m <= |fs| && Partial(l, fs[m..]) && |left| + |chunks[0]| == |Concat(fs[..m])| + |l|
    ensures Cuts(|left|, chunks, fs) <==>
      (fs[m..] != [] && 2 <= |l| < HeaderSize(fs[m..][0])) || Cuts(|l|, chunks[1..], fs[m..])
  {
    CutsStep(|left|, chunks, fs);
    CutShift(fs, m, |l|);
    CutInFirst(fs[m..], |l|);
    CutsShift(fs, m, |l|, chunks[1..]);
  }

  lemma ArrivedBytes(t: Str, more: Str, fs: seq<Str>, m: nat, l: Str)
    requires m <= |fs| && t + more == Concat(fs) && l + more == Concat(fs[m..])
    ensures |t| == |Concat(fs[..m])| + |l|
  {
    ConcatTakeDrop(fs, m);
    assert |t + more| == |t| + |more| && |l + more| == |l| + |more|;
  }

  /** Whole packets in order, whatever the split, unless a chunk ends inside a fixed header. */
  ghost predicate FedExactly(r: Received, cut: bool, ps: seq<Packet>) {
    if cut then r.Rejected? && r.packets < ps else r == Waiting(ps, [])
  }

  lemma FedMore(ps: seq<Packet>, m: nat, r: Received, cut: bool)
    requires m <= |ps| && FedExactly(r, cut, ps[m..])
    ensures FedExactly(Prefixed(ps[..m], r), cut, ps)
  {
    assert ps == ps[..m] + ps[m..];
  }

  lemma {:induction false} FeedFrom(left: Str, chunks: seq<Str>, fs: seq<Str>, ps: seq<Packet>)
    requires AreFrames(fs, ps) && Partial(left, fs) && left + Concat(chunks) == Concat(fs)
    ensures FedExactly(Feed(left, chunks), Cuts(|left|, chunks, fs), ps)
    decreases |chunks|
  {
    if chunks == [] {
      ConcatHead(fs);
      assert fs == [] && left == [];
    } else {
      var t, more := left + chunks[0], Concat(chunks[1..]);
      Assoc(left, chunks[0], more);
      var m := DrainPrefix(t, more, fs, ps);
      var l := Drain(t).left;
      ArrivedBytes(t, more, fs, m, l);
      CutsFromHere(left, chunks, fs, m, l);
      ArriveIsDrain(t);
      PartialReads(l, fs[m..], ps[m..]);
      if Read(l) == Incomplete(true) {
        FeedFrom(l, chunks[1..], fs[m..], ps[m..]);
        FedMore(ps, m, Feed(l, chunks[1..]), Cuts(|l|, chunks[1..], fs[m..]));
      }
    }
  }

  /** Main result on the decoder: of a stream of whole packets, however it is split, exactly those packets
      come out and nothing is left if and only if no chunk ends with two or more bytes of a packet arrived
      and its fixed header incomplete. Otherwise the channel is rejected, having yielded only some of the
      first packets. */
  lemma ChunkingExact(chunks: seq<Str>, fs: seq<Str>, ps: seq<Packet>)
    requires AreFrames(fs, ps) && Concat(chunks) == Concat(fs)
    ensures Feed([], chunks) == Waiting(ps, []) <==> !Cuts(0, chunks, fs)
    ensures Cuts(0, chunks, fs) ==> Feed([], chunks).Rejected? && Feed([], chunks).packets < ps
  {
    assert [] + Concat(chunks) == Concat(chunks);
    if fs != [] { assert fs[0] != []; }
    FeedFrom([], chunks, fs, ps);
  }

  /** Packets with a two-byte fixed header, of at most 127 bytes after it, come through any split. */
  lemma ShortPacketsAlwaysArrive(chunks: seq<Str>, fs: seq<Str>, ps: seq<Packet>)
    requires AreFrames(fs, ps) && Concat(chunks) == Concat(fs) && forall i :: 0 <= i < |fs| ==> HeaderSize(fs[i]) <= 2
    ensures Feed([], chunks) == Waiting(ps, [])
  {
    ChunkingExact(chunks, fs, ps);
    forall n ensures !CutAt(n, fs) {}
  }

  /** A longer packet whose first two bytes arrive alone is always rejected. */
  lemma SplitHeaderIsRejected(f: Str, p: Packet)
    requires IsFrame(f, p) && HeaderSize(f) > 2
    ensures Feed([], [f[..2], f[2..]]) == Rejected([])
  {
    var chunks, fs, ps := [f[..2], f[2..]], [f], [p];
    assert chunks[1..] == [f[2..]] && [] + chunks[0] == f[..2];
    StrictPrefixWaits(f, p, 2);
  }

  /** An example: a PUBLISH to "a" of 200 bytes, cut after its second byte. */
  lemma LongPublishExample(payload: Str)
    requires |payload| == 200
    ensures var p := Publish(0, false, 0, false, [0x61], 0, payload);
      var f := HeaderBytes(PublishHeader(p)) + PublishBody(p);
      && IsFrame(f, PPublish(p)) && Feed([], [f]) == Waiting([PPublish(p)], [])
        && Feed([], [f[..2], f[2..]]) == Rejected([])
  {
    var p := Publish(0, false, 0, false, [0x61], 0, payload);
    var f := HeaderBytes(PublishHeader(p)) + PublishBody(p);
    AsciiIsUtf8(p.topic);
    Utf8IsReadable(p.topic);
    PublishIsFrame(p);
    WholeFrameArrives(f, PPublish(p));
    RemainingLengthSize(PublishLength(p));
    PublishBodyLength(p);
    HeaderRoundTrip(PublishHeader(p), PublishBody(p));
    SplitHeaderIsRejected(f, PPublish(p));
  }

  lemma WholeFrameArrives(f: Str, p: Packet)
    requires IsFrame(f, p)
    ensures Feed([], [f]) == Waiting([p], [])
  {
    assert [] + f == f && [f][1..] == [];
    assert Arrive([]) == Waiting([], []);
  }

  // ---------------------------------------------------------------- channel_read

  method DecodeBody(h: Header, sb: StreamBuf) returns (r: Outcome<Packet>)
    requires sb.Valid() && CONNECT <= h.kind <= DISCONNECT
    modifies sb`pos
    ensures sb.Valid() && Agrees(BodyOf(h, old(sb.Unread())), r, sb.Unread())
  {
    if h.kind == CONNECT {
      var c :- DecodeConnect(sb);
      r := Value(PConnect(c));
    } else if h.kind == CONNACK {
      var c :- DecodeConnack(sb);
      r := Value(PConnack(c.0, c.1));
    } else if h.kind == PUBLISH {
      var p :- DecodePublish(h, sb);
      r := Value(PPublish(p));
    } else if h.kind == SUBSCRIBE {
      var s :- DecodeSubscribe(h, sb);
      r := Value(PSubscribe(s));
    } else if h.kind == SUBACK {
      var s :- DecodeSuback(h, sb);
      r := Value(PSuback(s));
    } else if h.kind == UNSUBSCRIBE {
      var s :- DecodeUnsubscribe(h, sb);
      r := Value(PUnsubscribe(s));
    } else if h.kind == PINGREQ || h.kind == PINGRESP || h.kind == DISCONNECT {
      r := Value(PEmpty(h.kind));
    } else {
      var id :- sb.ReadUint16();
      r := Value(PAck(h.kind, id));
    }
  }

  /** `mqtt_codec::channel_read`: mark, parse, and reset when bytes are missing. */
  method ChannelRead(sb: StreamBuf) returns (out: Reading)
    requires sb.Valid()
    modifies sb`pos, sb`marked
    ensures sb.Valid() && out == Read(old(sb.Unread()))
    ensures out.Got? || out.Skipped? ==> sb.Unread() == out.rest
    ensures out.Incomplete? ==> sb.pos == old(sb.pos)
  {
    if |sb.buf| - sb.pos < 2 { return Incomplete(true); }
    sb.Mark();
    var header := DecodeHeader(sb);
    if header.Short? {
      sb.Reset();
      return Incomplete(false);
    }
    if header.Bad? { return Failed; }
    var h := header.value;
    if |sb.buf| - sb.pos < h.remaining {
      sb.Reset();
      return Incomplete(true);
    }
    if !(CONNECT <= h.kind <= DISCONNECT) { return Skipped(sb.Unread()); }
    var body := DecodeBody(h, sb);
    if body.Short? {
      sb.Reset();
      return Incomplete(false);
    }
    if body.Bad? { return Failed; }
    out := Got(body.value, sb.Unread());
  }

  /** A channel's read loop: bytes are appended, then packets are read until none is complete. The library
      repeats `channel_read` in this way. The channel lives on when the last read called `done`. */
  method Receive(sb: StreamBuf, chunk: Str) returns (packets: seq<Packet>, alive: bool)
    requires sb.Valid()
    modifies sb
    ensures sb.Valid()
    ensures var r := Arrive(old(sb.Unread()) + chunk);
      packets == r.packets && alive == r.Waiting? && (alive ==> sb.Unread() == r.left)
  {
    sb.Append(chunk);
    ghost var all := Arrive(sb.Unread());
    packets := [];
    PrefixedNone(all);
    while true
      invariant sb.Valid()
      invariant all == Prefixed(packets, Arrive(sb.Unread()))
      decreases |sb.Unread()|
    {
      ghost var was := packets;
      var out := ChannelRead(sb);
      if !out.Got? {
        alive := out == Incomplete(true);
        assert packets + [] == packets;
        return;
      }
      PrefixedTwice(was, [out.packet], Arrive(sb.Unread()));
      packets := packets + [out.packet];
    }
  }

  lemma PrefixedNone(r: Received)
    ensures Prefixed([], r) == r
  {
    assert [] + r.packets == r.packets;
  }

  lemma PrefixedTwice(a: seq<Packet>, b: seq<Packet>, r: Received)
    ensures Prefixed(a, Prefixed(b, r)) == Prefixed(a + b, r)
  {
    Assoc(a, b, r.packets);
  }
}
