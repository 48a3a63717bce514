/** What sending does: which writes it makes, what it leaves alone, and what it keeps. */
module BrokerCore {
  import opened Basics
  import TopicFilter
  import opened Packets
  import opened Sessions
  import opened Broker

  // ---------------------------------------------------------------- composition

  lemma {:induction false} DeliverAllAppend(core: Core, a: seq<Delivery>, b: seq<Delivery>)
    ensures DeliverAll(core, a + b) == DeliverAll(DeliverAll(core, a), b)
    decreases a
  {
    if a == [] {
      assert a + b == b;
    } else {
      assert (a + b)[0] == a[0] && (a + b)[1..] == a[1..] + b;
      DeliverAllAppend(Deliver(core, a[0]), a[1..], b);
    }
  }

  /** One more delivery, as a sending loop makes it. */
  lemma DeliverAllMore(core: Core, ds: seq<Delivery>, d: Delivery)
    ensures DeliverAll(core, ds + [d]) == Deliver(DeliverAll(core, ds), d)
  {
    DeliverAllAppend(core, ds, [d]);
    var core1 := Deliver(DeliverAll(core, ds), d);
    assert [d][1..] == [];
    assert DeliverAll(core1, []) == core1;
  }

  lemma {:induction false} DeliverAllStuck(core: Core, ds: seq<Delivery>)
    requires core.stuck
    ensures DeliverAll(core, ds) == core
    decreases ds
  {
    if ds != [] { DeliverAllStuck(core, ds[1..]); }
  }

  // ---------------------------------------------------------------- what sending leaves alone

  /** A session after some sending: nothing pending is lost, and nothing but the allocator's cursor and
      the two publish lists moves. */
  predicate SessionGrows(a: SessionState, b: SessionState) {
    b.subs == a.subs && b.pubrel == a.pubrel && b.pubcomp == a.pubcomp && a.forAck <= b.forAck && a.forRec <= b.forRec
  }

  ghost predicate Grows(a: Core, b: Core) {
    && b.heap.Keys == a.heap.Keys
    && (forall r :: r in a.heap ==> SessionGrows(a.heap[r], b.heap[r]))
    && a.log <= b.log
    && (a.stuck ==> b.stuck)
  }

  lemma RecordedGrows(s: SessionState, p: Publish, next: uint16)
    ensures SessionGrows(s, Recorded(s, p, next))
  {
  }

  lemma DeliverGrows(core: Core, d: Delivery)
    ensures Grows(core, Deliver(core, d))
  {
    if !core.stuck && d.client.session in core.heap {
      var s := core.heap[d.client.session];
      RecordedGrows(s, Copy(d, NewId(s).id), NewId(s).next);
      assert Deliver(core, d).heap.Keys == core.heap.Keys;
    }
  }

  lemma GrowsTransitive(a: Core, b: Core, c: Core)
    requires Grows(a, b) && Grows(b, c)
    ensures Grows(a, c)
  {
    forall r | r in a.heap ensures SessionGrows(a.heap[r], c.heap[r]) {
      assert SessionGrows(a.heap[r], b.heap[r]);
      assert r in b.heap && SessionGrows(b.heap[r], c.heap[r]);
    }
  }

  lemma {:induction false} DeliverAllGrows(core: Core, ds: seq<Delivery>)
    ensures Grows(core, DeliverAll(core, ds))
    decreases ds
  {
    if ds != [] {
      var core1 := Deliver(core, ds[0]);
      DeliverGrows(core, ds[0]);
      DeliverAllGrows(core1, ds[1..]);
      GrowsTransitive(core, core1, DeliverAll(core1, ds[1..]));
    }
  }

  // ---------------------------------------------------------------- what sending keeps

  predicate SubOk(f: Str, sub: Sub) {
    TopicFilterOk(f) && sub.wild == TopicFilter.HasWildcard(f) && sub.qos <= 2
  }

  /** A filter the tables may hold: valid, non-empty and not a '$' filter. */
  predicate TopicFilterOk(f: Str) {
    f != [] && f[0] != TopicFilter.DOLLAR && TopicFilter.Valid(f)
  }

  /** What is written can be serialized, and decoded by a client. */
  predicate WriteFits(w: Write) {
    match w.packet
    case Connack(_, code) => code < 6
    case Forward(p) => Outgoing(p)
    case SubackPacket(_, codes) => |codes| <= 2_097_149 && forall c :: c in codes ==> ReturnCode(c)
    case _ => true
  }

  ghost predicate SessionOk(s: SessionState) {
    && Phase(s)
    && (forall f :: f in s.subs ==> SubOk(f, s.subs[f]))
    && (forall i :: 0 <= i < |s.forAck| ==> Outgoing(s.forAck[i]))
    && (forall i :: 0 <= i < |s.forRec| ==> Outgoing(s.forRec[i]))
  }

  ghost predicate LogOk(log: seq<Write>) {
    forall i :: 0 <= i < |log| ==> WriteFits(log[i])
  }

  ghost predicate HeapOk(heap: map<Channel, SessionState>) {
    forall r :: r in heap ==> SessionOk(heap[r])
  }

  predicate Sound(d: Delivery) {
    Fits(d.packet) && d.qos <= 2
  }

  /** A copy is never larger than the message it copies, so building it never throws. */
  lemma CopyFits(d: Delivery, id: uint16)
    requires Sound(d)
    ensures Outgoing(Copy(d, id))
    ensures MakePublish(false, Min(d.packet.qos, d.qos), d.retain, d.packet.topic, id, d.packet.payload) ==
      Some(Copy(d, id))
  {
  }

  lemma RecordedOk(s: SessionState, d: Delivery)
    requires SessionOk(s) && Sound(d) && NewId(s).found
    ensures SessionOk(Recorded(s, Copy(d, NewId(s).id), NewId(s).next))
  {
    AllocatorCorrect(s);
    CopyFits(d, NewId(s).id);
    RecordedKeepsPhase(s, Copy(d, NewId(s).id), NewId(s).next);
  }

  lemma DeliverOk(core: Core, d: Delivery)
    requires HeapOk(core.heap) && LogOk(core.log) && Sound(d)
    ensures HeapOk(Deliver(core, d).heap) && LogOk(Deliver(core, d).log)
  {
    if !core.stuck && d.client.session in core.heap && NewId(core.heap[d.client.session]).found {
      var s := core.heap[d.client.session];
      var p := Copy(d, NewId(s).id);
      RecordedOk(s, d);
      CopyFits(d, NewId(s).id);
      HeapUpdateOk(core.heap, d.client.session, Recorded(s, p, NewId(s).next));
      LogMoreOk(core.log, Write(d.client.channel, Forward(p)));
    }
  }

  lemma HeapUpdateOk(heap: map<Channel, SessionState>, ref: Channel, s: SessionState)
    requires HeapOk(heap) && SessionOk(s)
    ensures HeapOk(heap[ref := s])
  {
  }

  lemma LogMoreOk(log: seq<Write>, w: Write)
    requires LogOk(log) && WriteFits(w)
    ensures LogOk(log + [w])
  {
  }

  lemma {:induction false} DeliverAllOk(core: Core, ds: seq<Delivery>)
    requires HeapOk(core.heap) && LogOk(core.log) && forall i :: 0 <= i < |ds| ==> Sound(ds[i])
    ensures HeapOk(DeliverAll(core, ds).heap) && LogOk(DeliverAll(core, ds).log)
    decreases ds
  {
    if ds != [] {
      DeliverOk(core, ds[0]);
      DeliverAllOk(Deliver(core, ds[0]), ds[1..]);
    }
  }

  // ---------------------------------------------------------------- what sending writes

  /** w is the copy of d: to its client's channel, with the lower QoS, and topic and payload unchanged. */
  predicate IsCopy(w: Write, d: Delivery) {
    && w.channel == d.client.channel && w.packet.Forward?
    && var p := w.packet.publish;
      && p.qos == Min(d.packet.qos, d.qos) && p.retain == d.retain && !p.dup
        && p.flags == FlagBits(false, p.qos % 4, p.retain)
      && p.topic == d.packet.topic && p.payload == d.packet.payload
      && (p.qos == 1 || p.qos == 2 ==> p.packetId != 0)
  }

  ghost predicate Copies(ws: seq<Write>, ds: seq<Delivery>) {
    |ws| == |ds| && forall i :: 0 <= i < |ds| ==> IsCopy(ws[i], ds[i])
  }

  lemma DeliverWrites(core: Core, d: Delivery)
    requires !Deliver(core, d).stuck && d.client.session in core.heap
    ensures var log := Deliver(core, d).log;
      |log| == |core.log| + 1 && log[..|core.log|] == core.log && IsCopy(log[|core.log|], d)
  {
    AllocatorCorrect(core.heap[d.client.session]);
  }

  /** Unless it gets stuck, sending writes exactly one copy per delivery, in order. */
  lemma {:induction false} DeliverAllWrites(core: Core, ds: seq<Delivery>)
    requires !DeliverAll(core, ds).stuck
    requires forall i :: 0 <= i < |ds| ==> ds[i].client.session in core.heap
    ensures core.log <= DeliverAll(core, ds).log
    ensures Copies(DeliverAll(core, ds).log[|core.log|..], ds)
    decreases ds
  {
    if ds != [] {
      var core1 := Deliver(core, ds[0]);
      if core1.stuck { DeliverAllStuck(core1, ds[1..]); }
      DeliverGrows(core, ds[0]);
      DeliverWrites(core, ds[0]);
      DeliverAllWrites(core1, ds[1..]);
      var log := DeliverAll(core, ds).log;
      assert core1.log <= log && log[|core.log|] == core1.log[|core.log|];
      var ws := log[|core1.log|..];
      forall i | 0 <= i < |ds| ensures IsCopy(log[|core.log|..][i], ds[i]) {
        if i > 0 { assert log[|core.log|..][i] == ws[i - 1] && ds[i] == ds[1..][i - 1]; }
      }
    }
  }

  /** Those of the written copies that went to a session with a QoS. */
  function Recordings(ws: seq<Write>, ds: seq<Delivery>, ref: Channel, qos: byte): seq<Publish>
    requires |ws| == |ds|
  {
    if ds == [] then []
    else
      var rest := Recordings(ws[1..], ds[1..], ref, qos);
      if ds[0].client.session == ref && ws[0].packet.Forward? && ws[0].packet.publish.qos == qos
        then [ws[0].packet.publish] + rest
      else rest
  }

  /** Between a and b the deliveries were written, and what they recorded in session ref. */
  ghost predicate Records(a: Core, b: Core, ds: seq<Delivery>, ref: Channel) {
    && ref in a.heap && ref in b.heap && a.log <= b.log && |b.log| == |a.log| + |ds|
    && b.heap[ref].forAck == a.heap[ref].forAck + Recordings(b.log[|a.log|..], ds, ref, 1)
    && b.heap[ref].forRec == a.heap[ref].forRec + Recordings(b.log[|a.log|..], ds, ref, 2)
  }

  lemma OneRecording(w: Write, d: Delivery, ref: Channel, qos: byte)
    ensures Recordings([w], [d], ref, qos) ==
      if d.client.session == ref && w.packet.Forward? && w.packet.publish.qos == qos then [w.packet.publish] else []
  {
    assert Recordings([w][1..], [d][1..], ref, qos) == [];
  }

  lemma DeliverRecords(core: Core, d: Delivery, ref: Channel)
    requires !Deliver(core, d).stuck && d.client.session in core.heap && ref in core.heap
    ensures Records(core, Deliver(core, d), [d], ref)
  {
    var b := Deliver(core, d);
    var w := b.log[|core.log|];
    assert b.log[|core.log|..] == [w];
    OneRecording(w, d, ref, 1);
    OneRecording(w, d, ref, 2);
  }

  lemma RecordingsCons(w: Write, ws: seq<Write>, d: Delivery, ds: seq<Delivery>, ref: Channel, qos: byte)
    requires |ws| == |ds|
    ensures Recordings([w] + ws, [d] + ds, ref, qos) == Recordings([w], [d], ref, qos) + Recordings(ws, ds, ref, qos)
  {
    assert ([w] + ws)[1..] == ws && ([d] + ds)[1..] == ds;
    OneRecording(w, d, ref, qos);
  }

  lemma RecordsCons(a: Core, b: Core, c: Core, d: Delivery, ds: seq<Delivery>, ref: Channel)
    requires Records(a, b, [d], ref) && Records(b, c, ds, ref)
    ensures Records(a, c, [d] + ds, ref)
  {
    var w, ws := b.log[|a.log|], c.log[|b.log|..];
    assert b.log[|a.log|..] == [w] && c.log[|a.log|..] == [w] + ws;
    RecordingsCons(w, ws, d, ds, ref, 1);
    RecordingsCons(w, ws, d, ds, ref, 2);
    Assoc(a.heap[ref].forAck, Recordings([w], [d], ref, 1), Recordings(ws, ds, ref, 1));
    Assoc(a.heap[ref].forRec, Recordings([w], [d], ref, 2), Recordings(ws, ds, ref, 2));
  }

  /** What is written with QoS 1 or 2 is recorded, in order, in the session of its client; nothing else is. */
  lemma {:induction false} DeliverAllRecords(core: Core, ds: seq<Delivery>, ref: Channel)
    requires !DeliverAll(core, ds).stuck && ref in core.heap
    requires forall i :: 0 <= i < |ds| ==> ds[i].client.session in core.heap
    ensures Records(core, DeliverAll(core, ds), ds, ref)
    decreases ds
  {
    if ds != [] {
      var core1 := Deliver(core, ds[0]);
      if core1.stuck { DeliverAllStuck(core1, ds[1..]); }
      DeliverGrows(core, ds[0]);
      DeliverRecords(core, ds[0], ref);
      DeliverAllRecords(core1, ds[1..], ref);
      assert ds == [ds[0]] + ds[1..];
      RecordsCons(core, core1, DeliverAll(core, ds), ds[0], ds[1..], ref);
    }
  }
}
