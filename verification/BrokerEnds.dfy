/**
  When a handler ends. The loop of `new_packet_id` goes on for ever when a session has every identifier
  in flight; here is the exact condition, on the state before the call, for each kind of event.
 */
module BrokerEnds {
  import opened Basics
  import opened Packets
  import opened Sessions
  import opened Broker
  import opened BrokerCore
  import opened BrokerInvariant

  // ---------------------------------------------------------------- a series of sends

  /** The copy of d is recorded, and so keeps its identifier. */
  predicate Takes(d: Delivery) {
    var qos := Min(d.packet.qos, d.qos);
    qos == 1 || qos == 2
  }

  /** How many identifiers some deliveries take from a session. */
  function Load(ds: seq<Delivery>, ref: Channel): nat {
    if ds == [] then 0 else (if ds[0].client.session == ref && Takes(ds[0]) then 1 else 0) + Load(ds[1..], ref)
  }

  /** At its turn, each delivery finds an identifier free in its session. */
  ghost predicate Room(core: Core, ds: seq<Delivery>) {
    forall i :: 0 <= i < |ds| ==> RoomAt(core, ds, i)
  }

  predicate RoomAt(core: Core, ds: seq<Delivery>, i: nat)
    requires i < |ds|
  {
    var ref := ds[i].client.session;
    ref in core.heap ==> Taken(core.heap[ref]) + Load(ds[..i], ref) < MAX_ID
  }

  lemma RecordedTaken(s: SessionState, d: Delivery)
    requires NewId(s).found
    ensures Taken(Recorded(s, Copy(d, NewId(s).id), NewId(s).next)) == Taken(s) + if Takes(d) then 1 else 0
  {
    AllocatorCorrect(s);
    RecordedUses(s, Copy(d, NewId(s).id), NewId(s).next);
    if Takes(d) { assert (Used(s) + {NewId(s).id}) - {0} == (Used(s) - {0}) + {NewId(s).id}; }
  }

  lemma RecordedUses(s: SessionState, p: Publish, next: uint16)
    ensures Used(Recorded(s, p, next)) == if p.qos == 1 || p.qos == 2 then Used(s) + {p.packetId} else Used(s)
  {
    IdsSnoc(s.forAck, p);
    IdsSnoc(s.forRec, p);
  }

  lemma IdsSnoc(ps: seq<Publish>, p: Publish)
    ensures Ids(ps + [p]) == Ids(ps) + {p.packetId}
  {
    assert (ps + [p])[|ps|] == p;
    forall id | id in Ids(ps) ensures id in Ids(ps + [p]) {
      var i :| 0 <= i < |ps| && ps[i].packetId == id;
      assert (ps + [p])[i].packetId == id;
    }
  }

  lemma DeliverTaken(core: Core, d: Delivery)
    requires !core.stuck
    ensures var b := Deliver(core, d);
      && (b.stuck <==> d.client.session in core.heap && Taken(core.heap[d.client.session]) >= MAX_ID)
      && b.heap.Keys == core.heap.Keys
      && forall r :: r in core.heap && !b.stuck ==> Taken(b.heap[r]) == Taken(core.heap[r]) + Load([d], r)
  {
    DeliverGrows(core, d);
    forall r ensures Load([d], r) == if d.client.session == r && Takes(d) then 1 else 0 { OneLoad(d, r); }
    if d.client.session in core.heap {
      var s := core.heap[d.client.session];
      AllocatorEndsIff(s);
      if NewId(s).found { RecordedTaken(s, d); }
    }
  }

  lemma OneLoad(d: Delivery, ref: Channel)
    ensures Load([d], ref) == if d.client.session == ref && Takes(d) then 1 else 0
  {
    assert Load([d][1..], ref) == 0;
  }

  lemma LoadCons(d: Delivery, ds: seq<Delivery>, ref: Channel)
    ensures Load([d] + ds, ref) == Load([d], ref) + Load(ds, ref)
  {
    assert ([d] + ds)[1..] == ds;
    OneLoad(d, ref);
  }

  /** Room for a series is room for its first delivery, and room for the others after it. */
  lemma RoomCons(a: Core, b: Core, d: Delivery, ds: seq<Delivery>)
    requires b.heap.Keys == a.heap.Keys
    requires forall r :: r in a.heap ==> Taken(b.heap[r]) == Taken(a.heap[r]) + Load([d], r)
    ensures Room(a, [d] + ds) <==>
      (d.client.session in a.heap ==> Taken(a.heap[d.client.session]) < MAX_ID) && Room(b, ds)
  {
    var all := [d] + ds;
    assert all[..0] == [] && Load(all[..0], d.client.session) == 0;
    assert RoomAt(a, all, 0) <==> (d.client.session in a.heap ==> Taken(a.heap[d.client.session]) < MAX_ID);
    forall i | 0 <= i < |ds| ensures RoomAt(b, ds, i) <==> RoomAt(a, all, i + 1) {
      assert all[..i + 1] == [d] + ds[..i] && all[i + 1] == ds[i];
      LoadCons(d, ds[..i], ds[i].client.session);
    }
    if Room(a, all) {
      forall i | 0 <= i < |ds| ensures RoomAt(b, ds, i) { assert RoomAt(a, all, i + 1); }
    }
    if RoomAt(a, all, 0) && Room(b, ds) {
      forall i | 0 <= i < |all| ensures RoomAt(a, all, i) {
        if i > 0 { assert RoomAt(b, ds, i - 1); }
      }
    }
  }

  /** Main result: a series of sends ends if and only if each finds an identifier free at its turn. */
  lemma {:induction false} SendingEndsIff(core: Core, ds: seq<Delivery>)
    requires !core.stuck
    ensures !DeliverAll(core, ds).stuck <==> Room(core, ds)
    decreases ds
  {
    if ds != [] {
      var core1 := Deliver(core, ds[0]);
      DeliverTaken(core, ds[0]);
      assert ds == [ds[0]] + ds[1..];
      if core1.stuck {
        DeliverAllStuck(core1, ds[1..]);
        assert ds[..0] == [] && !RoomAt(core, ds, 0);
      } else {
        SendingEndsIff(core1, ds[1..]);
        RoomCons(core, core1, ds[0], ds[1..]);
      }
    }
  }

  lemma {:induction false} LoadBound(ds: seq<Delivery>, ref: Channel)
    ensures Load(ds, ref) <= |ds|
  {
    if ds != [] { LoadBound(ds[1..], ref); }
  }

  /** So sending k copies ends while every session has room for k more identifiers. */
  lemma RoomEnough(core: Core, ds: seq<Delivery>)
    requires !core.stuck && forall r :: r in core.heap ==> |Used(core.heap[r])| + |ds| <= MAX_ID
    ensures !DeliverAll(core, ds).stuck
  {
    SendingEndsIff(core, ds);
    forall i | 0 <= i < |ds| ensures RoomAt(core, ds, i) {
      var ref := ds[i].client.session;
      LoadBound(ds[..i], ref);
      if ref in core.heap { SubsetSize(Used(core.heap[ref]) - {0}, Used(core.heap[ref])); }
    }
  }

  // ---------------------------------------------------------------- the handlers

  lemma SameRoom(a: Core, b: Core, ds: seq<Delivery>)
    requires b.heap.Keys == a.heap.Keys && forall r :: r in a.heap ==> Taken(b.heap[r]) == Taken(a.heap[r])
    ensures Room(a, ds) <==> Room(b, ds)
  {
    forall i | 0 <= i < |ds| ensures RoomAt(a, ds, i) <==> RoomAt(b, ds, i) {}
  }

  /** One session object replaced by one with the same identifiers in flight. */
  lemma UpdateRoom(core: Core, ref: Channel, ses: SessionState, b: Core, ds: seq<Delivery>)
    requires ref in core.heap && Used(ses) == Used(core.heap[ref]) && b.heap == core.heap[ref := ses]
    ensures Room(core, ds) <==> Room(b, ds)
  {
    SameRoom(core, b, ds);
  }

  /** The notes of a PUBLISH about a message that the last topic had no client for. */
  function Notes(s: Server, p: Publish, o: Orders): seq<Delivery> {
    if Sent(s.tables.wild, o.filters, p, TopicOr(s.tables.exact, p.topic).entries != map[]) then []
    else TopicDeliveries(s.trash, o.ids, TrashNote(p))
  }

  lemma AcknowledgeRoom(core: Core, c: Client, p: Publish, ds: seq<Delivery>)
    ensures Acknowledge(core, c, p).stuck == core.stuck && (Room(Acknowledge(core, c, p), ds) <==> Room(core, ds))
  {
    if p.qos == 2 && c.session in core.heap {
      var ses := core.heap[c.session];
      UpdateRoom(core, c.session, ses.(pubrel := ses.pubrel + [p.packetId]), Acknowledge(core, c, p), ds);
    } else {
      SameRoom(core, Acknowledge(core, c, p), ds);
    }
  }

  lemma DupIds(ps: seq<Publish>)
    ensures Ids(Dup(ps)) == Ids(ps)
  {
    forall i | 0 <= i < |ps| ensures Dup(ps)[i].packetId == ps[i].packetId {}
  }

  lemma ReplayRoom(core: Core, c: Client, w: Write, ds: seq<Delivery>)
    requires c.session in core.heap
    ensures Room(ReplayCore(Wrote(core, w), c), ds) <==> Room(core, ds)
  {
    var ses := core.heap[c.session];
    DupIds(ses.forAck);
    DupIds(ses.forRec);
    UpdateRoom(core, c.session, Replayed(ses), ReplayCore(Wrote(core, w), c), ds);
  }

  // ---------------------------------------------------------------- every step

  /** The retained messages a restored session brings. */
  function Restored(s: Server, c: Client, o: Orders): seq<Delivery>
    requires c.session in s.core.heap
  {
    var subs := s.core.heap[c.session].subs;
    RestoreRetained(AttachAll(s.tables, c, subs, o.subs), c, subs, o)
  }

  function WillCopies(s: Server, c: Client, o: Orders): seq<Delivery>
    requires WillDue(s, c)
  {
    var w := c.will.value;
    TopicDeliveries(s.tables.exact[w.topic], o.ids, WillPacket(w, NewId(s.core.heap[c.session]).id))
  }

  /** The client a CONNECT that restores a session makes. */
  function Returning(s: Server, ch: Channel, l: Login): Client
    requires Restores(s, l)
  {
    Client(ch, l.id, l.admin, l.clean, l.will, s.sessions[l.id])
  }

  /** The channel is one of a client with a session. */
  predicate Served(s: Server, ch: Channel) {
    ch in s.params && s.params[ch].session in s.core.heap
  }

  /** What an event makes the broker send through `mqtt_client::publish`, read off the state before it. */
  function Sends(s: Server, e: Event, o: Orders): seq<Delivery> {
    match e
    case Connecting(ch, l) => if l.code == 0 && Restores(s, l) then Restored(s, Returning(s, ch, l), o) else []
    case Subscribing(ch, _, items) =>
      if !Served(s, ch) then []
      else
        var a := Subscribed(s, s.params[ch], items);
        Retained(a.tables, s.params[ch], a.plain, a.wilds, o)
    case Publishing(ch, p) => if ch in s.params then FanOut(s.tables, p, o) + Notes(s, p, o) else []
    case Losing(ch) => if ch in s.params && WillDue(s, s.params[ch]) then WillCopies(s, s.params[ch], o) else []
    case _ => []
  }

  /** The identifier of a will is drawn from the session of the client lost. */
  function WillCore(core: Core, ref: Channel): Core
    requires ref in core.heap
  {
    var r := NewId(core.heap[ref]);
    if r.found then MoveCursor(core, ref, r.next) else core.(stuck := true)
  }

  /** The sessions and the log by the time the sending starts. */
  function Before(s: Server, e: Event, o: Orders): Core {
    match e
    case Connecting(ch, l) =>
      if l.code == 0 && Restores(s, l) then
        ReplayCore(Wrote(s.core, Write(ch, Connack(true, 0))), Returning(s, ch, l))
      else HandleConnect(s, ch, l, o).core
    case Subscribing(ch, id, items) =>
      if !Served(s, ch) then s.core
      else
        var a := Subscribed(s, s.params[ch], items);
        Resubscribe(s.core, s.params[ch].session, a.subs, Write(ch, SubackPacket(id, a.codes)))
    case Unsubscribing(ch, id, names) => HandleUnsubscribe(s, ch, id, names).core
    case Publishing(ch, p) => if ch in s.params then Acknowledge(s.core, s.params[ch], p) else s.core
    case Losing(ch) =>
      if ch in s.params && WillDue(s, s.params[ch]) then WillCore(s.core, s.params[ch].session) else s.core
    case Disconnecting(_) => s.core
    case _ => HandleAck(s, e).core
  }

  lemma ConnectSends(s: Server, ch: Channel, l: Login, o: Orders)
    ensures HandleConnect(s, ch, l, o).core ==
      DeliverAll(Before(s, Connecting(ch, l), o), Sends(s, Connecting(ch, l), o))
  {
    var s1 := Evict(s.(seen := s.seen + {ch}), if l.id == [] then l.generated else l.id);
    var s2 := Admit(s1, ch, l);
    if l.code == 0 && Restores(s, l) {
      assert s2.params[ch] == Returning(s, ch, l) && s2.core == Wrote(s.core, Write(ch, Connack(true, 0)));
    }
  }

  lemma LosingSends(s: Server, ch: Channel, o: Orders)
    ensures HandleLost(s, ch, o).core == DeliverAll(Before(s, Losing(ch), o), Sends(s, Losing(ch), o))
  {
    if ch in s.params && WillDue(s, s.params[ch]) {
      DeliverAllStuck(s.core.(stuck := true), WillCopies(s, s.params[ch], o));
    }
  }

  lemma PublishSends(s: Server, ch: Channel, p: Publish, o: Orders)
    ensures HandlePublish(s, ch, p, o).core ==
      DeliverAll(Before(s, Publishing(ch, p), o), Sends(s, Publishing(ch, p), o))
  {
    if ch in s.params {
      DeliverAllAppend(Acknowledge(s.core, s.params[ch], p), FanOut(s.tables, p, o), Notes(s, p, o));
    }
  }

  /** Every step is some bookkeeping and then a series of sends. */
  lemma StepSends(s: Server, e: Event, o: Orders)
    requires !s.core.stuck
    ensures Step(s, e, o).core == DeliverAll(Before(s, e, o), Sends(s, e, o))
  {
    match e
    case Connecting(ch, l) => ConnectSends(s, ch, l, o);
    case Publishing(ch, p) => PublishSends(s, ch, p, o);
    case Losing(ch) => LosingSends(s, ch, o);
    case _ =>
  }

  /** Room for all an event sends; and a will first takes an identifier from its own session, in passing. */
  ghost predicate Ends(s: Server, e: Event, o: Orders) {
    Room(s.core, Sends(s, e, o)) && WillEnds(s, e)
  }

  predicate WillEnds(s: Server, e: Event) {
    e.Losing? && e.ch in s.params && WillDue(s, s.params[e.ch]) ==>
      Taken(s.core.heap[s.params[e.ch].session]) < MAX_ID
  }

  lemma WillRoom(core: Core, ref: Channel, ds: seq<Delivery>)
    requires !core.stuck && ref in core.heap
    ensures var b := WillCore(core, ref);
      b.stuck == (Taken(core.heap[ref]) >= MAX_ID) && (!b.stuck ==> (Room(b, ds) <==> Room(core, ds)))
  {
    var next := NewId(core.heap[ref]).next;
    AllocatorEndsIff(core.heap[ref]);
    UpdateRoom(core, ref, core.heap[ref].(next := next), MoveCursor(core, ref, next), ds);
  }

  lemma SubscribeRoom(s: Server, ch: Channel, id: uint16, items: seq<Item>, o: Orders, ds: seq<Delivery>)
    requires Served(s, ch)
    ensures Room(Before(s, Subscribing(ch, id, items), o), ds) <==> Room(s.core, ds)
  {
    var ref, b := s.params[ch].session, Before(s, Subscribing(ch, id, items), o);
    UpdateRoom(s.core, ref, s.core.heap[ref].(subs := b.heap[ref].subs), b, ds);
  }

  /** The bookkeeping takes and frees no identifier in a session that is then sent something. */
  lemma BeforeRoom(s: Server, e: Event, o: Orders)
    requires !s.core.stuck
    ensures var b, ds := Before(s, e, o), Sends(s, e, o);
      b.stuck == !WillEnds(s, e) && (!b.stuck ==> (Room(b, ds) <==> Room(s.core, ds)))
  {
    var ds := Sends(s, e, o);
    match e
    case Connecting(ch, l) =>
      if l.code == 0 && Restores(s, l) { ReplayRoom(s.core, Returning(s, ch, l), Write(ch, Connack(true, 0)), ds); }
    case Subscribing(ch, id, items) => if Served(s, ch) { SubscribeRoom(s, ch, id, items, o, ds); }
    case Publishing(ch, p) => if ch in s.params { AcknowledgeRoom(s.core, s.params[ch], p, ds); }
    case Losing(ch) => if ch in s.params && WillDue(s, s.params[ch]) { WillRoom(s.core, s.params[ch].session, ds); }
    case _ =>
  }

  /** Main result on the loop of `new_packet_id`: the handler of an event ends if and only if each copy it
      sends finds, at its turn, fewer than 65,535 identifiers in flight in the session it goes to. */
  lemma StepEndsIff(s: Server, e: Event, o: Orders)
    requires !s.core.stuck
    ensures !Step(s, e, o).core.stuck <==> Ends(s, e, o)
  {
    StepSends(s, e, o);
    BeforeRoom(s, e, o);
    if Before(s, e, o).stuck {
      DeliverAllStuck(Before(s, e, o), Sends(s, e, o));
    } else {
      SendingEndsIff(Before(s, e, o), Sends(s, e, o));
    }
  }

  lemma PublishEnds(s: Server, ch: Channel, p: Publish, o: Orders)
    requires !s.core.stuck && Ends(s, Publishing(ch, p), o)
    ensures !HandlePublish(s, ch, p, o).core.stuck
  {
    StepEndsIff(s, Publishing(ch, p), o);
  }

  lemma LosingEnds(s: Server, ch: Channel, o: Orders)
    requires !s.core.stuck && Ends(s, Losing(ch), o)
    ensures !HandleLost(s, ch, o).core.stuck
  {
    StepEndsIff(s, Losing(ch), o);
  }
}
