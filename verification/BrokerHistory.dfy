/** Whole runs: what is in flight in a session is conserved until its own acknowledgement. */
module BrokerHistory {
  import opened Basics
  import opened Packets
  import opened Sessions
  import opened Broker
  import opened BrokerCore
  import opened BrokerInvariant
  import opened BrokerRetained

  // ---------------------------------------------------------------- in-flight lists, step by step

  /** The same packet, but for the `dup` a replay sets. */
  predicate Alike(p: Publish, q: Publish) {
    q == p || q == p.(dup := true)
  }

  ghost predicate Extends(a: seq<Publish>, b: seq<Publish>) {
    |a| <= |b| && forall i :: 0 <= i < |a| ==> Alike(a[i], b[i])
  }

  /** Nothing pending is lost, reordered or changed; new messages only come at the end. */
  ghost predicate Evolves(a: SessionState, b: SessionState) {
    Extends(a.forAck, b.forAck) && Extends(a.forRec, b.forRec) && b.pubcomp == a.pubcomp
  }

  /** The step is an acknowledgement for this session object. */
  predicate Hears(s: Server, e: Event, ref: Channel) {
    !s.core.stuck && IsAck(e) && e.ch in s.params && s.params[e.ch].session == ref && ref in s.core.heap
  }

  lemma GrowsEvolves(a: SessionState, b: SessionState)
    requires SessionGrows(a, b)
    ensures Evolves(a, b)
  {
  }

  ghost predicate AllEvolve(a: Core, b: Core) {
    forall r :: r in a.heap ==> r in b.heap && Evolves(a.heap[r], b.heap[r])
  }

  lemma GrowsAllEvolve(a: Core, b: Core)
    requires Grows(a, b)
    ensures AllEvolve(a, b)
  {
    forall r | r in a.heap ensures r in b.heap && Evolves(a.heap[r], b.heap[r]) {
      assert SessionGrows(a.heap[r], b.heap[r]);
    }
  }

  lemma EvolvesTransitive(a: SessionState, b: SessionState, c: SessionState)
    requires Evolves(a, b) && Evolves(b, c)
    ensures Evolves(a, c)
  {
    ExtendsTransitive(a.forAck, b.forAck, c.forAck);
    ExtendsTransitive(a.forRec, b.forRec, c.forRec);
  }

  lemma ExtendsTransitive(a: seq<Publish>, b: seq<Publish>, c: seq<Publish>)
    requires Extends(a, b) && Extends(b, c)
    ensures Extends(a, c)
  {
    forall i | 0 <= i < |a| ensures Alike(a[i], c[i]) { assert Alike(a[i], b[i]) && Alike(b[i], c[i]); }
  }

  lemma AllEvolveTransitive(a: Core, b: Core, c: Core)
    requires AllEvolve(a, b) && AllEvolve(b, c)
    ensures AllEvolve(a, c)
  {
    forall r | r in a.heap ensures r in c.heap && Evolves(a.heap[r], c.heap[r]) {
      assert r in b.heap && Evolves(a.heap[r], b.heap[r]);
      assert Evolves(b.heap[r], c.heap[r]);
      EvolvesTransitive(a.heap[r], b.heap[r], c.heap[r]);
    }
  }

  /** One session object replaced by one that lost nothing. */
  lemma OneEvolves(core: Core, ref: Channel, ses: SessionState, log: seq<Write>, stuck: bool)
    requires ref in core.heap ==> Evolves(core.heap[ref], ses)
    ensures AllEvolve(core, Core(core.heap[ref := ses], log, stuck))
  {
    forall r | r in core.heap ensures Evolves(core.heap[r], core.heap[ref := ses][r]) {
      if r != ref { GrowsEvolves(core.heap[r], core.heap[r]); }
    }
  }

  lemma SendEvolves(core: Core, core1: Core, ds: seq<Delivery>)
    requires AllEvolve(core, core1)
    ensures AllEvolve(core, DeliverAll(core1, ds))
  {
    DeliverAllGrows(core1, ds);
    GrowsAllEvolve(core1, DeliverAll(core1, ds));
    AllEvolveTransitive(core, core1, DeliverAll(core1, ds));
  }

  lemma SameEvolves(core: Core)
    ensures AllEvolve(core, core)
  {
    forall r | r in core.heap ensures Evolves(core.heap[r], core.heap[r]) { GrowsEvolves(core.heap[r], core.heap[r]); }
  }

  lemma PublishEvolves(s: Server, ch: Channel, p: Publish, o: Orders)
    ensures AllEvolve(s.core, HandlePublish(s, ch, p, o).core)
  {
    SameEvolves(s.core);
    if ch in s.params {
      var c := s.params[ch];
      var core := Acknowledge(s.core, c, p);
      if p.qos == 2 && c.session in s.core.heap {
        var ses := s.core.heap[c.session];
        GrowsEvolves(ses, ses);
        OneEvolves(s.core, c.session, ses.(pubrel := ses.pubrel + [p.packetId]), core.log, core.stuck);
      }
      SendEvolves(s.core, core, FanOut(s.tables, p, o));
      SendEvolves(s.core, DeliverAll(core, FanOut(s.tables, p, o)), TopicDeliveries(s.trash, o.ids, TrashNote(p)));
    }
  }

  lemma ResubscribeEvolves(core: Core, ref: Channel, subs: map<Str, Sub>, w: Write)
    requires ref in core.heap
    ensures AllEvolve(core, Resubscribe(core, ref, subs, w))
  {
    GrowsEvolves(core.heap[ref], core.heap[ref]);
    OneEvolves(core, ref, core.heap[ref].(subs := subs), core.log + [w], core.stuck);
  }

  lemma SubscribeEvolves(s: Server, ch: Channel, packetId: uint16, items: seq<Item>, o: Orders)
    ensures AllEvolve(s.core, HandleSubscribe(s, ch, packetId, items, o).core)
  {
    SameEvolves(s.core);
    if ch in s.params && s.params[ch].session in s.core.heap {
      var c := s.params[ch];
      var a := Subscribed(s, c, items);
      var w := Write(ch, SubackPacket(packetId, a.codes));
      ResubscribeEvolves(s.core, c.session, a.subs, w);
      SendEvolves(s.core, Resubscribe(s.core, c.session, a.subs, w), Retained(a.tables, c, a.plain, a.wilds, o));
    }
  }

  lemma UnsubscribeEvolves(s: Server, ch: Channel, packetId: uint16, names: seq<Named>)
    ensures AllEvolve(s.core, HandleUnsubscribe(s, ch, packetId, names).core)
  {
    SameEvolves(s.core);
    if ch in s.params && s.params[ch].session in s.core.heap {
      var c := s.params[ch];
      var a := UnsubscribeNames(Removal(s.tables, s.core.heap[c.session].subs), c.id, names);
      ResubscribeEvolves(s.core, c.session, a.subs, Write(ch, Unsuback(packetId)));
    }
  }

  lemma CursorEvolves(core: Core, ref: Channel, next: uint16)
    requires ref in core.heap
    ensures AllEvolve(core, MoveCursor(core, ref, next))
  {
    GrowsEvolves(core.heap[ref], core.heap[ref]);
    OneEvolves(core, ref, core.heap[ref].(next := next), core.log, core.stuck);
  }

  lemma LostEvolves(s: Server, ch: Channel, o: Orders)
    ensures AllEvolve(s.core, HandleLost(s, ch, o).core)
  {
    SameEvolves(s.core);
    if ch in s.params && PublishesWill(s, s.params[ch]) {
      var c, p := s.params[ch], WillOut(s, s.params[ch]);
      var next := NewId(s.core.heap[c.session]).next;
      CursorEvolves(s.core, c.session, next);
      SendEvolves(s.core, MoveCursor(s.core, c.session, next), TopicDeliveries(s.tables.exact[p.topic], o.ids, p));
    }
  }

  lemma RestoreEvolves(s: Server, c: Client, o: Orders)
    requires c.session in s.core.heap
    ensures AllEvolve(s.core, Restore(s, c, o).core)
  {
    var ses := s.core.heap[c.session];
    var t := AttachAll(s.tables, c, ses.subs, o.subs);
    assert Evolves(ses, Replayed(ses));
    OneEvolves(s.core, c.session, Replayed(ses), s.core.log + Replay(c.channel, ses), s.core.stuck);
    SendEvolves(s.core, ReplayCore(s.core, c), RestoreRetained(t, c, ses.subs, o));
  }

  lemma AdmitEvolves(s: Server, s1: Server, ch: Channel, l: Login)
    requires ch !in s.core.heap && s1.core == s.core
    ensures AllEvolve(s.core, Admit(s1, ch, l).core)
  {
    SameEvolves(s.core);
    OneEvolves(s.core, ch, NewSession, Admit(s1, ch, l).core.log, s.core.stuck);
  }

  lemma ConnectEvolves(s: Server, ch: Channel, l: Login, o: Orders)
    requires ch !in s.core.heap
    ensures AllEvolve(s.core, HandleConnect(s, ch, l, o).core)
  {
    SameEvolves(s.core);
    if l.code == 0 {
      var s1 := Evict(s.(seen := s.seen + {ch}), if l.id == [] then l.generated else l.id);
      var s2 := Admit(s1, ch, l);
      AdmitEvolves(s, s1, ch, l);
      if Restores(s1, l) {
        RestoreEvolves(s2, s2.params[ch], o);
        AllEvolveTransitive(s.core, s2.core, Restore(s2, s2.params[ch], o).core);
      }
    }
  }

  lemma AckEvolves(s: Server, e: Event, ref: Channel)
    requires IsAck(e) && ref in s.core.heap && !s.core.stuck
    ensures ref in HandleAck(s, e).core.heap
    ensures var b := HandleAck(s, e).core.heap[ref];
      if Hears(s, e, ref) then b == AckSession(s.core.heap[ref], e) else Evolves(s.core.heap[ref], b)
  {
    GrowsEvolves(s.core.heap[ref], s.core.heap[ref]);
  }

  /** A QoS 2 exchange carried through by the client on its connection: PUBREC is answered with PUBREL and
      keeps the identifier, PUBCOMP gives it back to the allocator, and nothing else is written. */
  lemma HandshakeFreesId(s: Server, ch: Channel, id: uint16, o: Orders)
    requires Connections(s) && !s.core.stuck && ch in s.params && s.params[ch].session in s.core.heap
    requires Strict(s.core.heap[s.params[ch].session]) && id in Ids(s.core.heap[s.params[ch].session].forRec)
    ensures var s1, ref := Step(s, GotPubrec(ch, id), o), s.params[ch].session;
      var s2 := Step(s1, Completed(ch, id), o);
      && ref in s1.core.heap && id in Used(s1.core.heap[ref]) && ref in s2.core.heap && id !in Used(s2.core.heap[ref])
      && s2.core.log == s.core.log + [Write(ch, Pubrel(id))]
  {
    HeardStep(s, GotPubrec(ch, id), o);
    HeardStep(Step(s, GotPubrec(ch, id), o), Completed(ch, id), o);
    CompletedIsFree(s.core.heap[s.params[ch].session], id);
  }

  lemma HeardStep(s: Server, e: Event, o: Orders)
    requires IsAck(e) && !s.core.stuck && e.ch in s.params && s.params[e.ch].session in s.core.heap
    ensures var s', ref := Step(s, e, o), s.params[e.ch].session;
      && s'.params == s.params && !s'.core.stuck && ref in s'.core.heap
      && s'.core.heap[ref] == AckSession(s.core.heap[ref], e)
      && s'.core.log == if AckReply(e) == [] then s.core.log else s.core.log + AckReply(e)
  {
    assert s.core.log + [] == s.core.log;
  }

  /** One step, for every session object: an acknowledgement on its own connection does what it names, and
      nothing else loses, reorders or changes what is pending. */
  lemma StepEvolves(s: Server, e: Event, o: Orders, ref: Channel)
    requires Connections(s) && Possible(s, e) && ref in s.core.heap
    ensures ref in Step(s, e, o).core.heap
    ensures var a, b := s.core.heap[ref], Step(s, e, o).core.heap[ref];
      if Hears(s, e, ref) then b == AckSession(a, e) else Evolves(a, b)
  {
    if s.core.stuck {
      SameEvolves(s.core);
    } else {
      match e
      case Connecting(ch, l) => ConnectEvolves(s, ch, l, o);
      case Subscribing(ch, id, items) => SubscribeEvolves(s, ch, id, items, o);
      case Unsubscribing(ch, id, names) => UnsubscribeEvolves(s, ch, id, names);
      case Publishing(ch, p) => PublishEvolves(s, ch, p, o);
      case Disconnecting(ch) => SameEvolves(s.core);
      case Losing(ch) => LostEvolves(s, ch, o);
      case _ => AckEvolves(s, e, ref);
    }
  }

  /** The receiver's side of QoS 2: the identifier of an inbound message is noted, once, in the sender's
      session, whatever the message is then forwarded to. */
  lemma InboundRecorded(s: Server, ch: Channel, p: Publish, o: Orders, ref: Channel)
    requires Connections(s) && ch in s.params && ref in s.core.heap
    ensures var s' := HandlePublish(s, ch, p, o);
      ref in s'.core.heap
        && s'.core.heap[ref].pubrel ==
          s.core.heap[ref].pubrel + if ref == s.params[ch].session && p.qos == 2 then [p.packetId] else []
  {
    ClientOf(s, ch);
    var core := Acknowledge(s.core, s.params[ch], p);
    SendKeepsPubrel(core, FanOut(s.tables, p, o), ref);
    SendKeepsPubrel(DeliverAll(core, FanOut(s.tables, p, o)), TopicDeliveries(s.trash, o.ids, TrashNote(p)), ref);
  }

  lemma SendKeepsPubrel(core: Core, ds: seq<Delivery>, ref: Channel)
    requires ref in core.heap
    ensures ref in DeliverAll(core, ds).heap && DeliverAll(core, ds).heap[ref].pubrel == core.heap[ref].pubrel
  {
    DeliverAllGrows(core, ds);
    assert SessionGrows(core.heap[ref], DeliverAll(core, ds).heap[ref]);
  }

  // ---------------------------------------------------------------- conservation over runs

  datatype Kind = Ack | Rec | Rel | Comp

  predicate Names(e: Event, k: Kind, id: uint16) {
    match k
    case Ack => e.Acked? && e.packetId == id
    case Rec => e.GotPubrec? && e.packetId == id
    case Rel => e.Released? && e.packetId == id
    case Comp => e.Completed? && e.packetId == id
  }

  /** Some step of the run is this acknowledgement, on a connection of this session. */
  predicate Heard(s: Server, es: seq<(Event, Orders)>, ref: Channel, k: Kind, id: uint16)
    decreases es
  {
    es != [] && ((Hears(s, es[0].0, ref) && Names(es[0].0, k, id))
      || Heard(Step(s, es[0].0, es[0].1), es[1..], ref, k, id))
  }

  /** p is in the list, whatever its `dup`. */
  ghost predicate Pending(ps: seq<Publish>, p: Publish) {
    exists i :: 0 <= i < |ps| && ps[i].(dup := p.dup) == p
  }

  /** A QoS 2 exchange that is not over: its publish awaits PUBREC, or its identifier PUBCOMP. */
  ghost predicate Open(ses: SessionState, id: uint16) {
    id in Ids(ses.forRec) || id in ses.pubcomp
  }

  lemma ExtendsKeeps(a: seq<Publish>, b: seq<Publish>, p: Publish)
    requires Extends(a, b) && Pending(a, p)
    ensures Pending(b, p)
  {
    var i :| 0 <= i < |a| && a[i].(dup := p.dup) == p;
    assert Alike(a[i], b[i]);
    assert b[i].(dup := p.dup) == p;
  }

  lemma ErasedStays<T>(s: seq<T>, k: nat, i: nat)
    requires k <= |s| && i < |s| && i != k
    ensures var j := if i < k then i else i - 1; j < |EraseAt(s, k)| && EraseAt(s, k)[j] == s[i]
  {
    EraseMembers(s, k);
  }

  lemma EraseKeeps(ps: seq<Publish>, id: uint16, p: Publish)
    requires Pending(ps, p) && p.packetId != id
    ensures Pending(EraseAt(ps, FindPublish(ps, id)), p)
  {
    var i :| 0 <= i < |ps| && ps[i].(dup := p.dup) == p;
    var k := FindPublish(ps, id);
    assert ps[i].packetId == p.packetId;
    ErasedStays(ps, k, i);
  }

  /** PUBACK with its identifier takes a message out for good. */
  lemma EraseEnds(ps: seq<Publish>, p: Publish)
    requires forall i, j :: 0 <= i < j < |ps| ==> ps[i].packetId != ps[j].packetId
    ensures !Pending(EraseAt(ps, FindPublish(ps, p.packetId)), p)
  {
    var r := EraseAt(ps, FindPublish(ps, p.packetId));
    EraseExact(ps, p.packetId);
    forall i | 0 <= i < |r| ensures r[i].(dup := p.dup) != p { assert r[i] in r; }
  }

  lemma AckStep(s: Server, e: Event, o: Orders, ref: Channel, p: Publish)
    requires Connections(s) && Possible(s, e) && ref in s.core.heap && HeapOk(s.core.heap)
    requires Pending(s.core.heap[ref].forAck, p)
    ensures ref in Step(s, e, o).core.heap
    ensures Pending(Step(s, e, o).core.heap[ref].forAck, p) <==> !(Hears(s, e, ref) && Names(e, Ack, p.packetId))
  {
    StepEvolves(s, e, o, ref);
    var a, b := s.core.heap[ref], Step(s, e, o).core.heap[ref];
    assert SessionOk(a);
    if Hears(s, e, ref) { AckedSession(a, e, p); } else { ExtendsKeeps(a.forAck, b.forAck, p); }
  }

  lemma AckedSession(a: SessionState, e: Event, p: Publish)
    requires Phase(a) && IsAck(e) && Pending(a.forAck, p)
    ensures Pending(AckSession(a, e).forAck, p) <==> !Names(e, Ack, p.packetId)
  {
    if e.Acked? {
      if e.packetId == p.packetId { EraseEnds(a.forAck, p); } else { EraseKeeps(a.forAck, e.packetId, p); }
    }
  }

  /** QoS 1 conservation: in any run, a recorded message stays pending exactly until a PUBACK with its
      identifier comes on a connection of its session. */
  lemma {:induction false} Qos1Conserved(s: Server, es: seq<(Event, Orders)>, ref: Channel, p: Publish)
    requires Inv(s) && PossibleRun(s, es) && ref in s.core.heap && Pending(s.core.heap[ref].forAck, p)
    requires !Heard(s, es, ref, Ack, p.packetId)
    ensures ref in Run(s, es).core.heap && Pending(Run(s, es).core.heap[ref].forAck, p)
    decreases es
  {
    if es != [] {
      StepInv(s, es[0].0, es[0].1);
      AckStep(s, es[0].0, es[0].1, ref, p);
      Qos1Conserved(Step(s, es[0].0, es[0].1), es[1..], ref, p);
    }
  }

  lemma RecStep(s: Server, e: Event, o: Orders, ref: Channel, p: Publish)
    requires Connections(s) && Possible(s, e) && ref in s.core.heap && HeapOk(s.core.heap)
    requires Pending(s.core.heap[ref].forRec, p)
    ensures ref in Step(s, e, o).core.heap
    ensures Pending(Step(s, e, o).core.heap[ref].forRec, p) <==> !(Hears(s, e, ref) && Names(e, Rec, p.packetId))
  {
    StepEvolves(s, e, o, ref);
    var a, b := s.core.heap[ref], Step(s, e, o).core.heap[ref];
    assert SessionOk(a);
    if Hears(s, e, ref) { RecSession(a, e, p); } else { ExtendsKeeps(a.forRec, b.forRec, p); }
  }

  lemma RecSession(a: SessionState, e: Event, p: Publish)
    requires Phase(a) && IsAck(e) && Pending(a.forRec, p)
    ensures Pending(AckSession(a, e).forRec, p) <==> !Names(e, Rec, p.packetId)
  {
    if e.GotPubrec? {
      if e.packetId == p.packetId { EraseEnds(a.forRec, p); } else { EraseKeeps(a.forRec, e.packetId, p); }
    }
  }

  /** QoS 2 conservation, first half: the message stays until PUBREC. */
  lemma {:induction false} Qos2Conserved(s: Server, es: seq<(Event, Orders)>, ref: Channel, p: Publish)
    requires Inv(s) && PossibleRun(s, es) && ref in s.core.heap && Pending(s.core.heap[ref].forRec, p)
    requires !Heard(s, es, ref, Rec, p.packetId)
    ensures ref in Run(s, es).core.heap && Pending(Run(s, es).core.heap[ref].forRec, p)
    decreases es
  {
    if es != [] {
      StepInv(s, es[0].0, es[0].1);
      RecStep(s, es[0].0, es[0].1, ref, p);
      Qos2Conserved(Step(s, es[0].0, es[0].1), es[1..], ref, p);
    }
  }

  lemma ExtendsIds(a: seq<Publish>, b: seq<Publish>, id: uint16)
    requires Extends(a, b) && id in Ids(a)
    ensures id in Ids(b)
  {
    var i :| 0 <= i < |a| && a[i].packetId == id;
    assert Alike(a[i], b[i]);
  }

  lemma EraseIds(ps: seq<Publish>, id: uint16, other: uint16)
    requires id in Ids(ps) && id != other
    ensures id in Ids(EraseAt(ps, FindPublish(ps, other)))
  {
    var i :| 0 <= i < |ps| && ps[i].packetId == id;
    var k := FindPublish(ps, other);
    ErasedStays(ps, k, i);
  }

  lemma EraseOther(ids: seq<uint16>, id: uint16, other: uint16)
    requires id in ids && id != other
    ensures id in EraseAt(ids, FindId(ids, other))
  {
    var i :| 0 <= i < |ids| && ids[i] == id;
    var k := FindId(ids, other);
    ErasedStays(ids, k, i);
  }

  lemma AckKeepsOpen(a: SessionState, e: Event, id: uint16)
    requires IsAck(e) && Open(a, id) && !Names(e, Comp, id)
    ensures Open(AckSession(a, e), id)
  {
    if id in a.pubcomp {
      if e.Completed? { EraseOther(a.pubcomp, id, e.packetId); }
    } else if e.GotPubrec? && e.packetId != id {
      EraseIds(a.forRec, id, e.packetId);
    }
  }

  lemma OpenStep(s: Server, e: Event, o: Orders, ref: Channel, id: uint16)
    requires Connections(s) && Possible(s, e) && ref in s.core.heap && Open(s.core.heap[ref], id)
    requires !(Hears(s, e, ref) && Names(e, Comp, id))
    ensures ref in Step(s, e, o).core.heap && Open(Step(s, e, o).core.heap[ref], id)
  {
    StepEvolves(s, e, o, ref);
    var a, b := s.core.heap[ref], Step(s, e, o).core.heap[ref];
    if Hears(s, e, ref) { AckKeepsOpen(a, e, id); }
    else if id in Ids(a.forRec) { ExtendsIds(a.forRec, b.forRec, id); }
  }

  /** QoS 2 conservation as a whole: an exchange stays open, and its identifier taken, until PUBCOMP,
      through reconnections and whatever else the client or anyone else sends. */
  lemma {:induction false} ExchangeConserved(s: Server, es: seq<(Event, Orders)>, ref: Channel, id: uint16)
    requires Inv(s) && PossibleRun(s, es) && ref in s.core.heap && Open(s.core.heap[ref], id)
    requires !Heard(s, es, ref, Comp, id)
    ensures ref in Run(s, es).core.heap && Open(Run(s, es).core.heap[ref], id) && id in Used(Run(s, es).core.heap[ref])
    decreases es
  {
    if es != [] {
      StepInv(s, es[0].0, es[0].1);
      OpenStep(s, es[0].0, es[0].1, ref, id);
      ExchangeConserved(Step(s, es[0].0, es[0].1), es[1..], ref, id);
    }
  }

  // ---------------------------------------------------------------- conforming clients

  ghost predicate AllStrict(core: Core) {
    forall r :: r in core.heap ==> Strict(core.heap[r])
  }

  /** No PUBREC for an identifier that awaits PUBACK or PUBCOMP; a client that answers each PUBLISH of QoS 2
      once never sends one. */
  predicate Conforms(s: Server, e: Event) {
    !s.core.stuck && e.GotPubrec? && e.ch in s.params && s.params[e.ch].session in s.core.heap ==>
      var ses := s.core.heap[s.params[e.ch].session];
      e.packetId !in Ids(ses.forAck) && e.packetId !in ses.pubcomp
  }

  lemma AwaitedConforms(s: Server, e: Event)
    requires AllStrict(s.core)
    requires e.GotPubrec? && e.ch in s.params && s.params[e.ch].session in s.core.heap
    requires e.packetId in Ids(s.core.heap[s.params[e.ch].session].forRec)
    ensures Conforms(s, e)
  {
    var ses := s.core.heap[s.params[e.ch].session];
    assert Strict(ses);
    var i :| 0 <= i < |ses.forRec| && ses.forRec[i].packetId == e.packetId;
  }

  predicate SameFlight(a: SessionState, b: SessionState) {
    b.forAck == a.forAck && b.forRec == a.forRec && b.pubcomp == a.pubcomp
  }

  lemma OneStrict(core: Core, ref: Channel, ses: SessionState, log: seq<Write>, stuck: bool)
    requires AllStrict(core) && (Strict(ses) || (ref in core.heap && SameFlight(core.heap[ref], ses)))
    ensures AllStrict(Core(core.heap[ref := ses], log, stuck))
  {
    if ref in core.heap { assert Strict(core.heap[ref]); }
  }

  lemma DeliverStrict(core: Core, d: Delivery)
    requires AllStrict(core)
    ensures AllStrict(Deliver(core, d))
  {
    if !core.stuck && d.client.session in core.heap {
      var ses := core.heap[d.client.session];
      if NewId(ses).found {
        var p := Copy(d, NewId(ses).id);
        AllocatorCorrect(ses);
        RecordedKeepsPhase(ses, p, NewId(ses).next);
        OneStrict(core, d.client.session, Recorded(ses, p, NewId(ses).next), Deliver(core, d).log, false);
      }
    }
  }

  lemma {:induction false} DeliverAllStrict(core: Core, ds: seq<Delivery>)
    requires AllStrict(core)
    ensures AllStrict(DeliverAll(core, ds))
    decreases ds
  {
    if ds != [] {
      DeliverStrict(core, ds[0]);
      DeliverAllStrict(Deliver(core, ds[0]), ds[1..]);
    }
  }

  lemma PublishStrict(s: Server, ch: Channel, p: Publish, o: Orders)
    requires AllStrict(s.core)
    ensures AllStrict(HandlePublish(s, ch, p, o).core)
  {
    if ch in s.params {
      var c := s.params[ch];
      var core := Acknowledge(s.core, c, p);
      if p.qos == 2 && c.session in s.core.heap {
        var ses := s.core.heap[c.session];
        OneStrict(s.core, c.session, ses.(pubrel := ses.pubrel + [p.packetId]), core.log, core.stuck);
      }
      DeliverAllStrict(core, FanOut(s.tables, p, o));
      DeliverAllStrict(DeliverAll(core, FanOut(s.tables, p, o)), TopicDeliveries(s.trash, o.ids, TrashNote(p)));
    }
  }

  lemma ResubscribeStrict(core: Core, ref: Channel, subs: map<Str, Sub>, w: Write)
    requires AllStrict(core) && ref in core.heap
    ensures AllStrict(Resubscribe(core, ref, subs, w))
  {
    OneStrict(core, ref, core.heap[ref].(subs := subs), core.log + [w], core.stuck);
  }

  lemma SubscribeStrict(s: Server, ch: Channel, packetId: uint16, items: seq<Item>, o: Orders)
    requires AllStrict(s.core)
    ensures AllStrict(HandleSubscribe(s, ch, packetId, items, o).core)
  {
    if ch in s.params && s.params[ch].session in s.core.heap {
      var c := s.params[ch];
      var a := Subscribed(s, c, items);
      var w := Write(ch, SubackPacket(packetId, a.codes));
      ResubscribeStrict(s.core, c.session, a.subs, w);
      DeliverAllStrict(Resubscribe(s.core, c.session, a.subs, w), Retained(a.tables, c, a.plain, a.wilds, o));
    }
  }

  lemma UnsubscribeStrict(s: Server, ch: Channel, packetId: uint16, names: seq<Named>)
    requires AllStrict(s.core)
    ensures AllStrict(HandleUnsubscribe(s, ch, packetId, names).core)
  {
    if ch in s.params && s.params[ch].session in s.core.heap {
      var c := s.params[ch];
      var a := UnsubscribeNames(Removal(s.tables, s.core.heap[c.session].subs), c.id, names);
      ResubscribeStrict(s.core, c.session, a.subs, Write(ch, Unsuback(packetId)));
    }
  }

  lemma CursorStrict(core: Core, ref: Channel, next: uint16)
    requires ref in core.heap && AllStrict(core)
    ensures AllStrict(MoveCursor(core, ref, next))
  {
    OneStrict(core, ref, core.heap[ref].(next := next), core.log, core.stuck);
  }

  lemma LostStrict(s: Server, ch: Channel, o: Orders)
    requires AllStrict(s.core)
    ensures AllStrict(HandleLost(s, ch, o).core)
  {
    if ch in s.params && PublishesWill(s, s.params[ch]) {
      var c, p := s.params[ch], WillOut(s, s.params[ch]);
      var next := NewId(s.core.heap[c.session]).next;
      CursorStrict(s.core, c.session, next);
      DeliverAllStrict(MoveCursor(s.core, c.session, next), TopicDeliveries(s.tables.exact[p.topic], o.ids, p));
    }
  }

  lemma RestoreStrict(s: Server, c: Client, o: Orders)
    requires c.session in s.core.heap && AllStrict(s.core)
    ensures AllStrict(Restore(s, c, o).core)
  {
    var ses := s.core.heap[c.session];
    var t := AttachAll(s.tables, c, ses.subs, o.subs);
    ConformingKeepsStrict(ses, 0);
    OneStrict(s.core, c.session, Replayed(ses), s.core.log + Replay(c.channel, ses), s.core.stuck);
    DeliverAllStrict(ReplayCore(s.core, c), RestoreRetained(t, c, ses.subs, o));
  }

  lemma AdmitStrict(s: Server, ch: Channel, l: Login)
    requires AllStrict(s.core)
    ensures AllStrict(Admit(s, ch, l).core)
  {
    OneStrict(s.core, ch, NewSession, Admit(s, ch, l).core.log, s.core.stuck);
  }

  lemma ConnectStrict(s: Server, ch: Channel, l: Login, o: Orders)
    requires AllStrict(s.core)
    ensures AllStrict(HandleConnect(s, ch, l, o).core)
  {
    if l.code == 0 {
      var s1 := Evict(s.(seen := s.seen + {ch}), if l.id == [] then l.generated else l.id);
      var s2 := Admit(s1, ch, l);
      AdmitStrict(s1, ch, l);
      if Restores(s1, l) { RestoreStrict(s2, s2.params[ch], o); }
    }
  }

  lemma AckStrict(s: Server, e: Event)
    requires IsAck(e) && AllStrict(s.core) && !s.core.stuck
    ensures AllStrict(HandleAck(s, e).core) <==> Conforms(s, e)
  {
    if e.ch in s.params && s.params[e.ch].session in s.core.heap {
      var ref := s.params[e.ch].session;
      ConformingKeepsStrict(s.core.heap[ref], e.packetId);
      StrayPubrec(s.core.heap[ref], e.packetId);
      if Strict(AckSession(s.core.heap[ref], e)) {
        OneStrict(s.core, ref, AckSession(s.core.heap[ref], e), s.core.log + AckReply(e), s.core.stuck);
      }
      assert HandleAck(s, e).core.heap[ref] == AckSession(s.core.heap[ref], e);
    }
  }

  lemma StepStrict(s: Server, e: Event, o: Orders)
    requires AllStrict(s.core)
    ensures AllStrict(Step(s, e, o).core) <==> Conforms(s, e)
  {
    if !s.core.stuck {
      match e
      case Connecting(ch, l) => ConnectStrict(s, ch, l, o);
      case Subscribing(ch, id, items) => SubscribeStrict(s, ch, id, items, o);
      case Unsubscribing(ch, id, names) => UnsubscribeStrict(s, ch, id, names);
      case Publishing(ch, p) => PublishStrict(s, ch, p, o);
      case Disconnecting(ch) => {}
      case Losing(ch) => LostStrict(s, ch, o);
      case _ => AckStrict(s, e);
    }
  }

  ghost predicate ConformingRun(s: Server, es: seq<(Event, Orders)>)
    decreases es
  {
    es != [] ==> Conforms(s, es[0].0) && ConformingRun(Step(s, es[0].0, es[0].1), es[1..])
  }

  ghost predicate AlwaysStrict(s: Server, es: seq<(Event, Orders)>)
    decreases es
  {
    AllStrict(s.core) && (es != [] ==> AlwaysStrict(Step(s, es[0].0, es[0].1), es[1..]))
  }

  /** In every session and at all times of a run no identifier is in two of the three lists, or twice in one,
      if and only if no PUBREC of the run names an identifier that awaits PUBACK or PUBCOMP. */
  lemma {:induction false} RunStrict(s: Server, es: seq<(Event, Orders)>)
    requires AllStrict(s.core)
    ensures AlwaysStrict(s, es) <==> ConformingRun(s, es)
    decreases es
  {
    if es != [] {
      StepStrict(s, es[0].0, es[0].1);
      if AllStrict(Step(s, es[0].0, es[0].1).core) { RunStrict(Step(s, es[0].0, es[0].1), es[1..]); }
    }
  }
}
