/**
  The invariant of every run: connection table and channels in bijection, one session object per
  id, well-formed tables, and the topic tables agreeing with the sessions' subscriptions.
 */
module BrokerInvariant {
  import opened Basics
  import opened TopicFilter
  import opened Packets
  import opened Sessions
  import opened Broker
  import opened BrokerCore
  import opened BrokerIndex

  /** Registered clients and channels with `param` set correspond one to one. */
  ghost predicate Bijection(clients: map<ClientId, Client>, params: map<Channel, Client>) {
    && (forall ch :: ch in params ==>
      params[ch].channel == ch && params[ch].id in clients && clients[params[ch].id] == params[ch])
    && (forall id :: id in clients ==>
      clients[id].id == id && clients[id].channel in params && params[clients[id].channel] == clients[id])
  }

  /** A connected client's session object is the stored one of its id; no two ids share a session object. */
  ghost predicate SessionsOk(clients: map<ClientId, Client>, sessions: map<ClientId, Channel>, refs: set<Channel>) {
    && (forall id :: id in clients ==> id in sessions && sessions[id] == clients[id].session)
    && (forall id :: id in sessions ==> sessions[id] in refs)
    && (forall a, b :: a in sessions && b in sessions && a != b ==> sessions[a] != sessions[b])
  }

  ghost predicate WillsOk(params: map<Channel, Client>) {
    forall ch :: ch in params && params[ch].will.Some? ==> WillFits(params[ch].will.value)
  }

  ghost predicate Connections(s: Server) {
    && Bijection(s.clients, s.params) && SessionsOk(s.clients, s.sessions, s.core.heap.Keys) && WillsOk(s.params)
    && s.params.Keys <= s.seen && s.core.heap.Keys <= s.seen
  }

  /** Each subscription of a connected client has its entry, for that very client object, with its QoS, in
      the right table. */
  ghost predicate IndexAt(s: Server, id: ClientId) {
    id in s.clients ==> Covered(s.tables, s.clients[id], SubsOf(s.core, s.clients[id].session))
  }

  ghost predicate Index(s: Server) {
    forall id :: IndexAt(s, id)
  }

  ghost predicate CoreOk(core: Core, refs: set<Channel>) {
    core.heap.Keys == refs && HeapOk(core.heap) && LogOk(core.log)
  }

  ghost predicate StoredIn(t: Tables, trash: Topic, core: Core, refs: set<Channel>) {
    TablesOk(t, refs) && TopicOk(trash, refs) && CoreOk(core, refs)
  }

  ghost predicate Stored(s: Server) {
    StoredIn(s.tables, s.trash, s.core, s.core.heap.Keys)
  }

  ghost predicate Inv(s: Server) {
    Connections(s) && Stored(s) && Index(s)
  }

  // ---------------------------------------------------------------- what a step does not concern

  ghost predicate SameSubs(a: Core, b: Core) {
    forall r :: SubsOf(b, r) == SubsOf(a, r)
  }

  /** The connection table is untouched. */
  predicate SameClients(s: Server, s': Server) {
    s'.clients == s.clients && s'.sessions == s.sessions && s'.params == s.params && s'.seen == s.seen
    && s'.core.heap.Keys == s.core.heap.Keys
  }

  ghost predicate SameEntries(t: Tables, t': Tables) {
    forall w, f, id :: Has(t', w, f, id) == Has(t, w, f, id)
  }

  lemma SameConnections(s: Server, s': Server)
    requires Connections(s) && SameClients(s, s')
    ensures Connections(s')
  {
  }

  /** Nothing the index says about id has changed. */
  ghost predicate SameFor(s: Server, s': Server, id: ClientId) {
    && (id in s.clients <==> id in s'.clients)
    && (id in s.clients ==> s.clients[id].id == id && s'.clients[id] == s.clients[id]
                            && SubsOf(s'.core, s.clients[id].session) == SubsOf(s.core, s.clients[id].session))
    && (forall w, f :: Has(s'.tables, w, f, id) == Has(s.tables, w, f, id))
  }

  lemma SameForIndex(s: Server, s': Server, id: ClientId)
    requires IndexAt(s, id) && SameFor(s, s', id)
    ensures IndexAt(s', id)
  {
  }

  lemma SameIndex(s: Server, s': Server)
    requires Bijection(s.clients, s.params) && Index(s)
    requires SameClients(s, s') && SameEntries(s.tables, s'.tables) && SameSubs(s.core, s'.core)
    ensures Index(s')
  {
    forall id ensures IndexAt(s', id) {
      assert IndexAt(s, id);
      SameForIndex(s, s', id);
    }
  }

  /** A step that only sends: connections, entries and subscriptions are as before. */
  lemma QuietInv(s: Server, s': Server)
    requires Inv(s) && SameClients(s, s') && SameEntries(s.tables, s'.tables) && SameSubs(s.core, s'.core) && Stored(s')
    ensures Inv(s')
  {
    SameConnections(s, s');
    SameIndex(s, s');
  }

  /** A connected client's session exists. */
  lemma ClientOf(s: Server, ch: Channel)
    requires Connections(s) && ch in s.params
    ensures var c := s.params[ch];
      c.channel == ch && c.id in s.clients && s.clients[c.id] == c && c.id in s.sessions
        && s.sessions[c.id] == c.session && c.session in s.core.heap
  {
  }

  /** Other ids' connected clients use other session objects. */
  lemma OtherSession(s: Server, c: Client, id: ClientId)
    requires Connections(s) && c.id in s.clients && s.clients[c.id] == c && id in s.clients && id != c.id
    ensures s.clients[id].id == id && s.clients[id].session != c.session
  {
  }

  // ---------------------------------------------------------------- sending and touching

  lemma GrowsSubs(a: Core, b: Core)
    requires Grows(a, b)
    ensures SameSubs(a, b)
  {
    forall r ensures SubsOf(b, r) == SubsOf(a, r) {
      if r in a.heap { assert SessionGrows(a.heap[r], b.heap[r]); }
    }
  }

  ghost predicate AllSound(ds: seq<Delivery>) {
    forall i :: 0 <= i < |ds| ==> Sound(ds[i])
  }

  lemma SendAll(core: Core, ds: seq<Delivery>, refs: set<Channel>)
    requires CoreOk(core, refs) && AllSound(ds)
    ensures CoreOk(DeliverAll(core, ds), refs) && SameSubs(core, DeliverAll(core, ds))
  {
    DeliverAllOk(core, ds);
    DeliverAllGrows(core, ds);
    GrowsSubs(core, DeliverAll(core, ds));
  }

  /** Replacing one session object by a sound one, and writing packets that are no PUBLISH or fit. */
  lemma UpdateOk(core: Core, ref: Channel, ses: SessionState, ws: seq<Write>, refs: set<Channel>)
    requires CoreOk(core, refs) && ref in core.heap && SessionOk(ses) && LogOk(ws)
    ensures CoreOk(Core(core.heap[ref := ses], core.log + ws, core.stuck), refs)
  {
    assert core.heap[ref := ses].Keys == core.heap.Keys;
  }

  lemma UpdateSubs(core: Core, ref: Channel, ses: SessionState, ws: seq<Write>)
    requires ref in core.heap && ses.subs == core.heap[ref].subs
    ensures SameSubs(core, Core(core.heap[ref := ses], core.log + ws, core.stuck))
  {
  }

  lemma SessionAt(core: Core, ref: Channel, refs: set<Channel>)
    requires CoreOk(core, refs) && ref in core.heap
    ensures SessionOk(core.heap[ref])
  {
  }

  // ---------------------------------------------------------------- PUBLISH and the acknowledgements

  lemma AcknowledgeOk(core: Core, c: Client, p: Publish, refs: set<Channel>)
    requires CoreOk(core, refs)
    ensures CoreOk(Acknowledge(core, c, p), refs) && SameSubs(core, Acknowledge(core, c, p))
  {
    if p.qos == 2 && c.session in core.heap {
      SessionAt(core, c.session, refs);
      var ses := core.heap[c.session];
      var ses' := ses.(pubrel := ses.pubrel + [p.packetId]);
      UpdateOk(core, c.session, ses', [Write(c.channel, Pubrec(p.packetId))], refs);
      UpdateSubs(core, c.session, ses', [Write(c.channel, Pubrec(p.packetId))]);
    } else if p.qos == 1 {
      assert LogOk(core.log + [Write(c.channel, Puback(p.packetId))]);
    }
  }

  lemma TrashFits(p: Publish)
    requires Fits(p)
    ensures Fits(TrashNote(p)) && MakePublish(false, 1, false, TRASH, 0xFFFF, p.topic) == Some(TrashNote(p))
  {
  }

  lemma PublishCoreOk(core: Core, t: Tables, trash: Topic, p: Publish, o: Orders, refs: set<Channel>)
    requires StoredIn(t, trash, core, refs) && Fits(p)
    ensures CoreOk(PublishCore(core, t, trash, p, o), refs) && SameSubs(core, PublishCore(core, t, trash, p, o))
  {
    FanOutSound(t, p, o, refs);
    SendAll(core, FanOut(t, p, o), refs);
    TrashFits(p);
    TopicDeliveriesSound(trash, o.ids, TrashNote(p), refs);
    SendAll(DeliverAll(core, FanOut(t, p, o)), TopicDeliveries(trash, o.ids, TrashNote(p)), refs);
  }

  lemma KeepAllSame(t: Tables, p: Publish)
    ensures SameEntries(t, KeepAll(t, p)) && SameEntries(t, t.(exact := KeepExact(t.exact, p)))
  {
    forall w, f, id ensures Has(KeepAll(t, p), w, f, id) == Has(t, w, f, id)
      && Has(t.(exact := KeepExact(t.exact, p)), w, f, id) == Has(t, w, f, id) {
      KeepsHas(t, p, w, f, id);
    }
  }

  lemma PublishStored(s: Server, ch: Channel, p: Publish, o: Orders)
    requires Stored(s) && Fits(p) && ch in s.params
    ensures Stored(HandlePublish(s, ch, p, o))
    ensures SameSubs(s.core, HandlePublish(s, ch, p, o).core)
      && HandlePublish(s, ch, p, o).core.heap.Keys == s.core.heap.Keys
  {
    var refs := s.core.heap.Keys;
    var core := Acknowledge(s.core, s.params[ch], p);
    AcknowledgeOk(s.core, s.params[ch], p, refs);
    PublishCoreOk(core, s.tables, s.trash, p, o, refs);
    KeepsOk(s.tables, p, refs);
  }

  lemma PublishInv(s: Server, ch: Channel, p: Publish, o: Orders)
    requires Inv(s) && Fits(p)
    ensures Inv(HandlePublish(s, ch, p, o))
  {
    if ch in s.params {
      PublishStored(s, ch, p, o);
      KeepAllSame(s.tables, p);
      QuietInv(s, HandlePublish(s, ch, p, o));
    }
  }

  lemma AckSessionOk(ses: SessionState, e: Event)
    requires SessionOk(ses) && IsAck(e)
    ensures SessionOk(AckSession(ses, e)) && AckSession(ses, e).subs == ses.subs
  {
    ReleasesKeepPhase(ses, e.packetId);
    AckFits(ses, e);
  }

  lemma AckFits(ses: SessionState, e: Event)
    requires IsAck(e) && (forall i :: 0 <= i < |ses.forAck| ==> Outgoing(ses.forAck[i]))
      && (forall i :: 0 <= i < |ses.forRec| ==> Outgoing(ses.forRec[i]))
    ensures var ses' := AckSession(ses, e);
      (forall i :: 0 <= i < |ses'.forAck| ==> Outgoing(ses'.forAck[i]))
        && (forall i :: 0 <= i < |ses'.forRec| ==> Outgoing(ses'.forRec[i]))
  {
    EraseMembers(ses.forAck, FindPublish(ses.forAck, e.packetId));
    EraseMembers(ses.forRec, FindPublish(ses.forRec, e.packetId));
  }

  lemma AckInv(s: Server, e: Event)
    requires Inv(s) && IsAck(e)
    ensures Inv(HandleAck(s, e))
  {
    if e.ch in s.params && s.params[e.ch].session in s.core.heap {
      AckCoreOk(s.core, e, s.params[e.ch].session, s.core.heap.Keys);
      QuietInv(s, HandleAck(s, e));
    }
  }

  lemma AckCoreOk(core: Core, e: Event, ref: Channel, refs: set<Channel>)
    requires CoreOk(core, refs) && IsAck(e) && ref in core.heap
    ensures var core' := Core(core.heap[ref := AckSession(core.heap[ref], e)], core.log + AckReply(e), core.stuck);
      CoreOk(core', refs) && SameSubs(core, core')
  {
    SessionAt(core, ref, refs);
    AckSessionOk(core.heap[ref], e);
    UpdateOk(core, ref, AckSession(core.heap[ref], e), AckReply(e), refs);
    UpdateSubs(core, ref, AckSession(core.heap[ref], e), AckReply(e));
  }

  // ---------------------------------------------------------------- SUBSCRIBE and UNSUBSCRIBE

  /** A step in which one connected client changes its own subscriptions and entries. */
  lemma OwnIndex(s: Server, s': Server, c: Client)
    requires Connections(s) && Index(s) && c.id in s.clients && s.clients[c.id] == c
    requires s'.clients == s.clients
    requires Covered(s'.tables, c, SubsOf(s'.core, c.session))
    requires forall w, f, id :: id != c.id ==> Has(s'.tables, w, f, id) == Has(s.tables, w, f, id)
    requires forall r :: r != c.session ==> SubsOf(s'.core, r) == SubsOf(s.core, r)
    ensures Index(s')
  {
    forall id ensures IndexAt(s', id) {
      assert IndexAt(s, id);
      if id != c.id {
        if id in s.clients { OtherSession(s, c, id); }
        SameForIndex(s, s', id);
      }
    }
  }

  lemma ResubscribeOk(core: Core, ref: Channel, subs: map<Str, Sub>, w: Write, refs: set<Channel>)
    requires CoreOk(core, refs) && ref in core.heap && WriteFits(w) && forall f :: f in subs ==> SubOk(f, subs[f])
    ensures CoreOk(Resubscribe(core, ref, subs, w), refs) && SubsOf(Resubscribe(core, ref, subs, w), ref) == subs
    ensures forall r :: r != ref ==> SubsOf(Resubscribe(core, ref, subs, w), r) == SubsOf(core, r)
  {
    SessionAt(core, ref, refs);
    UpdateOk(core, ref, core.heap[ref].(subs := subs), [w], refs);
  }

  lemma SubscribeSends(core: Core, c: Client, a: Progress, w: Write, o: Orders, refs: set<Channel>)
    requires CoreOk(core, refs) && TablesOk(a.tables, refs) && c.session in core.heap && WriteFits(w)
    requires forall f :: f in a.subs ==> SubOk(f, a.subs[f])
    ensures var core' := DeliverAll(Resubscribe(core, c.session, a.subs, w),
      Retained(a.tables, c, a.plain, a.wilds, o));
      && CoreOk(core', refs) && SubsOf(core', c.session) == a.subs
      && forall r :: r != c.session ==> SubsOf(core', r) == SubsOf(core, r)
  {
    ResubscribeOk(core, c.session, a.subs, w, refs);
    RetainedSound(a.tables, c, a.plain, a.wilds, o, refs);
    SendAll(Resubscribe(core, c.session, a.subs, w), Retained(a.tables, c, a.plain, a.wilds, o), refs);
  }

  lemma ConnectedIndex(s: Server, ch: Channel)
    requires Connections(s) && Stored(s) && Index(s) && ch in s.params
    ensures var c := s.params[ch];
      && c.session in s.core.heap
      && Covered(s.tables, c, s.core.heap[c.session].subs)
      && forall f :: f in s.core.heap[c.session].subs ==> SubOk(f, s.core.heap[c.session].subs[f])
  {
    ClientOf(s, ch);
    assert IndexAt(s, s.params[ch].id);
    SessionAt(s.core, s.params[ch].session, s.core.heap.Keys);
  }

  lemma SubscribeInv(s: Server, ch: Channel, packetId: uint16, items: seq<Item>, o: Orders)
    requires Inv(s) && Possible(s, Subscribing(ch, packetId, items))
    ensures Inv(HandleSubscribe(s, ch, packetId, items, o))
  {
    if ch in s.params {
      ClientOf(s, ch);
      ConnectedIndex(s, ch);
      SubscribeParts(s, s.params[ch], packetId, items, o);
      var s' := HandleSubscribe(s, ch, packetId, items, o);
      SameConnections(s, s');
      OwnIndex(s, s', s.params[ch]);
    }
  }

  lemma {:induction false} SubscribeItemsCodesOk(a: Progress, c: Client, items: seq<Item>)
    requires (forall i :: 0 <= i < |items| ==> Decoded(items[i])) && forall code :: code in a.codes ==> ReturnCode(code)
    ensures var codes := SubscribeItems(a, c, items).codes;
      |codes| == |a.codes| + |items| && forall code :: code in codes ==> ReturnCode(code)
    decreases items
  {
    if items != [] { SubscribeItemsCodesOk(SubscribeOne(a, c, items[0]), c, items[1..]); }
  }

  lemma SubscribeParts(s: Server, c: Client, packetId: uint16, items: seq<Item>, o: Orders)
    requires Stored(s) && c.session in s.core.heap && |items| <= 2_097_149
    requires forall i :: 0 <= i < |items| ==> Decoded(items[i])
    requires Covered(s.tables, c, s.core.heap[c.session].subs)
    requires forall f :: f in s.core.heap[c.session].subs ==> SubOk(f, s.core.heap[c.session].subs[f])
    requires c.channel in s.params && s.params[c.channel] == c
    ensures var s' := HandleSubscribe(s, c.channel, packetId, items, o);
      && Stored(s') && s'.core.heap.Keys == s.core.heap.Keys
      && Covered(s'.tables, c, SubsOf(s'.core, c.session))
      && (forall w, f, id :: id != c.id ==> Has(s'.tables, w, f, id) == Has(s.tables, w, f, id))
      && (forall r :: r != c.session ==> SubsOf(s'.core, r) == SubsOf(s.core, r))
  {
    var refs := s.core.heap.Keys;
    var start := Progress(s.tables, s.trash, s.core.heap[c.session].subs, [], [], []);
    var a := SubscribeItems(start, c, items);
    SubscribeItemsIndex(start, c, items);
    SubscribeItemsOk(start, c, items, refs);
    SubscribeItemsCodesOk(start, c, items);
    SubscribeSends(s.core, c, a, Write(c.channel, SubackPacket(packetId, a.codes)), o, refs);
  }

  lemma UnsubscribeParts(s: Server, c: Client, packetId: uint16, names: seq<Named>)
    requires Stored(s) && c.session in s.core.heap
      && forall i :: 0 <= i < |names| ==> names[i].wild == HasWildcard(names[i].filter)
    requires Covered(s.tables, c, s.core.heap[c.session].subs)
    requires forall f :: f in s.core.heap[c.session].subs ==> SubOk(f, s.core.heap[c.session].subs[f])
    requires c.channel in s.params && s.params[c.channel] == c
    ensures var s' := HandleUnsubscribe(s, c.channel, packetId, names);
      && Stored(s') && s'.core.heap.Keys == s.core.heap.Keys
      && Covered(s'.tables, c, SubsOf(s'.core, c.session))
      && (forall w, f, id :: id != c.id ==> Has(s'.tables, w, f, id) == Has(s.tables, w, f, id))
      && (forall r :: r != c.session ==> SubsOf(s'.core, r) == SubsOf(s.core, r))
  {
    var start := Removal(s.tables, s.core.heap[c.session].subs);
    var a := UnsubscribeNames(start, c.id, names);
    UnsubscribeNamesIndex(start, c, names);
    UnsubscribeNamesOk(start, c.id, names, s.core.heap.Keys);
    ResubscribeOk(s.core, c.session, a.subs, Write(c.channel, Unsuback(packetId)), s.core.heap.Keys);
  }

  lemma UnsubscribeInv(s: Server, ch: Channel, packetId: uint16, names: seq<Named>)
    requires Inv(s) && Possible(s, Unsubscribing(ch, packetId, names))
    ensures Inv(HandleUnsubscribe(s, ch, packetId, names))
  {
    if ch in s.params {
      ClientOf(s, ch);
      ConnectedIndex(s, ch);
      UnsubscribeParts(s, s.params[ch], packetId, names);
      var s' := HandleUnsubscribe(s, ch, packetId, names);
      SameConnections(s, s');
      OwnIndex(s, s', s.params[ch]);
    }
  }

  // ---------------------------------------------------------------- leaving

  lemma WillFitsPacket(w: Will, id: uint16)
    requires WillFits(w) && PublishableTopic(w.topic)
    ensures Fits(WillPacket(w, id))
      && MakePublish(false, w.qos, w.retain, w.topic, id, w.message) == Some(WillPacket(w, id))
  {
  }

  lemma WillSends(core: Core, t: Tables, ref: Channel, next: uint16, p: Publish, o: Orders, refs: set<Channel>)
    requires CoreOk(core, refs) && TablesOk(t, refs) && ref in core.heap && Fits(p) && p.topic in t.exact
    ensures var core' := DeliverAll(MoveCursor(core, ref, next), TopicDeliveries(t.exact[p.topic], o.ids, p));
      CoreOk(core', refs) && SameSubs(core, core')
  {
    SessionAt(core, ref, refs);
    UpdateOk(core, ref, core.heap[ref].(next := next), [], refs);
    UpdateSubs(core, ref, core.heap[ref].(next := next), []);
    assert core.log + [] == core.log;
    assert TopicOk(t.exact[p.topic], refs);
    TopicDeliveriesSound(t.exact[p.topic], o.ids, p, refs);
    SendAll(MoveCursor(core, ref, next), TopicDeliveries(t.exact[p.topic], o.ids, p), refs);
  }

  /** Publishing a will that has been built. */
  lemma WillSent(s: Server, ref: Channel, next: uint16, p: Publish, o: Orders)
    requires Stored(s) && ref in s.core.heap && Fits(p) && p.topic in s.tables.exact
    ensures var t := s.tables.(exact := KeepExact(s.tables.exact, p));
      var core := DeliverAll(MoveCursor(s.core, ref, next), TopicDeliveries(s.tables.exact[p.topic], o.ids, p));
      StoredIn(t, s.trash, core, s.core.heap.Keys) && SameEntries(s.tables, t) && SameSubs(s.core, core)
  {
    KeepsOk(s.tables, p, s.core.heap.Keys);
    KeepAllSame(s.tables, p);
    WillSends(s.core, s.tables, ref, next, p, o, s.core.heap.Keys);
  }

  /** The client has a will, for a topic of the exact table. */
  predicate WillDue(s: Server, c: Client) {
    c.will.Some? && c.will.value.topic in s.tables.exact && c.session in s.core.heap
  }

  predicate PublishesWill(s: Server, c: Client) {
    WillDue(s, c) && NewId(s.core.heap[c.session]).found
  }

  lemma WillStored(s: Server, c: Client, o: Orders)
    requires Stored(s) && PublishesWill(s, c) && WillFits(c.will.value)
    ensures var s' := PublishWill(s, c, o);
      Stored(s') && SameClients(s, s') && SameEntries(s.tables, s'.tables) && SameSubs(s.core, s'.core)
  {
    var r := NewId(s.core.heap[c.session]);
    var p := WillPacket(c.will.value, r.id);
    WillFitsPacket(c.will.value, r.id);
    WillSent(s, c.session, r.next, p, o);
  }

  lemma WillUnsent(s: Server, c: Client, o: Orders)
    requires !PublishesWill(s, c)
    ensures PublishWill(s, c, o) == s || PublishWill(s, c, o) == s.(core := s.core.(stuck := true))
  {
  }

  lemma StuckStored(s: Server, s': Server)
    requires Stored(s) && (s' == s || s' == s.(core := s.core.(stuck := true)))
    ensures Stored(s') && SameClients(s, s') && SameEntries(s.tables, s'.tables) && SameSubs(s.core, s'.core)
  {
  }

  lemma WillOf(s: Server, ch: Channel)
    requires Connections(s) && ch in s.params && s.params[ch].will.Some?
    ensures WillFits(s.params[ch].will.value)
  {
  }

  lemma WillInv(s: Server, ch: Channel, o: Orders)
    requires Inv(s) && ch in s.params
    ensures Inv(PublishWill(s, s.params[ch], o)) && SameClients(s, PublishWill(s, s.params[ch], o))
    ensures SameSubs(s.core, PublishWill(s, s.params[ch], o).core)
      && SameEntries(s.tables, PublishWill(s, s.params[ch], o).tables)
  {
    if PublishesWill(s, s.params[ch]) {
      WillOf(s, ch);
      WillStored(s, s.params[ch], o);
    } else {
      WillUnsent(s, s.params[ch], o);
      StuckStored(s, PublishWill(s, s.params[ch], o));
    }
    QuietInv(s, PublishWill(s, s.params[ch], o));
  }

  lemma RemoveBijection(clients: map<ClientId, Client>, params: map<Channel, Client>, c: Client)
    requires Bijection(clients, params) && c.id in clients && clients[c.id] == c
    ensures Bijection(clients - {c.id}, params - {c.channel})
  {
    forall k | k in params && k != c.channel ensures params[k].id != c.id {
      assert clients[params[k].id] == params[k];
    }
  }

  lemma RemoveConnections(s: Server, ch: Channel, o: Orders)
    requires Connections(s) && ch in s.params
    ensures Connections(Remove(s, s.params[ch], o))
  {
    ClientOf(s, ch);
    RemoveBijection(s.clients, s.params, s.params[ch]);
  }

  lemma RemoveIndex(s: Server, c: Client, o: Orders)
    requires Bijection(s.clients, s.params) && Index(s) && c.id in s.clients && s.clients[c.id] == c
      && c.session in s.core.heap
    requires forall f :: f in SubsOf(s.core, c.session) ==> f in o.subs
    ensures Index(Remove(s, c, o))
  {
    var s' := Remove(s, c, o);
    RemovedEntries(s, c, o);
    forall id ensures IndexAt(s', id) {
      assert IndexAt(s, id);
      if id != c.id { SameForIndex(s, s', id); }
    }
  }

  /** Leaving takes the client out of the topics it subscribed, and touches nothing else. */
  lemma RemovedEntries(s: Server, c: Client, o: Orders)
    requires forall f :: f in SubsOf(s.core, c.session) ==> f in o.subs
    ensures forall w, f, id ::
      Has(Remove(s, c, o).tables, w, f, id) ==
        if id == c.id && Says(c, SubsOf(s.core, c.session), w, f).Some? then None else Has(s.tables, w, f, id)
  {
    forall w, f, id ensures Has(Remove(s, c, o).tables, w, f, id) ==
      if id == c.id && Says(c, SubsOf(s.core, c.session), w, f).Some? then None else Has(s.tables, w, f, id)
    {
      DetachAllHas(s.tables, c.id, SubsOf(s.core, c.session), o.subs, w, f, id);
    }
  }

  lemma RemoveInv(s: Server, ch: Channel, o: Orders)
    requires Inv(s) && ch in s.params && forall f :: f in SubsOf(s.core, s.params[ch].session) ==> f in o.subs
    ensures Inv(Remove(s, s.params[ch], o))
  {
    ClientOf(s, ch);
    RemoveConnections(s, ch, o);
    RemoveIndex(s, s.params[ch], o);
    DetachAllOk(s.tables, s.params[ch].id, SubsOf(s.core, s.params[ch].session), o.subs, s.core.heap.Keys);
  }

  /** The order of a traversal covers every session's subscriptions. */
  lemma CoversSubs(s: Server, o: Orders, ref: Channel)
    requires Traverses(s, o)
    ensures forall f :: f in SubsOf(s.core, ref) ==> f in o.subs
  {
  }

  lemma DisconnectInv(s: Server, ch: Channel, o: Orders)
    requires Inv(s) && Traverses(s, o)
    ensures Inv(HandleDisconnect(s, ch, o))
  {
    if ch in s.params {
      CoversSubs(s, o, s.params[ch].session);
      RemoveInv(s, ch, o);
    }
  }

  lemma LostInv(s: Server, ch: Channel, o: Orders)
    requires Inv(s) && Traverses(s, o)
    ensures Inv(HandleLost(s, ch, o))
  {
    if ch in s.params {
      var s1 := PublishWill(s, s.params[ch], o);
      WillInv(s, ch, o);
      StillCovers(s, s1.core, o, s.params[ch].session);
      RemoveInv(s1, ch, o);
    }
  }

  lemma StillCovers(s: Server, core: Core, o: Orders, ref: Channel)
    requires Traverses(s, o) && SameSubs(s.core, core)
    ensures forall f :: f in SubsOf(core, ref) ==> f in o.subs
  {
    CoversSubs(s, o, ref);
  }

  // ---------------------------------------------------------------- CONNECT

  /** The new client c is entered under its restored subscriptions; every other entry is as before. */
  lemma RestoredIndex(t: Tables, c: Client, subs: map<Str, Sub>, order: seq<Str>)
    requires forall f :: f in subs ==> f in order
    ensures var t' := AttachAll(t, c, subs, order);
      && Covered(t', c, subs)
      && (forall w, f, id :: Has(t', w, f, id) ==
            if id == c.id && Says(c, subs, w, f).Some? then Says(c, subs, w, f) else Has(t, w, f, id))
  {
    var t' := AttachAll(t, c, subs, order);
    forall w, f, id ensures Has(t', w, f, id) ==
      if id == c.id && Says(c, subs, w, f).Some? then Says(c, subs, w, f) else Has(t, w, f, id)
    {
      AttachAllHas(t, c, subs, order, w, f, id);
    }
  }

  lemma EvictConnections(s: Server, id: ClientId)
    requires Connections(s)
    ensures Connections(Evict(s, id)) && id !in Evict(s, id).clients
  {
    if id in s.clients { RemoveBijection(s.clients, s.params, s.clients[id]); }
  }

  lemma AdmitBijection(clients: map<ClientId, Client>, params: map<Channel, Client>, c: Client)
    requires Bijection(clients, params) && c.id !in clients && c.channel !in params
    ensures Bijection(clients[c.id := c], params[c.channel := c])
  {
  }

  lemma AdmitSessions(clients: map<ClientId, Client>, sessions: map<ClientId, Channel>, refs: set<Channel>, c: Client)
    requires SessionsOk(clients, sessions, refs) && c.id !in clients
    requires if c.session in refs then c.id in sessions && sessions[c.id] == c.session else true
    ensures SessionsOk(clients[c.id := c], sessions[c.id := c.session], refs + {c.session})
  {
  }

  lemma AdmitConnections(s: Server, ch: Channel, l: Login)
    requires Connections(s) && l.id !in s.clients && ch !in s.params && ch !in s.core.heap && ch in s.seen
    requires l.will.Some? ==> WillFits(l.will.value)
    ensures Connections(Admit(s, ch, l))
  {
    var s' := Admit(s, ch, l);
    var c := s'.params[ch];
    AdmitBijection(s.clients, s.params, c);
    AdmitSessions(s.clients, s.sessions, s.core.heap.Keys, c);
    assert s'.core.heap.Keys == s.core.heap.Keys + {c.session};
  }

  lemma NewSessionOk()
    ensures SessionOk(NewSession)
  {
  }

  lemma AllocateOk(core: Core, ref: Channel, w: Write, refs: set<Channel>)
    requires CoreOk(core, refs) && ref !in core.heap && WriteFits(w)
    ensures CoreOk(Wrote(Touch(core, ref, NewSession), w), refs + {ref})
  {
    NewSessionOk();
    assert Touch(core, ref, NewSession).heap.Keys == refs + {ref};
    LogMoreOk(core.log, w);
  }

  lemma AdmitStored(s: Server, ch: Channel, l: Login)
    requires Stored(s) && ch !in s.core.heap
    ensures Stored(Admit(s, ch, l))
  {
    var refs := s.core.heap.Keys;
    var w := Write(ch, Connack(Restores(s, l), 0));
    if Restores(s, l) {
      assert LogOk(s.core.log + [w]);
    } else {
      AllocateOk(s.core, ch, w, refs);
      MoreRefs(s.tables, s.trash, refs, refs + {ch});
    }
  }

  lemma ReplayFits(ch: Channel, s: SessionState)
    requires SessionOk(s)
    ensures LogOk(Replay(ch, s)) && SessionOk(Replayed(s))
  {
    ReleasesKeepPhase(s, 0);
    DupFits(s.forAck);
    DupFits(s.forRec);
  }

  lemma DupFits(ps: seq<Publish>)
    requires forall i :: 0 <= i < |ps| ==> Outgoing(ps[i])
    ensures forall i :: 0 <= i < |Dup(ps)| ==> Outgoing(Dup(ps)[i])
  {
    forall i | 0 <= i < |Dup(ps)| ensures Outgoing(Dup(ps)[i]) { assert Outgoing(ps[i]); }
  }

  lemma RestoreStored(s: Server, c: Client, o: Orders)
    requires Stored(s) && c.session in s.core.heap
    ensures Stored(Restore(s, c, o)) && SameClients(s, Restore(s, c, o)) && SameSubs(s.core, Restore(s, c, o).core)
  {
    var ses, refs := s.core.heap[c.session], s.core.heap.Keys;
    SessionAt(s.core, c.session, refs);
    var t := AttachAll(s.tables, c, ses.subs, o.subs);
    AttachAllOk(s.tables, c, ses.subs, o.subs, refs);
    ReplayFits(c.channel, ses);
    UpdateOk(s.core, c.session, Replayed(ses), Replay(c.channel, ses), refs);
    UpdateSubs(s.core, c.session, Replayed(ses), Replay(c.channel, ses));
    RetainedSound(t, c, FiltersIn(ses.subs, o.subs, false), FiltersIn(ses.subs, o.subs, true), o, refs);
    SendAll(ReplayCore(s.core, c), RestoreRetained(t, c, ses.subs, o), refs);
  }

  /** The index after an accepted CONNECT that starts a new session. */
  lemma FreshIndex(s: Server, s': Server, c: Client)
    requires Connections(s) && Index(s) && c.id in s'.clients && s'.clients[c.id] == c
    requires forall id :: id != c.id ==>
      (id in s'.clients <==> id in s.clients) && (id in s.clients ==> s'.clients[id] == s.clients[id])
    requires s'.tables == s.tables && SubsOf(s'.core, c.session) == map[]
    requires forall r :: r in s.core.heap ==> SubsOf(s'.core, r) == SubsOf(s.core, r)
    ensures Index(s')
  {
    forall id ensures IndexAt(s', id) {
      assert IndexAt(s, id);
      if id != c.id {
        SameForIndex(s, s', id);
      }
    }
  }

  /** The index after an accepted CONNECT that restores a session. */
  lemma PresentIndex(s: Server, s': Server, c: Client, o: Orders)
    requires Connections(s) && Index(s) && c.id in s'.clients && s'.clients[c.id] == c && c.session in s.core.heap
    requires forall id :: id != c.id ==>
      (id in s'.clients <==> id in s.clients) && (id in s.clients ==> s'.clients[id] == s.clients[id])
    requires forall f :: f in SubsOf(s.core, c.session) ==> f in o.subs
    requires s'.tables == AttachAll(s.tables, c, SubsOf(s.core, c.session), o.subs)
    requires forall r :: r in s.core.heap ==> SubsOf(s'.core, r) == SubsOf(s.core, r)
    ensures Index(s')
  {
    RestoredIndex(s.tables, c, SubsOf(s.core, c.session), o.subs);
    forall id ensures IndexAt(s', id) {
      assert IndexAt(s, id);
      if id != c.id { SameForIndex(s, s', id); }
    }
  }

  /** An accepted CONNECT, step by step. */
  lemma AcceptedInv(s: Server, ch: Channel, l: Login, o: Orders)
    requires Inv(s) && Traverses(s, o) && (l.will.Some? ==> WillFits(l.will.value))
    requires ch !in s.params && ch !in s.core.heap && ch in s.seen
    ensures var s1 := Evict(s, l.id);
      var s2 := Admit(s1, ch, l);
      Inv(if Restores(s1, l) then Restore(s2, s2.params[ch], o) else s2)
  {
    var s1 := Evict(s, l.id);
    var s2 := Admit(s1, ch, l);
    EvictConnections(s, l.id);
    AdmitConnections(s1, ch, l);
    AdmitStored(s1, ch, l);
    if Restores(s1, l) {
      RestoreStored(s2, s2.params[ch], o);
      SameConnections(s2, Restore(s2, s2.params[ch], o));
      RestoringIndex(s, ch, l, o);
    } else {
      FreshSessionIndex(s, ch, l);
    }
  }

  /** What registering a new client does to the tables of clients and sessions. */
  lemma AdmitShape(s: Server, ch: Channel, l: Login)
    ensures var s1 := Evict(s, l.id);
      var s2 := Admit(s1, ch, l);
      && l.id in s2.clients && s2.clients[l.id] == s2.params[ch] && s2.clients[l.id].id == l.id
        && s2.clients[l.id].clean == l.clean
      && s1.core == s.core && s1.sessions == s.sessions && s1.tables == s.tables && s2.tables == s.tables
      && forall id :: id != l.id ==>
        (id in s2.clients <==> id in s.clients) && (id in s.clients ==> s2.clients[id] == s.clients[id])
  {
  }

  lemma FreshSessionIndex(s: Server, ch: Channel, l: Login)
    requires Connections(s) && Stored(s) && Index(s) && ch !in s.core.heap
    requires !Restores(Evict(s, l.id), l)
    ensures Index(Admit(Evict(s, l.id), ch, l))
  {
    var s1 := Evict(s, l.id);
    AdmitShape(s, ch, l);
    AdmitSubs(s1, ch, l);
    FreshIndex(s, Admit(s1, ch, l), Admit(s1, ch, l).params[ch]);
  }

  lemma AdmitSubs(s: Server, ch: Channel, l: Login)
    requires ch !in s.core.heap
    ensures forall r :: r != ch ==> SubsOf(Admit(s, ch, l).core, r) == SubsOf(s.core, r)
    ensures !Restores(s, l) ==> SubsOf(Admit(s, ch, l).core, ch) == map[] && Admit(s, ch, l).params[ch].session == ch
  {
  }

  lemma RestoringIndex(s: Server, ch: Channel, l: Login, o: Orders)
    requires Connections(s) && Stored(s) && Index(s) && Traverses(s, o) && ch !in s.core.heap
    requires Restores(Evict(s, l.id), l)
    ensures var s2 := Admit(Evict(s, l.id), ch, l);
      Index(Restore(s2, s2.params[ch], o))
  {
    var s1 := Evict(s, l.id);
    var s2 := Admit(s1, ch, l);
    var c := s2.params[ch];
    AdmitShape(s, ch, l);
    AdmitSubs(s1, ch, l);
    AdmitStored(s1, ch, l);
    RestoreStored(s2, c, o);
    CoversSubs(s, o, c.session);
    PresentIndex(s, Restore(s2, c, o), c, o);
  }

  lemma SeenInv(s: Server, s': Server)
    requires Inv(s) && s' == s.(seen := s'.seen) && s.seen <= s'.seen
    ensures Inv(s')
  {
    forall id ensures IndexAt(s', id) { assert IndexAt(s, id); }
  }

  lemma ConnectInv(s: Server, ch: Channel, l: Login, o: Orders)
    requires Inv(s) && Possible(s, Connecting(ch, l)) && Traverses(s, o)
    ensures Inv(HandleConnect(s, ch, l, o))
  {
    var s0 := s.(seen := s.seen + {ch});
    SeenInv(s, s0);
    if l.code != 0 {
      RefusedInv(s0, Write(ch, Connack(false, l.code)));
    } else {
      SameTraversal(s, s0, o);
      AcceptedInv(s0, ch, l, o);
    }
  }

  lemma SameTraversal(s: Server, s': Server, o: Orders)
    requires Traverses(s, o) && s'.tables == s.tables && s'.trash == s.trash && s'.core == s.core
    ensures Traverses(s', o)
  {
  }

  lemma RefusedInv(s: Server, w: Write)
    requires Inv(s) && WriteFits(w)
    ensures Inv(s.(core := Wrote(s.core, w)))
  {
    var s' := s.(core := Wrote(s.core, w));
    LogMoreOk(s.core.log, w);
    QuietInv(s, s');
  }

  // ---------------------------------------------------------------- every step, every run

  lemma StepInv(s: Server, e: Event, o: Orders)
    requires Inv(s) && Possible(s, e) && Traverses(s, o)
    ensures Inv(Step(s, e, o))
  {
    if !s.core.stuck {
      match e
      case Connecting(ch, l) => ConnectInv(s, ch, l, o);
      case Subscribing(ch, id, items) => SubscribeInv(s, ch, id, items, o);
      case Unsubscribing(ch, id, names) => UnsubscribeInv(s, ch, id, names);
      case Publishing(ch, p) => PublishInv(s, ch, p, o);
      case Disconnecting(ch) => DisconnectInv(s, ch, o);
      case Losing(ch) => LostInv(s, ch, o);
      case _ => AckInv(s, e);
    }
  }

  lemma StartInv()
    ensures Inv(Start)
  {
    assert forall id :: IndexAt(Start, id);
  }

  lemma {:induction false} RunInv(s: Server, es: seq<(Event, Orders)>)
    requires Inv(s) && PossibleRun(s, es)
    ensures Inv(Run(s, es))
    decreases es
  {
    if es != [] {
      StepInv(s, es[0].0, es[0].1);
      RunInv(Step(s, es[0].0, es[0].1), es[1..]);
    }
  }
}
