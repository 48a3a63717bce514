/** Retained messages over whole runs: what each topic keeps is the last retained publication it got. */
module BrokerRetained {
  import opened Basics
  import opened TopicFilter
  import opened Packets
  import opened Sessions
  import opened Broker
  import opened BrokerIndex
  import opened BrokerInvariant

  /** The retained message of a topic of either table. */
  function Kept(t: Tables, w: bool, f: Str): Option<Publish> {
    TopicOr(Table(t, w), f).retained
  }

  function Overwritten(kept: Option<Publish>, p: Publish): Option<Publish> {
    if !p.retain then kept else if p.payload == [] then None else Some(p)
  }

  function Updated(kept: Option<Publish>, given: Option<Publish>): Option<Publish> {
    match given case Some(p) => Overwritten(kept, p) case None => kept
  }

  lemma {:induction false} AttachAllKept(t: Tables, c: Client, subs: map<Str, Sub>, order: seq<Str>, w: bool, f: Str)
    ensures Kept(AttachAll(t, c, subs, order), w, f) == Kept(t, w, f)
    decreases order
  {
    if order != [] {
      var g := order[0];
      AttachAllKept(if g in subs then Attach(t, c, g, subs[g].qos, subs[g].wild) else t, c, subs, order[1..], w, f);
    }
  }

  lemma {:induction false} DetachAllKept(t: Tables, id: ClientId, subs: map<Str, Sub>, order: seq<Str>, w: bool, f: Str)
    ensures Kept(DetachAll(t, id, subs, order), w, f) == Kept(t, w, f)
    decreases order
  {
    if order != [] {
      var g := order[0];
      DetachAllKept(if g in subs then Detach(t, id, g, subs[g].wild) else t, id, subs, order[1..], w, f);
    }
  }

  lemma {:induction false} SubscribeItemsKept(a: Progress, c: Client, items: seq<Item>, w: bool, f: Str)
    ensures Kept(SubscribeItems(a, c, items).tables, w, f) == Kept(a.tables, w, f)
    decreases items
  {
    if items != [] { SubscribeItemsKept(SubscribeOne(a, c, items[0]), c, items[1..], w, f); }
  }

  lemma {:induction false} UnsubscribeNamesKept(a: Removal, id: ClientId, names: seq<Named>, w: bool, f: Str)
    ensures Kept(UnsubscribeNames(a, id, names).tables, w, f) == Kept(a.tables, w, f)
    decreases names
  {
    if names != [] { UnsubscribeNamesKept(UnsubscribeOne(a, id, names[0]), id, names[1..], w, f); }
  }

  // ---------------------------------------------------------------- one step

  /** The message a step publishes: a client's, or the will of a client that was lost and whose will topic
      someone holds. */
  function Published(s: Server, e: Event): Option<Publish> {
    if s.core.stuck || e.ch !in s.params then None
    else match e
      case Publishing(_, p) => Some(p)
      case Losing(ch) =>
        var c := s.params[ch];
        if PublishesWill(s, c) then Some(WillOut(s, c)) else None
      case _ => None
  }

  /** The retained publication a topic gets in a step. A will goes to the exact table only. */
  function Given(s: Server, e: Event, w: bool, f: Str): Option<Publish> {
    var p := Published(s, e);
    if p.Some? && p.value.retain && f in Table(s.tables, w) && (e.Losing? ==> !w) && Scan(f, p.value.topic) then p
      else None
  }

  lemma ExactScan(t: Tables, refs: set<Channel>, f: Str, name: Str)
    requires TablesOk(t, refs) && f in t.exact
    ensures Scan(f, name) <==> f == name
  {
    LiteralMatch(f, name);
  }

  lemma KeepAllKept(t: Tables, p: Publish, refs: set<Channel>, w: bool, f: Str)
    requires TablesOk(t, refs)
    ensures Kept(KeepAll(t, p), w, f) == if f in Table(t, w) && Scan(f, p.topic) then Overwritten(Kept(t, w, f), p)
      else Kept(t, w, f)
    ensures Kept(t.(exact := KeepExact(t.exact, p)), w, f) ==
      if !w && f in t.exact && Scan(f, p.topic) then Overwritten(Kept(t, w, f), p) else Kept(t, w, f)
  {
    if f in t.exact { ExactScan(t, refs, f, p.topic); }
  }

  lemma ConnectKept(s: Server, ch: Channel, l: Login, o: Orders, w: bool, f: Str)
    ensures Kept(HandleConnect(s, ch, l, o).tables, w, f) == Kept(s.tables, w, f)
  {
    if l.code == 0 {
      var s1 := Evict(s.(seen := s.seen + {ch}), if l.id == [] then l.generated else l.id);
      var s2 := Admit(s1, ch, l);
      if Restores(s1, l) {
        AttachAllKept(s2.tables, s2.params[ch], s2.core.heap[s2.params[ch].session].subs, o.subs, w, f);
      }
    }
  }

  lemma RemoveKept(s: Server, c: Client, o: Orders, w: bool, f: Str)
    ensures Kept(Remove(s, c, o).tables, w, f) == Kept(s.tables, w, f)
  {
    DetachAllKept(s.tables, c.id, SubsOf(s.core, c.session), o.subs, w, f);
  }

  lemma SubscribeKept(s: Server, ch: Channel, packetId: uint16, items: seq<Item>, o: Orders, w: bool, f: Str)
    ensures Kept(HandleSubscribe(s, ch, packetId, items, o).tables, w, f) == Kept(s.tables, w, f)
  {
    if ch in s.params && s.params[ch].session in s.core.heap {
      SubscribeItemsKept(Progress(s.tables, s.trash, s.core.heap[s.params[ch].session].subs, [], [], []), s.params[ch],
        items, w, f);
    }
  }

  lemma UnsubscribeKept(s: Server, ch: Channel, packetId: uint16, names: seq<Named>, w: bool, f: Str)
    ensures Kept(HandleUnsubscribe(s, ch, packetId, names).tables, w, f) == Kept(s.tables, w, f)
  {
    if ch in s.params && s.params[ch].session in s.core.heap {
      UnsubscribeNamesKept(Removal(s.tables, s.core.heap[s.params[ch].session].subs), s.params[ch].id, names, w, f);
    }
  }

  /** The will of a client, once it has its identifier. */
  function WillOut(s: Server, c: Client): Publish
    requires PublishesWill(s, c)
  {
    WillPacket(c.will.value, NewId(s.core.heap[c.session]).id)
  }

  lemma WillTables(s: Server, c: Client, o: Orders)
    ensures PublishWill(s, c, o).tables ==
      if PublishesWill(s, c) then s.tables.(exact := KeepExact(s.tables.exact, WillOut(s, c))) else s.tables
  {
  }

  lemma WillKept(s: Server, ch: Channel, o: Orders, w: bool, f: Str)
    requires TablesOk(s.tables, s.core.heap.Keys) && !s.core.stuck && ch in s.params
    ensures Kept(PublishWill(s, s.params[ch], o).tables, w, f) ==
      Updated(Kept(s.tables, w, f), Given(s, Losing(ch), w, f))
  {
    WillTables(s, s.params[ch], o);
    if PublishesWill(s, s.params[ch]) {
      KeepAllKept(s.tables, WillOut(s, s.params[ch]), s.core.heap.Keys, w, f);
    }
  }

  lemma LostKept(s: Server, ch: Channel, o: Orders, w: bool, f: Str)
    requires TablesOk(s.tables, s.core.heap.Keys) && !s.core.stuck && ch in s.params
    ensures Kept(HandleLost(s, ch, o).tables, w, f) == Updated(Kept(s.tables, w, f), Given(s, Losing(ch), w, f))
  {
    RemoveKept(PublishWill(s, s.params[ch], o), s.params[ch], o, w, f);
    WillKept(s, ch, o, w, f);
  }

  lemma PublishKept(s: Server, ch: Channel, p: Publish, o: Orders, w: bool, f: Str)
    requires TablesOk(s.tables, s.core.heap.Keys) && !s.core.stuck
    ensures Kept(HandlePublish(s, ch, p, o).tables, w, f) ==
      Updated(Kept(s.tables, w, f), Given(s, Publishing(ch, p), w, f))
  {
    KeepAllKept(s.tables, p, s.core.heap.Keys, w, f);
  }

  /** One step: a topic's retained message changes exactly when a retained publication reaches the topic.
      No CONNECT, takeover, SUBSCRIBE, UNSUBSCRIBE, DISCONNECT or acknowledgement loses it. */
  lemma StepKept(s: Server, e: Event, o: Orders, w: bool, f: Str)
    requires TablesOk(s.tables, s.core.heap.Keys)
    ensures Kept(Step(s, e, o).tables, w, f) == Updated(Kept(s.tables, w, f), Given(s, e, w, f))
  {
    if !s.core.stuck {
      match e
      case Connecting(ch, l) => ConnectKept(s, ch, l, o, w, f);
      case Subscribing(ch, id, items) => SubscribeKept(s, ch, id, items, o, w, f);
      case Unsubscribing(ch, id, names) => UnsubscribeKept(s, ch, id, names, w, f);
      case Publishing(ch, p) => PublishKept(s, ch, p, o, w, f);
      case Disconnecting(ch) => if ch in s.params { RemoveKept(s, s.params[ch], o, w, f); }
      case Losing(ch) => if ch in s.params { LostKept(s, ch, o, w, f); }
      case _ => {}
    }
  }

  // ---------------------------------------------------------------- whole runs

  /** The retained publications a topic gets in a run, in order. */
  function AllGiven(s: Server, es: seq<(Event, Orders)>, w: bool, f: Str): seq<Publish>
    decreases es
  {
    if es == [] then []
    else
      var rest := AllGiven(Step(s, es[0].0, es[0].1), es[1..], w, f);
      match Given(s, es[0].0, w, f) case Some(p) => [p] + rest case None => rest
  }

  /** What is kept after some retained publications: the last one, unless its payload is empty. */
  function Settled(kept: Option<Publish>, ps: seq<Publish>): Option<Publish> {
    if ps == [] then kept else if ps[|ps| - 1].payload == [] then None else Some(ps[|ps| - 1])
  }

  lemma SettledStep(kept: Option<Publish>, given: Option<Publish>, rest: seq<Publish>)
    requires given.Some? ==> given.value.retain
    ensures Settled(Updated(kept, given), rest) == Settled(kept,
      match given case Some(p) => [p] + rest case None => rest)
  {
  }

  lemma GivenStep(s: Server, e: Event, o: Orders, w: bool, f: Str)
    requires Inv(s) && Possible(s, e) && Traverses(s, o)
    ensures Inv(Step(s, e, o)) && (Given(s, e, w, f).Some? ==> Given(s, e, w, f).value.retain)
    ensures Kept(Step(s, e, o).tables, w, f) == Updated(Kept(s.tables, w, f), Given(s, e, w, f))
  {
    StepInv(s, e, o);
    StepKept(s, e, o, w, f);
  }

  /** Main result on retained messages: over any run, what a topic keeps is decided by the last retained
      publication it got, an empty payload clearing it, and by nothing else. */
  lemma {:induction false} RetainedOverRun(s: Server, es: seq<(Event, Orders)>, w: bool, f: Str)
    requires Inv(s) && PossibleRun(s, es)
    ensures Kept(Run(s, es).tables, w, f) == Settled(Kept(s.tables, w, f), AllGiven(s, es, w, f))
    decreases es
  {
    if es != [] {
      var e, o := es[0].0, es[0].1;
      GivenStep(s, e, o, w, f);
      RetainedOverRun(Step(s, e, o), es[1..], w, f);
      SettledStep(Kept(s.tables, w, f), Given(s, e, w, f), AllGiven(Step(s, e, o), es[1..], w, f));
    }
  }

  // ---------------------------------------------------------------- when a topic goes away

  /** In both tables a topic that is gone had no retained message, and no entry but those of one client. */
  ghost predicate OnlyIdle(t: Tables, t': Tables, id: ClientId) {
    forall w, f :: f in Table(t, w) && f !in Table(t', w) ==>
      Kept(t, w, f) == None && forall other :: other != id ==> Has(t, w, f, other) == None
  }

  lemma DetachIdle(t: Tables, id: ClientId, f: Str, w: bool)
    ensures OnlyIdle(t, Detach(t, id, f, w), id)
  {
    if f in Table(t, w) && Empty(Leave(Table(t, w)[f], id)) {
      forall other | other != id ensures Has(t, w, f, other) == None {
        assert other !in Leave(Table(t, w)[f], id).entries;
      }
    }
  }

  lemma IdleTransitive(t: Tables, t1: Tables, t2: Tables, id: ClientId)
    requires OnlyIdle(t, t1, id) && OnlyIdle(t1, t2, id)
    requires forall w, f :: Kept(t1, w, f) == Kept(t, w, f)
    requires forall w, f, other :: other != id ==> Has(t1, w, f, other) == Has(t, w, f, other)
    ensures OnlyIdle(t, t2, id)
  {
    forall w, f | f in Table(t, w) && f !in Table(t2, w)
      ensures Kept(t, w, f) == None && forall other :: other != id ==> Has(t, w, f, other) == None
    {
      if f in Table(t1, w) {
        assert Kept(t1, w, f) == None;
        forall other | other != id ensures Has(t, w, f, other) == None { assert Has(t1, w, f, other) == None; }
      }
    }
  }

  lemma {:induction false} DetachAllIdle(t: Tables, id: ClientId, subs: map<Str, Sub>, order: seq<Str>)
    ensures OnlyIdle(t, DetachAll(t, id, subs, order), id)
    decreases order
  {
    if order != [] {
      var g := order[0];
      var t1 := if g in subs then Detach(t, id, g, subs[g].wild) else t;
      DetachAllIdle(t1, id, subs, order[1..]);
      if g in subs { DetachIdle(t, id, g, subs[g].wild); }
      IdleTransitive(t, t1, DetachAll(t1, id, subs, order[1..]), id);
    }
  }

  lemma {:induction false} UnsubscribeNamesIdle(a: Removal, id: ClientId, names: seq<Named>)
    ensures OnlyIdle(a.tables, UnsubscribeNames(a, id, names).tables, id)
    decreases names
  {
    if names != [] {
      var a1 := UnsubscribeOne(a, id, names[0]);
      UnsubscribeNamesIdle(a1, id, names[1..]);
      DetachIdle(a.tables, id, names[0].filter, names[0].wild);
      IdleTransitive(a.tables, a1.tables, UnsubscribeNames(a1, id, names[1..]).tables, id);
    }
  }

  lemma {:induction false} AttachAllStays(t: Tables, c: Client, subs: map<Str, Sub>, order: seq<Str>, w: bool, f: Str)
    requires f in Table(t, w)
    ensures f in Table(AttachAll(t, c, subs, order), w)
    decreases order
  {
    if order != [] {
      var g := order[0];
      AttachAllStays(if g in subs then Attach(t, c, g, subs[g].qos, subs[g].wild) else t, c, subs, order[1..], w, f);
    }
  }

  lemma {:induction false} SubscribeItemsStays(a: Progress, c: Client, items: seq<Item>, w: bool, f: Str)
    requires f in Table(a.tables, w)
    ensures f in Table(SubscribeItems(a, c, items).tables, w)
    decreases items
  {
    if items != [] { SubscribeItemsStays(SubscribeOne(a, c, items[0]), c, items[1..], w, f); }
  }

  lemma ConnectStays(s: Server, ch: Channel, l: Login, o: Orders, w: bool, f: Str)
    requires f in Table(s.tables, w)
    ensures f in Table(HandleConnect(s, ch, l, o).tables, w)
  {
    if l.code == 0 {
      var s1 := Evict(s.(seen := s.seen + {ch}), if l.id == [] then l.generated else l.id);
      var s2 := Admit(s1, ch, l);
      if Restores(s1, l) {
        AttachAllStays(s2.tables, s2.params[ch], s2.core.heap[s2.params[ch].session].subs, o.subs, w, f);
      }
    }
  }

  /** A topic is taken out of its table only when it holds no retained message and no client but the one
      whose step it is. */
  lemma ErasedOnlyWhenEmpty(s: Server, e: Event, o: Orders, w: bool, f: Str)
    requires f in Table(s.tables, w) && f !in Table(Step(s, e, o).tables, w)
    requires TablesOk(s.tables, s.core.heap.Keys)
    ensures e.ch in s.params && (e.Unsubscribing? || e.Disconnecting? || e.Losing?)
    ensures forall id :: id != s.params[e.ch].id ==> Has(s.tables, w, f, id) == None
    ensures Updated(Kept(s.tables, w, f), Given(s, e, w, f)) == None
  {
    StepKept(s, e, o, w, f);
    match e
    case Connecting(ch, l) => ConnectStays(s, ch, l, o, w, f);
    case Subscribing(ch, id, items) =>
      if ch in s.params && s.params[ch].session in s.core.heap {
        SubscribeItemsStays(Progress(s.tables, s.trash, s.core.heap[s.params[ch].session].subs, [], [], []),
          s.params[ch], items, w, f);
      }
    case Unsubscribing(ch, id, names) =>
      UnsubscribeNamesIdle(Removal(s.tables, s.core.heap[s.params[ch].session].subs), s.params[ch].id, names);
    case Disconnecting(ch) => RemoveIdle(s, s.params[ch], o);
    case Losing(ch) => LostIdle(s, ch, o, w, f);
    case _ => {}
  }

  lemma RemoveIdle(s: Server, c: Client, o: Orders)
    ensures OnlyIdle(s.tables, Remove(s, c, o).tables, c.id)
  {
    DetachAllIdle(s.tables, c.id, SubsOf(s.core, c.session), o.subs);
  }

  lemma LostIdle(s: Server, ch: Channel, o: Orders, w: bool, f: Str)
    requires f in Table(s.tables, w) && f !in Table(HandleLost(s, ch, o).tables, w)
    ensures ch in s.params && forall id :: id != s.params[ch].id ==> Has(s.tables, w, f, id) == None
  {
    var s1 := PublishWill(s, s.params[ch], o);
    RemoveIdle(s1, s.params[ch], o);
    if PublishesWill(s, s.params[ch]) {
      WillTables(s, s.params[ch], o);
      forall id ensures Has(s1.tables, w, f, id) == Has(s.tables, w, f, id)
      {
        KeepsHas(s.tables, WillOut(s, s.params[ch]), w, f, id);
      }
    }
  }

  // ---------------------------------------------------------------- topics that nothing is in

  /** A topic object with neither a client nor a retained message. */
  predicate Hollow(t: Tables, w: bool, f: Str) {
    f in Table(t, w) && Table(t, w)[f].entries == map[] && Table(t, w)[f].retained == None
  }

  lemma AttachHollow(t: Tables, c: Client, g: Str, qos: byte, wild: bool, w: bool, f: Str)
    requires Hollow(Attach(t, c, g, qos, wild), w, f)
    ensures Hollow(t, w, f)
  {
    assert c.id in Enter(TopicOr(Table(t, wild), g), c, qos).entries;
  }

  lemma {:induction false} AttachAllHollow(t: Tables, c: Client, subs: map<Str, Sub>, order: seq<Str>, w: bool, f: Str)
    requires Hollow(AttachAll(t, c, subs, order), w, f)
    ensures Hollow(t, w, f)
    decreases order
  {
    if order != [] {
      var g := order[0];
      AttachAllHollow(if g in subs then Attach(t, c, g, subs[g].qos, subs[g].wild) else t, c, subs, order[1..], w, f);
      if g in subs { AttachHollow(t, c, g, subs[g].qos, subs[g].wild, w, f); }
    }
  }

  lemma DetachHollow(t: Tables, id: ClientId, g: Str, wild: bool, w: bool, f: Str)
    requires Hollow(Detach(t, id, g, wild), w, f)
    ensures Hollow(t, w, f)
  {
  }

  lemma {:induction false} DetachAllHollow(t: Tables, id: ClientId, subs: map<Str, Sub>, order: seq<Str>, w: bool,
      f: Str)
    requires Hollow(DetachAll(t, id, subs, order), w, f)
    ensures Hollow(t, w, f)
    decreases order
  {
    if order != [] {
      var g := order[0];
      DetachAllHollow(if g in subs then Detach(t, id, g, subs[g].wild) else t, id, subs, order[1..], w, f);
      if g in subs { DetachHollow(t, id, g, subs[g].wild, w, f); }
    }
  }

  lemma {:induction false} SubscribeItemsHollow(a: Progress, c: Client, items: seq<Item>, w: bool, f: Str)
    requires Hollow(SubscribeItems(a, c, items).tables, w, f)
    ensures Hollow(a.tables, w, f)
    decreases items
  {
    if items != [] {
      var a1 := SubscribeOne(a, c, items[0]);
      SubscribeItemsHollow(a1, c, items[1..], w, f);
      if a1.tables != a.tables { AttachHollow(a.tables, c, items[0].filter, items[0].qos, items[0].wild, w, f); }
    }
  }

  lemma {:induction false} UnsubscribeNamesHollow(a: Removal, id: ClientId, names: seq<Named>, w: bool, f: Str)
    requires Hollow(UnsubscribeNames(a, id, names).tables, w, f)
    ensures Hollow(a.tables, w, f)
    decreases names
  {
    if names != [] {
      var a1 := UnsubscribeOne(a, id, names[0]);
      UnsubscribeNamesHollow(a1, id, names[1..], w, f);
      if a1.tables != a.tables { DetachHollow(a.tables, id, names[0].filter, names[0].wild, w, f); }
    }
  }

  lemma ConnectHollow(s: Server, ch: Channel, l: Login, o: Orders, w: bool, f: Str)
    requires Hollow(HandleConnect(s, ch, l, o).tables, w, f)
    ensures Hollow(s.tables, w, f)
  {
    if l.code == 0 {
      var s1 := Evict(s.(seen := s.seen + {ch}), if l.id == [] then l.generated else l.id);
      var s2 := Admit(s1, ch, l);
      if Restores(s1, l) {
        AttachAllHollow(s2.tables, s2.params[ch], s2.core.heap[s2.params[ch].session].subs, o.subs, w, f);
      }
    }
  }

  /** What a publication leaves hollow was hollow, or had its retained message cleared. */
  lemma KeepsHollow(t: Tables, t': Tables, w: bool, f: Str, given: Option<Publish>)
    requires Hollow(t', w, f) && f in Table(t, w) && Table(t', w)[f].entries == Table(t, w)[f].entries
    requires Kept(t', w, f) == Updated(Kept(t, w, f), given)
    ensures Hollow(t, w, f) || (given.Some? && given.value.payload == [])
  {
  }

  lemma PublishHollow(s: Server, ch: Channel, p: Publish, o: Orders, w: bool, f: Str)
    requires TablesOk(s.tables, s.core.heap.Keys) && !s.core.stuck && Hollow(HandlePublish(s, ch, p, o).tables, w, f)
    ensures Hollow(s.tables, w, f)
      || (Given(s, Publishing(ch, p), w, f).Some? && Given(s, Publishing(ch, p), w, f).value.payload == [])
  {
    PublishKept(s, ch, p, o, w, f);
    KeepsHollow(s.tables, HandlePublish(s, ch, p, o).tables, w, f, Given(s, Publishing(ch, p), w, f));
  }

  lemma LostHollow(s: Server, ch: Channel, o: Orders, w: bool, f: Str)
    requires TablesOk(s.tables, s.core.heap.Keys) && !s.core.stuck && Hollow(HandleLost(s, ch, o).tables, w, f)
    ensures Hollow(s.tables, w, f)
      || (Given(s, Losing(ch), w, f).Some? && Given(s, Losing(ch), w, f).value.payload == [])
  {
    if ch in s.params {
      var c := s.params[ch];
      var s1 := PublishWill(s, c, o);
      DetachAllHollow(s1.tables, c.id, SubsOf(s1.core, c.session), o.subs, w, f);
      WillTables(s, c, o);
      WillKept(s, ch, o, w, f);
      KeepsHollow(s.tables, s1.tables, w, f, Given(s, Losing(ch), w, f));
    }
  }

  /** No topic object is left behind empty: a client that leaves takes with it every topic that then holds
      nothing. Only a publication that clears the retained message of a topic without clients leaves one. */
  lemma HollowOnlyByClearing(s: Server, e: Event, o: Orders, w: bool, f: Str)
    requires TablesOk(s.tables, s.core.heap.Keys) && Hollow(Step(s, e, o).tables, w, f) && !Hollow(s.tables, w, f)
    ensures Given(s, e, w, f).Some? && Given(s, e, w, f).value.payload == []
  {
    match e
    case Connecting(ch, l) => ConnectHollow(s, ch, l, o, w, f);
    case Subscribing(ch, id, items) =>
      if ch in s.params && s.params[ch].session in s.core.heap {
        SubscribeItemsHollow(Progress(s.tables, s.trash, s.core.heap[s.params[ch].session].subs, [], [], []),
          s.params[ch], items, w, f);
      }
    case Unsubscribing(ch, id, names) =>
      if ch in s.params && s.params[ch].session in s.core.heap {
        UnsubscribeNamesHollow(Removal(s.tables, s.core.heap[s.params[ch].session].subs), s.params[ch].id, names, w, f);
      }
    case Publishing(ch, p) => PublishHollow(s, ch, p, o, w, f);
    case Disconnecting(ch) =>
      if ch in s.params {
        DetachAllHollow(s.tables, s.params[ch].id, SubsOf(s.core, s.params[ch].session), o.subs, w, f);
      }
    case Losing(ch) => LostHollow(s, ch, o, w, f);
    case _ => {}
  }
}
