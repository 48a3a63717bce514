/**
  `mqtt_server` as an object: the connection and session tables, the topics and the channels,
  changed in place by the handlers. Every handler is proved to take one step of the state machine.
 */
module MqttServers {
  import opened Basics
  import opened TopicFilter
  import opened Packets
  import opened Sessions
  import opened Outlets
  import opened TopicObjects
  import B = Broker
  import BrokerIndex
  import BrokerInvariant
  import BrokerAnswers

  class MqttServer {
    const index: TopicIndex
    const trash: Topic
    const net: Outlet
    var clients: map<B.ClientId, B.Client>
    var sessions: map<B.ClientId, B.Channel>
    var params: map<B.Channel, B.Client>
    ghost var seen: set<B.Channel>

    /** The topics are separate objects, and every connected client has its session object. */
    ghost predicate Valid()
      reads this, index, index.exact, index.wild, net
    {
      && index.Valid() && net.Valid() && trash !in index.Objects()
      && (forall ch :: ch in params ==> params[ch].channel == ch && params[ch].session in net.heap)
      && (forall id :: id in sessions ==> sessions[id] in net.heap)
    }

    ghost function State(): B.Server
      requires Valid()
      reads this, index, index.exact, index.wild, index.Objects(), trash, net, net.objects
    {
      B.Server(clients, sessions, params, index.Value(), trash.Value(), net.Value(), seen)
    }

    constructor ()
      ensures Valid() && State() == B.Start
    {
      index := new TopicIndex();
      trash := new Topic(B.TRASH);
      net := new Outlet();
      clients, sessions, params := map[], map[], map[];
      seen := {};
    }

    // -------------------------------------------------------------- PUBLISH and the acknowledgements

    method Acknowledge(c: B.Client, p: Publish)
      requires Valid() && c.session in net.heap
      modifies net`log, net`stuck, net.objects
      ensures Valid() && State() == WithCore(old(State()), B.Acknowledge(old(State()).core, c, p))
    {
      net.Acknowledge(c, p);
    }

    method PublishToTopics(p: Publish, o: B.Orders) returns (sent: bool)
      requires Valid() && Reaches(State().tables, o)
      modifies index.Objects(), net`log, net`stuck, net.objects
      ensures Valid()
        && State() == WithTables(old(State()), B.KeepAll(old(State()).tables, p),
        B.DeliverAll(old(State()).core, B.FanOut(old(State()).tables, p, o)))
      ensures sent == B.Sent(old(State()).tables.wild, o.filters, p,
        B.TopicOr(old(State()).tables.exact, p.topic).entries != map[])
    {
      sent := index.Publish(net, p, o);
    }

    method NotifyTrash(p: Publish, o: B.Orders)
      requires Valid() && forall id :: id in State().trash.entries ==> id in o.ids
      modifies trash, net`log, net`stuck, net.objects
      ensures Valid()
        && State() == WithCore(old(State()), B.DeliverAll(old(State()).core,
        B.TopicDeliveries(old(State()).trash, o.ids, B.TrashNote(p))))
    {
      var sent := trash.Publish(net, B.TrashNote(p), o.ids);
    }

    /** Forwarding to the topics, and telling $sys/trash when the last one had no client. */
    method Forward(p: Publish, o: B.Orders)
      requires Valid() && Visits(State(), o)
      modifies index.Objects(), trash, net`log, net`stuck, net.objects
      ensures Valid() && State() == WithTables(old(State()), B.KeepAll(old(State()).tables, p),
                                               B.PublishCore(old(State()).core, old(State()).tables, old(State()).trash,
                                                 p, o))
    {
      var sent := PublishToTopics(p, o);
      if !sent {
        NotifyTrash(p, o);
      }
    }

    /** False when the channel has no client: the source throws. */
    method HandlePublish(ch: B.Channel, p: Publish, o: B.Orders) returns (ok: bool)
      requires Valid() && Visits(State(), o)
      modifies index.Objects(), trash, net`log, net`stuck, net.objects
      ensures Valid() && ok == (ch in params) && State() == B.HandlePublish(old(State()), ch, p, o)
    {
      ok := ch in params;
      if ok {
        Acknowledge(params[ch], p);
        Forward(p, o);
      }
    }

    method HandleAck(e: B.Event) returns (ok: bool)
      requires Valid() && B.IsAck(e)
      modifies net`log, net.objects
      ensures Valid() && ok == (e.ch in params) && State() == B.HandleAck(old(State()), e)
    {
      ok := e.ch in params;
      if ok {
        net.HandleAck(params[e.ch].session, e);
      }
    }

    // -------------------------------------------------------------- leaving

    method UnsubscribeAll(c: B.Client, o: B.Orders)
      requires Valid() && c.session in net.heap
      modifies index.exact, index.wild, index.Objects()
      ensures Valid()
        && State() == WithTables(old(State()), B.DetachAll(old(State()).tables, c.id,
        old(State()).core.heap[c.session].subs, o.subs), old(State()).core)
    {
      index.UnsubscribeAll(c.id, net.heap[c.session].subs, o.subs);
    }

    /** Taking a client off the connection table, and its session off the other when it asked for that. */
    method Forget(c: B.Client)
      requires Valid()
      modifies this`params, this`clients, this`sessions
      ensures Valid() && State() == Forgotten(old(State()), c)
    {
      params := params - {c.channel};
      if c.clean {
        sessions := sessions - {c.id};
      }
      clients := clients - {c.id};
    }

    /** What DISCONNECT and the loss of a channel have in common. */
    method Remove(c: B.Client, o: B.Orders)
      requires Valid() && c.session in net.heap
      modifies this`params, this`clients, this`sessions, index.exact, index.wild, index.Objects()
      ensures Valid() && State() == B.Remove(old(State()), c, o)
    {
      UnsubscribeAll(c, o);
      Forget(c);
    }

    method HandleDisconnect(ch: B.Channel, o: B.Orders) returns (ok: bool)
      requires Valid()
      modifies this`params, this`clients, this`sessions, index.exact, index.wild, index.Objects()
      ensures Valid() && ok == (ch in old(params)) && State() == B.HandleDisconnect(old(State()), ch, o)
    {
      ok := ch in params;
      if ok {
        Remove(params[ch], o);
      }
    }

    method NewPacketId(ref: B.Channel) returns (found: bool, id: uint16)
      requires Valid() && ref in net.heap
      modifies net`stuck, net.objects
      ensures Valid() && State() == WithCore(old(State()), DrewId(old(State()).core, ref))
      ensures found == NewId(old(State()).core.heap[ref]).found && id == NewId(old(State()).core.heap[ref]).id
    {
      found, id := net.NewPacketId(ref);
    }

    method PublishToExact(p: Publish, o: B.Orders)
      requires Valid() && Visits(State(), o) && p.topic in State().tables.exact
      modifies index.exact.objects, net`log, net`stuck, net.objects
      ensures Valid()
      ensures var s := old(State());
        State() == WithTables(s, s.tables.(exact := B.KeepExact(s.tables.exact, p)),
          B.DeliverAll(s.core, B.TopicDeliveries(s.tables.exact[p.topic], o.ids, p)))
    {
      ReachesTopic(index.Value(), o, p.topic);
      var sent := index.PublishExact(net, p, o.ids);
    }

    /** `publish_will_message`: only to a topic of the exact table. */
    method PublishWill(c: B.Client, o: B.Orders)
      requires Valid() && c.session in net.heap && Visits(State(), o)
      modifies index.exact.objects, net`log, net`stuck, net.objects
      ensures Valid() && State() == B.PublishWill(old(State()), c, o)
    {
      if c.will.Some? && c.will.value.topic in index.exact.topics {
        assert c.will.value.topic in State().tables.exact;
        var found, id := NewPacketId(c.session);
        if found {
          PublishToExact(B.WillPacket(c.will.value, id), o);
        }
      } else {
        assert c.will.Some? ==> c.will.value.topic !in State().tables.exact;
      }
    }

    method HandleChannelDisconnected(ch: B.Channel, o: B.Orders)
      requires Valid() && Visits(State(), o)
      modifies this`params, this`clients, this`sessions, index.exact, index.wild, index.Objects(), net`log, net`stuck,
        net.objects
      ensures Valid() && State() == B.HandleLost(old(State()), ch, o)
    {
      if ch in params {
        var c := params[ch];
        PublishWill(c, o);
        Remove(c, o);
      }
    }

    // -------------------------------------------------------------- SUBSCRIBE and UNSUBSCRIBE

    method EnterTopic(c: B.Client, item: Item)
      requires Valid()
      modifies index.exact, index.wild, index.Objects()
      ensures Valid()
        && State() == WithTables(old(State()), B.Attach(old(State()).tables, c, item.filter, item.qos, item.wild),
        old(State()).core)
      ensures forall t :: t in index.Objects() ==> t in old(index.Objects()) || fresh(t)
    {
      index.Subscribe(item.filter, c, item.qos, item.wild);
    }

    method AddSubscription(ref: B.Channel, item: Item)
      requires Valid() && ref in net.heap
      modifies net.objects
      ensures Valid() && State() == WithCore(old(State()), AddedSub(old(State()).core, ref, item))
    {
      net.AddSubscription(ref, item.filter, item.qos, item.wild);
    }

    /** A subscription in its table and in the session. */
    method EnterSubscription(c: B.Client, item: Item)
      requires Valid() && c.session in net.heap
      modifies index.exact, index.wild, index.Objects(), net.objects
      ensures Valid() && forall t :: t in index.Objects() ==> t in old(index.Objects()) || fresh(t)
      ensures State() == WithTables(old(State()), B.Attach(old(State()).tables, c, item.filter, item.qos, item.wild),
        AddedSub(old(State()).core, c.session, item))
    {
      EnterTopic(c, item);
      AddSubscription(c.session, item);
    }

    method SubscribeTrash(c: B.Client)
      requires Valid()
      modifies trash
      ensures Valid() && State() == WithTrash(old(State()), B.Enter(old(State()).trash, c, 2))
    {
      trash.Subscribe(c, 2);
    }

    /** The effect of one filter of a SUBSCRIBE on topics and session. */
    method SubscribeEffect(c: B.Client, item: Item, ghost s: B.Server, ghost a: B.Progress)
        returns (code: byte, entered: bool)
      requires Valid() && c.session in net.heap && c.session in s.core.heap && State() == WithProgress(s, c.session, a)
      modifies index.exact, index.wild, index.Objects(), trash, net.objects
      ensures Valid() && State() == WithProgress(s, c.session, B.SubscribeOne(a, c, item))
      ensures forall t :: t in index.Objects() ==> t in old(index.Objects()) || fresh(t)
      ensures entered == BrokerIndex.Accepted(item) && code == BrokerAnswers.Answer(c, item)
    {
      code, entered := FAILURE, false;
      SubscribeOneIs(s, a, c, item);
      if item.qos < QOS_INVALID {
        if item.filter != [] && item.filter[0] == DOLLAR {
          if c.admin && item.filter == B.TRASH {
            SubscribeTrash(c);
            code := item.qos;
          }
        } else {
          EnterSubscription(c, item);
          code, entered := item.qos, true;
        }
      }
    }

    /** One turn of the loop over the filters. */
    method SubscribeOne(c: B.Client, item: Item, ghost s: B.Server, ghost a: B.Progress, codes: Str, plain: seq<Str>,
        wilds: seq<Str>)
      returns (codes': Str, plain': seq<Str>, wilds': seq<Str>)
      requires Valid() && c.session in net.heap && c.session in s.core.heap && State() == WithProgress(s, c.session, a)
      requires codes == a.codes && plain == a.plain && wilds == a.wilds
      modifies index.exact, index.wild, index.Objects(), trash, net.objects
      ensures Valid() && State() == WithProgress(s, c.session, B.SubscribeOne(a, c, item))
      ensures forall t :: t in index.Objects() ==> t in old(index.Objects()) || fresh(t)
      ensures codes' == B.SubscribeOne(a, c, item).codes && plain' == B.SubscribeOne(a, c, item).plain
        && wilds' == B.SubscribeOne(a, c, item).wilds
    {
      SubscribeOneAnswers(a, c, item);
      var code, entered := SubscribeEffect(c, item, s, a);
      codes', plain', wilds' := codes + [code], plain, wilds;
      if entered && item.wild {
        wilds' := wilds + [item.filter];
      } else if entered {
        plain' := plain + [item.filter];
      }
    }

    method WriteChannel(ch: B.Channel, packet: B.Wire)
      requires Valid()
      modifies net`log
      ensures Valid() && State() == WithCore(old(State()), B.Wrote(old(State()).core, B.Write(ch, packet)))
    {
      net.WriteChannel(ch, packet);
    }

    method PublishRetained(c: B.Client, plain: seq<Str>, wilds: seq<Str>, o: B.Orders)
      requires Valid() && Holds(State().tables.exact, c, plain) && Holds(State().tables.wild, c, wilds)
      modifies net`log, net`stuck, net.objects
      ensures Valid()
        && State() == WithCore(old(State()), B.DeliverAll(old(State()).core,
        B.Retained(old(State()).tables, c, plain, wilds, o)))
    {
      index.PublishRetained(net, c, plain, wilds, o);
    }

    method SubscribeItems(c: B.Client, items: seq<Item>) returns (codes: Str, plain: seq<Str>, wilds: seq<Str>)
      requires Valid() && c.session in net.heap
      modifies index.exact, index.wild, index.Objects(), trash, net.objects
      ensures Valid()
      ensures var a := B.Subscribed(old(State()), c, items);
        State() == WithProgress(old(State()), c.session, a) && codes == a.codes && plain == a.plain && wilds == a.wilds
    {
      ghost var s := State();
      ghost var a := B.Progress(s.tables, s.trash, s.core.heap[c.session].subs, [], [], []);
      codes, plain, wilds := [], [], [];
      NoProgress(s, c.session, a);
      for n := 0 to |items|
        invariant Valid() && State() == WithProgress(s, c.session, a)
        invariant forall t :: t in index.Objects() ==> t in old(index.Objects()) || fresh(t)
        invariant codes == a.codes && plain == a.plain && wilds == a.wilds
        invariant B.SubscribeItems(a, c, items[n..]) == B.Subscribed(s, c, items)
      {
        assert items[n..][1..] == items[n + 1..];
        codes, plain, wilds := SubscribeOne(c, items[n], s, a, codes, plain, wilds);
        a := B.SubscribeOne(a, c, items[n]);
      }
    }

    method HandleSubscribe(ch: B.Channel, packetId: uint16, items: seq<Item>, o: B.Orders) returns (ok: bool)
      requires Valid()
      modifies index.exact, index.wild, index.Objects(), trash, net`log, net`stuck, net.objects
      ensures Valid() && ok == (ch in params) && State() == B.HandleSubscribe(old(State()), ch, packetId, items, o)
    {
      ok := ch in params;
      if ok {
        var c := params[ch];
        SubscribedHolds(B.Progress(State().tables, State().trash, State().core.heap[c.session].subs, [], [], []), c,
          items);
        var codes, plain, wilds := SubscribeItems(c, items);
        WriteChannel(ch, B.SubackPacket(packetId, codes));
        PublishRetained(c, plain, wilds, o);
      }
    }

    method LeaveTopic(id: B.ClientId, n: Named) returns (found: bool)
      requires Valid()
      modifies index.exact, index.wild, index.Objects()
      ensures Valid() && index.Objects() == old(index.Objects())
        && found == (n.filter in B.Table(old(State()).tables, n.wild))
      ensures State() == WithTables(old(State()), B.Detach(old(State()).tables, id, n.filter, n.wild),
        old(State()).core)
    {
      found := index.Unsubscribe(id, n.filter, n.wild);
    }

    method DeleteSubscription(ref: B.Channel, f: Str)
      requires Valid() && ref in net.heap
      modifies net.objects
      ensures Valid() && State() == WithCore(old(State()), DeletedSub(old(State()).core, ref, f))
    {
      net.DeleteSubscription(ref, f);
    }

    /** One filter of an UNSUBSCRIBE: out of its topic and, if there was one, out of the session. */
    method UnsubscribeOne(c: B.Client, n: Named, ghost s: B.Server, ghost a: B.Removal)
      requires Valid() && c.session in net.heap && c.session in s.core.heap && State() == WithRemoval(s, c.session, a)
      modifies index.exact, index.wild, index.Objects(), net.objects
      ensures Valid() && index.Objects() == old(index.Objects())
        && State() == WithRemoval(s, c.session, B.UnsubscribeOne(a, c.id, n))
    {
      UnsubscribeOneIs(s, a, c, n);
      var found := LeaveTopic(c.id, n);
      if found {
        DeleteSubscription(c.session, n.filter);
      }
    }

    method UnsubscribeNames(c: B.Client, names: seq<Named>)
      requires Valid() && c.session in net.heap
      modifies index.exact, index.wild, index.Objects(), net.objects
      ensures Valid()
      ensures var s := old(State());
        State() == WithRemoval(s, c.session, B.UnsubscribeNames(B.Removal(s.tables, s.core.heap[c.session].subs), c.id,
          names))
    {
      ghost var s := State();
      ghost var first := B.Removal(s.tables, s.core.heap[c.session].subs);
      ghost var a := first;
      NoRemoval(s, c.session, a);
      for n := 0 to |names|
        invariant Valid() && index.Objects() == old(index.Objects()) && State() == WithRemoval(s, c.session, a)
        invariant B.UnsubscribeNames(a, c.id, names[n..]) == B.UnsubscribeNames(first, c.id, names)
      {
        assert names[n..][1..] == names[n + 1..];
        UnsubscribeOne(c, names[n], s, a);
        a := B.UnsubscribeOne(a, c.id, names[n]);
      }
    }

    method HandleUnsubscribe(ch: B.Channel, packetId: uint16, names: seq<Named>) returns (ok: bool)
      requires Valid()
      modifies index.exact, index.wild, index.Objects(), net`log, net.objects
      ensures Valid() && ok == (ch in params) && State() == B.HandleUnsubscribe(old(State()), ch, packetId, names)
    {
      ok := ch in params;
      if ok {
        UnsubscribeNames(params[ch], names);
        WriteChannel(ch, B.Unsuback(packetId));
      }
    }

    // -------------------------------------------------------------- CONNECT

    /** Taking a connected client of the same id off the tables. */
    method Evict(id: B.ClientId)
      requires Valid()
      modifies this`clients, this`params
      ensures Valid() && State() == B.Evict(old(State()), id)
    {
      if id in clients {
        var previous := clients[id];
        clients := clients - {id};
        params := params - {previous.channel};
      }
    }

    method Allocate(ch: B.Channel)
      requires Valid() && ch !in net.heap
      modifies net`heap, net`objects
      ensures Valid() && ch in net.heap && State() == WithCore(old(State()), B.Touch(old(State()).core, ch, NewSession))
      ensures forall s :: s in net.objects ==> s in old(net.objects) || fresh(s)
    {
      net.Allocate(ch);
    }

    /** An earlier session of the id is dropped. */
    method StoreSession(id: B.ClientId, ref: B.Channel)
      requires Valid() && ref in net.heap
      modifies this`sessions
      ensures Valid() && State() == WithSession(old(State()), id, ref, old(State()).core)
    {
      sessions := sessions - {id};
      sessions := sessions[id := ref];
      assert sessions == old(sessions)[id := ref];
    }

    /** The session of a new connection: the stored one, or a new one stored under its id. */
    method FindSession(ch: B.Channel, id: B.ClientId, clean: bool) returns (present: bool, ref: B.Channel)
      requires Valid() && ch !in net.heap
      modifies this`sessions, net`heap, net`objects
      ensures Valid() && present == (!clean && id in old(sessions))
        && ref == (if present then old(sessions)[id] else ch) && ref in net.heap
      ensures State() == WithSession(old(State()), id, ref,
        if present then old(State()).core else B.Touch(old(State()).core, ch, NewSession))
      ensures forall s :: s in net.objects ==> s in old(net.objects) || fresh(s)
    {
      present, ref := !clean && id in sessions, ch;
      if present {
        ref := sessions[id];
        assert sessions[id := ref] == sessions;
      } else {
        Allocate(ch);
        StoreSession(id, ch);
      }
    }

    /** `reg_client_ptr` keeps an existing registration. */
    method Register(c: B.Client)
      requires Valid() && c.session in net.heap
      modifies this`clients, this`params
      ensures Valid() && State() == Registered(old(State()), c)
    {
      if c.id !in clients {
        clients := clients[c.id := c];
      }
      params := params[c.channel := c];
    }

    method Accept(c: B.Client, present: bool)
      requires Valid() && c.session in net.heap
      modifies this`clients, this`params, net`log
      ensures Valid()
      ensures var s := Registered(old(State()), c);
        State() == WithCore(s, B.Wrote(s.core, B.Write(c.channel, B.Connack(present, 0))))
    {
      Register(c);
      WriteChannel(c.channel, B.Connack(present, 0));
    }

    method Admit(ch: B.Channel, l: B.Login) returns (present: bool)
      requires Valid() && ch !in net.heap
      modifies this`clients, this`params, this`sessions, net`heap, net`objects, net`log
      ensures Valid() && present == B.Restores(old(State()), l) && State() == B.Admit(old(State()), ch, l)
      ensures forall s :: s in net.objects ==> s in old(net.objects) || fresh(s)
    {
      AdmitInSteps(State(), ch, l);
      var ref;
      present, ref := FindSession(ch, l.id, l.clean);
      Accept(B.Client(ch, l.id, l.admin, l.clean, l.will, ref), present);
    }

    method SubscribeAgain(c: B.Client, o: B.Orders) returns (plain: seq<Str>, wilds: seq<Str>)
      requires Valid() && c.session in net.heap
      modifies index.exact, index.wild, index.Objects()
      ensures Valid()
      ensures var subs := old(State()).core.heap[c.session].subs;
        && State() == WithTables(old(State()), B.AttachAll(old(State()).tables, c, subs, o.subs), old(State()).core)
        && plain == B.FiltersIn(subs, o.subs, false) && wilds == B.FiltersIn(subs, o.subs, true)
    {
      plain, wilds := index.SubscribeAll(c, net.heap[c.session].subs, o.subs);
    }

    method Replay(c: B.Client)
      requires Valid() && c.session in net.heap
      modifies net`log, net.objects
      ensures Valid() && State() == WithCore(old(State()), B.ReplayCore(old(State()).core, c))
    {
      net.Replay(c);
    }

    method Restore(c: B.Client, o: B.Orders)
      requires Valid() && c.session in net.heap
      modifies index.exact, index.wild, index.Objects(), net`log, net`stuck, net.objects
      ensures Valid() && State() == B.Restore(old(State()), c, o)
    {
      RestoredHolds(State().tables, c, State().core.heap[c.session].subs, o.subs);
      var plain, wilds := SubscribeAgain(c, o);
      Replay(c);
      PublishRetained(c, plain, wilds, o);
    }

    method HandleConnect(ch: B.Channel, l: B.Login, o: B.Orders)
      requires Valid() && ch !in net.heap
      modifies this, index.exact, index.wild, index.Objects(), net, net.objects
      ensures Valid() && State() == B.HandleConnect(old(State()), ch, l, o)
    {
      seen := seen + {ch};
      if l.code != 0 {
        WriteChannel(ch, B.Connack(false, l.code));
      } else {
        Evict(if l.id == [] then l.generated else l.id);
        var present := Admit(ch, l);
        if present {
          Restore(params[ch], o);
        }
      }
    }

    // -------------------------------------------------------------- every event

    /** The object takes exactly the steps of the state machine, and so keeps its invariant. */
    method Handle(e: B.Event, o: B.Orders)
      requires Valid() && !net.stuck && B.Traverses(State(), o) && (e.Connecting? ==> e.ch !in net.heap)
      modifies this, index.exact, index.wild, index.Objects(), trash, net, net.objects
      ensures Valid() && State() == B.Step(old(State()), e, o)
      ensures old(BrokerInvariant.Inv(State()) && B.Possible(State(), e)) ==> BrokerInvariant.Inv(State())
    {
      TraversesVisits(State(), o);
      StepKeepsInv(State(), e, o);
      match e
      case Connecting(ch, l) => HandleConnect(ch, l, o);
      case Subscribing(ch, id, items) => var ok := HandleSubscribe(ch, id, items, o);
      case Unsubscribing(ch, id, names) => var ok := HandleUnsubscribe(ch, id, names);
      case Publishing(ch, p) => var ok := HandlePublish(ch, p, o);
      case Disconnecting(ch) => var ok := HandleDisconnect(ch, o);
      case Losing(ch) => HandleChannelDisconnected(ch, o);
      case _ => var ok := HandleAck(e);
    }
  }

  lemma StepKeepsInv(s: B.Server, e: B.Event, o: B.Orders)
    requires B.Traverses(s, o)
    ensures BrokerInvariant.Inv(s) && B.Possible(s, e) ==> BrokerInvariant.Inv(B.Step(s, e, o))
  {
    if BrokerInvariant.Inv(s) && B.Possible(s, e) { BrokerInvariant.StepInv(s, e, o); }
  }

  /** The traversal visits what a PUBLISH can reach. */
  ghost predicate Visits(s: B.Server, o: B.Orders) {
    Reaches(s.tables, o) && forall id :: id in s.trash.entries ==> id in o.ids
  }

  function WithTrash(s: B.Server, trash: B.Topic): B.Server {
    s.(trash := trash)
  }

  /** The server with the tables, and the session with the subscriptions, that a SUBSCRIBE has reached. */
  function WithProgress(s: B.Server, ref: B.Channel, a: B.Progress): B.Server
    requires ref in s.core.heap
  {
    s.(tables := a.tables, trash := a.trash, core := B.Touch(s.core, ref, WithSubs(s.core.heap[ref], a.subs)))
  }

  function AddedSub(core: B.Core, ref: B.Channel, item: Item): B.Core
    requires ref in core.heap
  {
    B.Touch(core, ref, WithSubs(core.heap[ref], core.heap[ref].subs[item.filter := Sub(item.qos, item.wild)]))
  }

  lemma NoProgress(s: B.Server, ref: B.Channel, a: B.Progress)
    requires ref in s.core.heap && a.tables == s.tables && a.trash == s.trash && a.subs == s.core.heap[ref].subs
    ensures WithProgress(s, ref, a) == s
  {
    assert s.core.heap[ref := s.core.heap[ref]] == s.core.heap;
  }

  /** The state machine's step for one filter, as the three things the method may do. */
  lemma SubscribeOneIs(s: B.Server, a: B.Progress, c: B.Client, item: Item)
    requires c.session in s.core.heap
    ensures var now, next := WithProgress(s, c.session, a), WithProgress(s, c.session, B.SubscribeOne(a, c, item));
      if BrokerIndex.Accepted(item) then
        next == WithTables(now, B.Attach(now.tables, c, item.filter, item.qos, item.wild),
          AddedSub(now.core, c.session, item))
      else if item.qos < QOS_INVALID && c.admin && item.filter == B.TRASH then
        next == WithTrash(now, B.Enter(now.trash, c, 2))
      else next == now
  {
    if BrokerIndex.Accepted(item) {
      var ses, b := s.core.heap[c.session], B.SubscribeOne(a, c, item);
      SetTwice(s.core.heap, c.session, WithSubs(ses, a.subs), WithSubs(ses, b.subs));
    }
  }

  lemma SubscribeOneAnswers(a: B.Progress, c: B.Client, item: Item)
    ensures var b := B.SubscribeOne(a, c, item);
      && b.codes == a.codes + [BrokerAnswers.Answer(c, item)]
      && b.plain == (if BrokerIndex.Accepted(item) && !item.wild then a.plain + [item.filter] else a.plain)
      && b.wilds == (if BrokerIndex.Accepted(item) && item.wild then a.wilds + [item.filter] else a.wilds)
  {
  }

  lemma {:induction false} SubscribedHolds(a: B.Progress, c: B.Client, items: seq<Item>)
    requires Holds(a.tables.exact, c, a.plain) && Holds(a.tables.wild, c, a.wilds)
    ensures var b := B.SubscribeItems(a, c, items);
      Holds(b.tables.exact, c, b.plain) && Holds(b.tables.wild, c, b.wilds)
    decreases items
  {
    if items != [] {
      SubscribeOneHolds(a, c, items[0]);
      SubscribedHolds(B.SubscribeOne(a, c, items[0]), c, items[1..]);
    }
  }

  lemma SubscribeOneHolds(a: B.Progress, c: B.Client, item: Item)
    requires Holds(a.tables.exact, c, a.plain) && Holds(a.tables.wild, c, a.wilds)
    ensures var b := B.SubscribeOne(a, c, item); Holds(b.tables.exact, c, b.plain) && Holds(b.tables.wild, c, b.wilds)
  {
  }

  function DeletedSub(core: B.Core, ref: B.Channel, f: Str): B.Core
    requires ref in core.heap
  {
    B.Touch(core, ref, WithSubs(core.heap[ref], core.heap[ref].subs - {f}))
  }

  /** The server with the tables, and the session with the subscriptions, that an UNSUBSCRIBE has reached. */
  function WithRemoval(s: B.Server, ref: B.Channel, a: B.Removal): B.Server
    requires ref in s.core.heap
  {
    s.(tables := a.tables, core := B.Touch(s.core, ref, WithSubs(s.core.heap[ref], a.subs)))
  }

  lemma NoRemoval(s: B.Server, ref: B.Channel, a: B.Removal)
    requires ref in s.core.heap && a.tables == s.tables && a.subs == s.core.heap[ref].subs
    ensures WithRemoval(s, ref, a) == s
  {
    assert s.core.heap[ref := s.core.heap[ref]] == s.core.heap;
  }

  lemma UnsubscribeOneIs(s: B.Server, a: B.Removal, c: B.Client, n: Named)
    requires c.session in s.core.heap
    ensures var now, next := WithRemoval(s, c.session, a), WithRemoval(s, c.session, B.UnsubscribeOne(a, c.id, n));
      if n.filter in B.Table(now.tables, n.wild) then
        next == WithTables(now, B.Detach(now.tables, c.id, n.filter, n.wild), DeletedSub(now.core, c.session, n.filter))
      else next == now && B.Detach(now.tables, c.id, n.filter, n.wild) == now.tables
  {
    SetTwice(s.core.heap, c.session, WithSubs(s.core.heap[c.session], a.subs),
      WithSubs(s.core.heap[c.session], B.UnsubscribeOne(a, c.id, n).subs));
  }

  function WithSession(s: B.Server, id: B.ClientId, ref: B.Channel, core: B.Core): B.Server {
    s.(sessions := s.sessions[id := ref], core := core)
  }

  function Registered(s: B.Server, c: B.Client): B.Server {
    s.(clients := if c.id in s.clients then s.clients else s.clients[c.id := c], params := s.params[c.channel := c])
  }

  lemma AdmitInSteps(s: B.Server, ch: B.Channel, l: B.Login)
    requires forall id :: id in s.sessions ==> s.sessions[id] in s.core.heap
    ensures var present := !l.clean && l.id in s.sessions;
      var ref := if present then s.sessions[l.id] else ch;
      var s1 := Registered(WithSession(s, l.id, ref, if present then s.core else B.Touch(s.core, ch, NewSession)),
                           B.Client(ch, l.id, l.admin, l.clean, l.will, ref));
      present == B.Restores(s, l)
        && B.Admit(s, ch, l) == WithCore(s1, B.Wrote(s1.core, B.Write(ch, B.Connack(present, 0))))
  {
  }

  /** After the subscriptions of a session were entered again, the client stands in each of their topics. */
  lemma RestoredHolds(t: B.Tables, c: B.Client, subs: map<Str, Sub>, order: seq<Str>)
    ensures var t' := B.AttachAll(t, c, subs, order);
      Holds(t'.exact, c, B.FiltersIn(subs, order, false)) && Holds(t'.wild, c, B.FiltersIn(subs, order, true))
  {
    RestoredHoldsIn(t, c, subs, order, false);
    RestoredHoldsIn(t, c, subs, order, true);
  }

  lemma RestoredHoldsIn(t: B.Tables, c: B.Client, subs: map<Str, Sub>, order: seq<Str>, w: bool)
    ensures Holds(B.Table(B.AttachAll(t, c, subs, order), w), c, B.FiltersIn(subs, order, w))
  {
    var names := B.FiltersIn(subs, order, w);
    FiltersAreSubs(subs, order, w);
    forall i | 0 <= i < |names|
      ensures names[i] in B.Table(B.AttachAll(t, c, subs, order), w)
        && c.id in B.Table(B.AttachAll(t, c, subs, order), w)[names[i]].entries
    {
      BrokerIndex.AttachAllHas(t, c, subs, order, w, names[i], c.id);
    }
  }

  lemma {:induction false} FiltersAreSubs(subs: map<Str, Sub>, order: seq<Str>, w: bool)
    ensures forall i :: 0 <= i < |B.FiltersIn(subs, order, w)| ==>
      var f := B.FiltersIn(subs, order, w)[i]; f in order && f in subs && subs[f].wild == w
  {
    if order != [] {
      FiltersAreSubs(subs, order[1..], w);
      assert forall f :: f in order[1..] ==> f in order;
    }
  }

  function Forgotten(s: B.Server, c: B.Client): B.Server {
    s.(params := s.params - {c.channel}, clients := s.clients - {c.id},
      sessions := if c.clean then s.sessions - {c.id} else s.sessions)
  }

  function WithCore(s: B.Server, core: B.Core): B.Server {
    s.(core := core)
  }

  function WithTables(s: B.Server, t: B.Tables, core: B.Core): B.Server {
    s.(tables := t, core := core)
  }

  lemma TraversesVisits(s: B.Server, o: B.Orders)
    requires B.Traverses(s, o)
    ensures Visits(s, o)
  {
  }
}
