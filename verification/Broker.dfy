/**
  The broker as a state machine on values: connections, sessions, the two topic tables and the
  packets written. One handler call is one step. A client object is identified by its channel,
  a session object by the channel whose CONNECT allocated it.
 */
module Broker {
  import opened Basics
  import opened FixedHeader
  import opened TopicFilter
  import opened Packets
  import opened Sessions

  type Channel = nat
  type ClientId = Str

  datatype Client = Client(channel: Channel, id: ClientId, admin: bool, clean: bool, will: Option<Will>,
      session: Channel)

  /** A topic's `_clients` maps a client, compared by id, to the QoS granted to it. */
  datatype Entry = Entry(client: Client, qos: byte)
  datatype Topic = Topic(entries: map<ClientId, Entry>, retained: Option<Publish>)

  const NewTopic := Topic(map[], None)

  /** `_topics` and `_wild_topics`. */
  datatype Tables = Tables(exact: map<Str, Topic>, wild: map<Str, Topic>)

  datatype Wire =
    | Connack(present: bool, code: byte)
    | Forward(publish: Publish)
    | Puback(packetId: uint16) | Pubrec(packetId: uint16) | Pubrel(packetId: uint16) | Pubcomp(packetId: uint16)
    | SubackPacket(packetId: uint16, codes: Str)
    | Unsuback(packetId: uint16)

  datatype Write = Write(channel: Channel, packet: Wire)

  /** Session objects, the writes so far, and whether a handler is caught in the loop of `new_packet_id`
      because a session has every identifier in flight. Nothing is claimed after that. */
  datatype Core = Core(heap: map<Channel, SessionState>, log: seq<Write>, stuck: bool)

  /** `params` is `ctx->param()` of the channels. `seen` only records history: the channels that
      sent CONNECT. */
  datatype Server = Server(
    clients: map<ClientId, Client>,
    sessions: map<ClientId, Channel>,
    params: map<Channel, Client>,
    tables: Tables,
    trash: Topic,
    core: Core,
    seen: set<Channel>)

  const Start := Server(map[], map[], map[], Tables(map[], map[]), NewTopic, Core(map[], [], false), {})

  /** `code` is the return code of the integrity and authentication checks, at most 5; `generated` the
      unique id the server makes up for an empty one. */
  datatype Login = Login(id: ClientId, clean: bool, will: Option<Will>, admin: bool, code: byte, generated: ClientId)

  datatype Event =
    | Connecting(ch: Channel, login: Login)
    | Subscribing(ch: Channel, packetId: uint16, items: seq<Item>)
    | Unsubscribing(ch: Channel, packetId: uint16, names: seq<Named>)
    | Publishing(ch: Channel, publish: Publish)
    | Acked(ch: Channel, packetId: uint16)
    | GotPubrec(ch: Channel, packetId: uint16)
    | Released(ch: Channel, packetId: uint16)
    | Completed(ch: Channel, packetId: uint16)
    | Disconnecting(ch: Channel)
    | Losing(ch: Channel)

  /** The order in which the containers are traversed during one step. The source leaves it open for the
      unordered maps; every statement here is for all orders. */
  datatype Orders = Orders(filters: seq<Str>, ids: seq<ClientId>, subs: seq<Str>)

  // ---------------------------------------------------------------- sending

  datatype Delivery = Delivery(client: Client, qos: byte, retain: bool, packet: Publish)

  /** The packet `mqtt_client::publish` allocates for a delivery. */
  function Copy(d: Delivery, id: uint16): Publish {
    var qos := Min(d.packet.qos, d.qos);
    Publish(FlagBits(false, qos % 4, d.retain), false, qos, d.retain, d.packet.topic,
            if qos == 1 || qos == 2 then id else 0, d.packet.payload)
  }

  /** `mqtt_client::publish`: allocate, record by QoS, write. */
  function Deliver(core: Core, d: Delivery): Core {
    if core.stuck || d.client.session !in core.heap then core
    else
      var s := core.heap[d.client.session];
      var r := NewId(s);
      if !r.found then core.(stuck := true)
      else
        var p := Copy(d, r.id);
        Core(core.heap[d.client.session := Recorded(s, p, r.next)], core.log + [Write(d.client.channel, Forward(p))],
          false)
  }

  function DeliverAll(core: Core, ds: seq<Delivery>): Core
    decreases ds
  {
    if ds == [] then core else DeliverAll(Deliver(core, ds[0]), ds[1..])
  }

  function Wrote(core: Core, w: Write): Core {
    core.(log := core.log + [w])
  }

  /** The session object ref, made or updated. */
  function Touch(core: Core, ref: Channel, s: SessionState): Core {
    core.(heap := core.heap[ref := s])
  }

  /** The subscriptions a session object holds. */
  function SubsOf(core: Core, ref: Channel): map<Str, Sub> {
    if ref in core.heap then core.heap[ref].subs else map[]
  }

  // ---------------------------------------------------------------- topics

  function Table(t: Tables, wild: bool): map<Str, Topic> {
    if wild then t.wild else t.exact
  }

  function WithTable(t: Tables, wild: bool, m: map<Str, Topic>): Tables {
    if wild then t.(wild := m) else t.(exact := m)
  }

  function TopicOr(m: map<Str, Topic>, f: Str): Topic {
    if f in m then m[f] else NewTopic
  }

  function Enter(topic: Topic, c: Client, qos: byte): Topic {
    topic.(entries := topic.entries[c.id := Entry(c, qos)])
  }

  function Leave(topic: Topic, id: ClientId): Topic {
    topic.(entries := topic.entries - {id})
  }

  predicate Empty(topic: Topic) {
    topic.retained.None? && topic.entries == map[]
  }

  /** `get_topic_ptr_to_subscribe` and `topic::subscribe`. */
  function Attach(t: Tables, c: Client, f: Str, qos: byte, wild: bool): Tables {
    var m := Table(t, wild);
    WithTable(t, wild, m[f := Enter(TopicOr(m, f), c, qos)])
  }

  /** `topic::unsubscribe`, and erasing the topic when that leaves it empty. */
  function Detach(t: Tables, id: ClientId, f: Str, wild: bool): Tables {
    var m := Table(t, wild);
    if f !in m then t
    else if Empty(Leave(m[f], id)) then WithTable(t, wild, m - {f})
    else WithTable(t, wild, m[f := Leave(m[f], id)])
  }

  /** Restoring the subscriptions of a session. */
  function AttachAll(t: Tables, c: Client, subs: map<Str, Sub>, order: seq<Str>): Tables
    decreases order
  {
    if order == [] then t
    else
      var f := order[0];
      AttachAll(if f in subs then Attach(t, c, f, subs[f].qos, subs[f].wild) else t, c, subs, order[1..])
  }

  /** `unsubscribe_all`. */
  function DetachAll(t: Tables, id: ClientId, subs: map<Str, Sub>, order: seq<Str>): Tables
    decreases order
  {
    if order == [] then t
    else
      var f := order[0];
      DetachAll(if f in subs then Detach(t, id, f, subs[f].wild) else t, id, subs, order[1..])
  }

  // ---------------------------------------------------------------- publishing

  /** `topic::retained_message`: an empty payload clears it. */
  function Keep(topic: Topic, p: Publish): Topic {
    if !p.retain then topic else topic.(retained := if p.payload == [] then None else Some(p))
  }

  function TopicDeliveries(topic: Topic, ids: seq<ClientId>, p: Publish): seq<Delivery> {
    if ids == [] then []
    else
      var rest := TopicDeliveries(topic, ids[1..], p);
      if ids[0] in topic.entries
        then [Delivery(topic.entries[ids[0]].client, topic.entries[ids[0]].qos, false, p)] + rest
      else rest
  }

  function WildDeliveries(wild: map<Str, Topic>, filters: seq<Str>, ids: seq<ClientId>, p: Publish): seq<Delivery> {
    if filters == [] then []
    else
      var rest := WildDeliveries(wild, filters[1..], ids, p);
      if filters[0] in wild && Scan(filters[0], p.topic) then TopicDeliveries(wild[filters[0]], ids, p) + rest
      else rest
  }

  /** Exact lookup, then the scan of the wildcard table. */
  function FanOut(t: Tables, p: Publish, o: Orders): seq<Delivery> {
    TopicDeliveries(TopicOr(t.exact, p.topic), o.ids, p) + WildDeliveries(t.wild, o.filters, o.ids, p)
  }

  function KeepExact(m: map<Str, Topic>, p: Publish): map<Str, Topic> {
    if p.topic in m then m[p.topic := Keep(m[p.topic], p)] else m
  }

  function KeepMatching(m: map<Str, Topic>, p: Publish): map<Str, Topic> {
    map f | f in m :: if Scan(f, p.topic) then Keep(m[f], p) else m[f]
  }

  /** `sent`: what the last topic published to reported. */
  function Sent(wild: map<Str, Topic>, filters: seq<Str>, p: Publish, sent: bool): bool {
    if filters == [] then sent
    else Sent(wild, filters[1..], p, if filters[0] in wild && Scan(filters[0], p.topic)
      then wild[filters[0]].entries != map[] else sent)
  }

  /** "$sys/trash" */
  const TRASH: Str := [0x24, 0x73, 0x79, 0x73, 0x2F, 0x74, 0x72, 0x61, 0x73, 0x68]

  function TrashNote(p: Publish): Publish {
    Publish(FlagBits(false, 1, false), false, 1, false, TRASH, 0xFFFF, p.topic)
  }

  function Acknowledge(core: Core, c: Client, p: Publish): Core {
    if p.qos == 1 then Wrote(core, Write(c.channel, Puback(p.packetId)))
    else if p.qos == 2 && c.session in core.heap then
      var s := core.heap[c.session];
      Wrote(Touch(core, c.session, s.(pubrel := s.pubrel + [p.packetId])), Write(c.channel, Pubrec(p.packetId)))
    else core
  }

  function KeepAll(t: Tables, p: Publish): Tables {
    Tables(KeepExact(t.exact, p), KeepMatching(t.wild, p))
  }

  /** The copies of p, and the notification when the last topic it was published to had no client. */
  function PublishCore(core: Core, t: Tables, trash: Topic, p: Publish, o: Orders): Core {
    var core1 := DeliverAll(core, FanOut(t, p, o));
    if Sent(t.wild, o.filters, p, TopicOr(t.exact, p.topic).entries != map[]) then core1
    else DeliverAll(core1, TopicDeliveries(trash, o.ids, TrashNote(p)))
  }

  function HandlePublish(s: Server, ch: Channel, p: Publish, o: Orders): Server {
    if ch !in s.params then s
    else
      s.(tables := KeepAll(s.tables, p),
         core := PublishCore(Acknowledge(s.core, s.params[ch], p), s.tables, s.trash, p, o))
  }

  // ---------------------------------------------------------------- retained messages

  function RetainedExact(t: Tables, c: Client, names: seq<Str>): seq<Delivery> {
    if names == [] then []
    else
      var topic := TopicOr(t.exact, names[0]);
      var rest := RetainedExact(t, c, names[1..]);
      if topic.retained.Some? && c.id in topic.entries
        then [Delivery(c, topic.entries[c.id].qos, true, topic.retained.value)] + rest
      else rest
  }

  /** The retained messages a wildcard filter matches, in the order of `filters`. */
  function RetainedMatching(exact: map<Str, Topic>, c: Client, w: Str, qos: byte, filters: seq<Str>): seq<Delivery> {
    if filters == [] then []
    else
      var topic := TopicOr(exact, filters[0]);
      var rest := RetainedMatching(exact, c, w, qos, filters[1..]);
      if topic.retained.Some? && Scan(w, filters[0]) then [Delivery(c, qos, true, topic.retained.value)] + rest
      else rest
  }

  function RetainedWild(t: Tables, c: Client, names: seq<Str>, filters: seq<Str>): seq<Delivery> {
    if names == [] then []
    else
      var topic := TopicOr(t.wild, names[0]);
      var rest := RetainedWild(t, c, names[1..], filters);
      if c.id in topic.entries then RetainedMatching(t.exact, c, names[0], topic.entries[c.id].qos, filters) + rest
      else rest
  }

  /** `publish_retained_message`. */
  function Retained(t: Tables, c: Client, plain: seq<Str>, wilds: seq<Str>, o: Orders): seq<Delivery> {
    RetainedExact(t, c, plain) + RetainedWild(t, c, wilds, o.filters)
  }

  // ---------------------------------------------------------------- CONNECT

  function FiltersIn(subs: map<Str, Sub>, order: seq<Str>, wild: bool): seq<Str> {
    if order == [] then []
    else
      var rest := FiltersIn(subs, order[1..], wild);
      if order[0] in subs && subs[order[0]].wild == wild then [order[0]] + rest else rest
  }

  function Publishes(ch: Channel, ps: seq<Publish>): seq<Write> {
    seq(|ps|, i requires 0 <= i < |ps| => Write(ch, Forward(ps[i])))
  }

  function Pubrels(ch: Channel, ids: seq<uint16>): seq<Write> {
    seq(|ids|, i requires 0 <= i < |ids| => Write(ch, Pubrel(ids[i])))
  }

  /** What is pending in a session, rewritten in list order. */
  function Replay(ch: Channel, s: SessionState): seq<Write> {
    Publishes(ch, Replayed(s).forAck) + Publishes(ch, Replayed(s).forRec) + Pubrels(ch, s.pubcomp)
  }

  /** Taking the old connection of the id off the tables: its registration and its channel's param. */
  function Evict(s: Server, id: ClientId): Server {
    if id !in s.clients then s else s.(clients := s.clients - {id}, params := s.params - {s.clients[id].channel})
  }

  predicate Restores(s: Server, l: Login) {
    !l.clean && l.id in s.sessions && s.sessions[l.id] in s.core.heap
  }

  /** Finding or allocating the session, and registering the client. `insert` keeps an existing entry. */
  function Admit(s: Server, ch: Channel, l: Login): Server {
    var present := Restores(s, l);
    var ref := if present then s.sessions[l.id] else ch;
    var c := Client(ch, l.id, l.admin, l.clean, l.will, ref);
    var core := if present then s.core else Touch(s.core, ch, NewSession);
    s.(clients := if l.id in s.clients then s.clients else s.clients[l.id := c],
       sessions := s.sessions[l.id := ref],
       params := s.params[ch := c],
       core := Wrote(core, Write(ch, Connack(present, 0))))
  }

  function ReplayCore(core: Core, c: Client): Core
    requires c.session in core.heap
  {
    var ses := core.heap[c.session];
    Core(core.heap[c.session := Replayed(ses)], core.log + Replay(c.channel, ses), core.stuck)
  }

  function RestoreRetained(t: Tables, c: Client, subs: map<Str, Sub>, o: Orders): seq<Delivery> {
    Retained(t, c, FiltersIn(subs, o.subs, false), FiltersIn(subs, o.subs, true), o)
  }

  function Restore(s: Server, c: Client, o: Orders): Server
    requires c.session in s.core.heap
  {
    var subs := s.core.heap[c.session].subs;
    var t := AttachAll(s.tables, c, subs, o.subs);
    s.(tables := t, core := DeliverAll(ReplayCore(s.core, c), RestoreRetained(t, c, subs, o)))
  }

  function HandleConnect(s: Server, ch: Channel, l: Login, o: Orders): Server {
    var s0 := s.(seen := s.seen + {ch});
    if l.code != 0 then s0.(core := Wrote(s0.core, Write(ch, Connack(false, l.code))))
    else
      var s1 := Evict(s0, if l.id == [] then l.generated else l.id);
      var s2 := Admit(s1, ch, l);
      if Restores(s1, l) then Restore(s2, s2.params[ch], o) else s2
  }

  // ---------------------------------------------------------------- SUBSCRIBE, UNSUBSCRIBE

  datatype Progress = Progress(tables: Tables, trash: Topic, subs: map<Str, Sub>, codes: Str, plain: seq<Str>,
      wilds: seq<Str>)

  function SubscribeOne(a: Progress, c: Client, item: Item): Progress {
    if item.qos >= QOS_INVALID then a.(codes := a.codes + [FAILURE])
    else if item.filter != [] && item.filter[0] == DOLLAR then
      if c.admin && item.filter == TRASH then a.(trash := Enter(a.trash, c, 2), codes := a.codes + [item.qos])
      else a.(codes := a.codes + [FAILURE])
    else
      a.(tables := Attach(a.tables, c, item.filter, item.qos, item.wild),
         subs := a.subs[item.filter := Sub(item.qos, item.wild)],
         codes := a.codes + [item.qos],
         plain := if item.wild then a.plain else a.plain + [item.filter],
         wilds := if item.wild then a.wilds + [item.filter] else a.wilds)
  }

  function SubscribeItems(a: Progress, c: Client, items: seq<Item>): Progress
    decreases items
  {
    if items == [] then a else SubscribeItems(SubscribeOne(a, c, items[0]), c, items[1..])
  }

  function Subscribed(s: Server, c: Client, items: seq<Item>): Progress
    requires c.session in s.core.heap
  {
    SubscribeItems(Progress(s.tables, s.trash, s.core.heap[c.session].subs, [], [], []), c, items)
  }

  /** New subscriptions for a session, and the packet that answers. */
  function Resubscribe(core: Core, ref: Channel, subs: map<Str, Sub>, w: Write): Core
    requires ref in core.heap
  {
    Core(core.heap[ref := core.heap[ref].(subs := subs)], core.log + [w], core.stuck)
  }

  function HandleSubscribe(s: Server, ch: Channel, packetId: uint16, items: seq<Item>, o: Orders): Server {
    if ch !in s.params || s.params[ch].session !in s.core.heap then s
    else
      var c := s.params[ch];
      var a := Subscribed(s, c, items);
      var core := Resubscribe(s.core, c.session, a.subs, Write(ch, SubackPacket(packetId, a.codes)));
      s.(tables := a.tables, trash := a.trash, core := DeliverAll(core, Retained(a.tables, c, a.plain, a.wilds, o)))
  }

  datatype Removal = Removal(tables: Tables, subs: map<Str, Sub>)

  function UnsubscribeOne(a: Removal, id: ClientId, n: Named): Removal {
    if n.filter !in Table(a.tables, n.wild) then a
    else Removal(Detach(a.tables, id, n.filter, n.wild), a.subs - {n.filter})
  }

  function UnsubscribeNames(a: Removal, id: ClientId, names: seq<Named>): Removal
    decreases names
  {
    if names == [] then a else UnsubscribeNames(UnsubscribeOne(a, id, names[0]), id, names[1..])
  }

  function HandleUnsubscribe(s: Server, ch: Channel, packetId: uint16, names: seq<Named>): Server {
    if ch !in s.params || s.params[ch].session !in s.core.heap then s
    else
      var c := s.params[ch];
      var a := UnsubscribeNames(Removal(s.tables, s.core.heap[c.session].subs), c.id, names);
      s.(tables := a.tables, core := Resubscribe(s.core, c.session, a.subs, Write(ch, Unsuback(packetId))))
  }

  // ---------------------------------------------------------------- acknowledgements

  predicate IsAck(e: Event) {
    e.Acked? || e.GotPubrec? || e.Released? || e.Completed?
  }

  function AckSession(ses: SessionState, e: Event): SessionState
    requires IsAck(e)
  {
    match e
    case Acked(_, id) => ReleaseAck(ses, id)
    case GotPubrec(_, id) => Received(ses, id)
    case Released(_, id) => ReleaseRel(ses, id)
    case Completed(_, id) => ReleaseComp(ses, id)
  }

  function AckReply(e: Event): seq<Write>
    requires IsAck(e)
  {
    match e
    case Acked(_, _) => []
    case GotPubrec(ch, id) => [Write(ch, Pubrel(id))]
    case Released(ch, id) => [Write(ch, Pubcomp(id))]
    case Completed(_, _) => []
  }

  function HandleAck(s: Server, e: Event): Server
    requires IsAck(e)
  {
    if e.ch !in s.params || s.params[e.ch].session !in s.core.heap then s
    else
      var ref := s.params[e.ch].session;
      s.(core := Core(s.core.heap[ref := AckSession(s.core.heap[ref], e)], s.core.log + AckReply(e), s.core.stuck))
  }

  // ---------------------------------------------------------------- leaving

  /** What DISCONNECT and the loss of a channel have in common. */
  function Remove(s: Server, c: Client, o: Orders): Server {
    s.(params := s.params - {c.channel},
       tables := DetachAll(s.tables, c.id, SubsOf(s.core, c.session), o.subs),
       sessions := if c.clean then s.sessions - {c.id} else s.sessions,
       clients := s.clients - {c.id})
  }

  function WillPacket(w: Will, id: uint16): Publish {
    Publish(FlagBits(false, w.qos % 4, w.retain), false, w.qos, w.retain, w.topic,
            if w.qos == 1 || w.qos == 2 then id else 0, w.message)
  }

  /** `publish_will_message`: only to a topic someone holds in the exact table. */
  function PublishWill(s: Server, c: Client, o: Orders): Server {
    if c.will.None? || c.will.value.topic !in s.tables.exact || c.session !in s.core.heap then s
    else
      var r := NewId(s.core.heap[c.session]);
      if !r.found then s.(core := s.core.(stuck := true))
      else
        var p := WillPacket(c.will.value, r.id);
        s.(tables := s.tables.(exact := KeepExact(s.tables.exact, p)),
           core := DeliverAll(MoveCursor(s.core, c.session, r.next),
             TopicDeliveries(s.tables.exact[p.topic], o.ids, p)))
  }

  function MoveCursor(core: Core, ref: Channel, next: uint16): Core
    requires ref in core.heap
  {
    core.(heap := core.heap[ref := core.heap[ref].(next := next)])
  }

  function HandleDisconnect(s: Server, ch: Channel, o: Orders): Server {
    if ch !in s.params then s else Remove(s, s.params[ch], o)
  }

  function HandleLost(s: Server, ch: Channel, o: Orders): Server {
    if ch !in s.params then s else Remove(PublishWill(s, s.params[ch], o), s.params[ch], o)
  }

  // ---------------------------------------------------------------- steps and runs

  function Step(s: Server, e: Event, o: Orders): Server {
    if s.core.stuck then s
    else match e
      case Connecting(ch, l) => HandleConnect(s, ch, l, o)
      case Subscribing(ch, id, items) => HandleSubscribe(s, ch, id, items, o)
      case Unsubscribing(ch, id, names) => HandleUnsubscribe(s, ch, id, names)
      case Publishing(ch, p) => HandlePublish(s, ch, p, o)
      case Disconnecting(ch) => HandleDisconnect(s, ch, o)
      case Losing(ch) => HandleLost(s, ch, o)
      case _ => HandleAck(s, e)
  }

  /** A topic the broker can be asked to forward, or its own. */
  predicate Speakable(topic: Str) {
    topic == TRASH || (PublishableTopic(topic) && Readable(topic))
  }

  /** The size a PUBLISH may have to be built and serialized without an exception, and its topic. */
  predicate Fits(p: Publish) {
    p.qos <= 2 && |p.topic| < 0x1_0000 && PublishLength(p) <= 2_097_151 && Speakable(p.topic)
  }

  /** A PUBLISH the broker sends: its flags say DUP = 0, whatever its `dup` field says. */
  predicate Outgoing(p: Publish) {
    Fits(p) && p.flags == FlagBits(false, p.qos, p.retain) && (p.qos == 0 ==> p.packetId == 0)
  }

  predicate Decoded(i: Item) {
    i.filter != []
      && if Valid(i.filter) then i.qos < QOS_INVALID && i.wild == HasWildcard(i.filter) else i.qos == FAILURE && !i.wild
  }

  predicate WillFits(w: Will) {
    w.qos <= 2 && |w.topic| < 0x1_0000 && |w.message| < 0x1_0000 && Readable(w.topic)
  }

  /** The events that can happen: packets as the decoder yields them, one CONNECT per channel, with an id. */
  predicate Possible(s: Server, e: Event) {
    match e
    case Connecting(ch, l) => ch !in s.seen && l.id != [] && (l.will.Some? ==> WillFits(l.will.value)) && l.code <= 5
    case Subscribing(ch, id, items) => |items| <= 2_097_149 && forall i :: 0 <= i < |items| ==> Decoded(items[i])
    case Unsubscribing(ch, id, names) => forall i :: 0 <= i < |names| ==> names[i].wild == HasWildcard(names[i].filter)
    case Publishing(ch, p) => Fits(p) && PublishableTopic(p.topic)
    case _ => true
  }

  /** An order visits each element once, and every key the step may meet. */
  ghost predicate Traverses(s: Server, o: Orders) {
    && NoDup(o.filters) && NoDup(o.ids) && NoDup(o.subs)
    && (forall f :: f in s.tables.exact || f in s.tables.wild ==> f in o.filters)
    && (forall r, f :: r in s.core.heap && f in s.core.heap[r].subs ==> f in o.subs)
    && (forall f, id :: f in s.tables.exact && id in s.tables.exact[f].entries ==> id in o.ids)
    && (forall f, id :: f in s.tables.wild && id in s.tables.wild[f].entries ==> id in o.ids)
    && (forall id :: id in s.trash.entries ==> id in o.ids)
  }

  function Run(s: Server, es: seq<(Event, Orders)>): Server
    decreases es
  {
    if es == [] then s else Run(Step(s, es[0].0, es[0].1), es[1..])
  }

  ghost predicate PossibleRun(s: Server, es: seq<(Event, Orders)>)
    decreases es
  {
    es != [] ==> Possible(s, es[0].0) && Traverses(s, es[0].1) && PossibleRun(Step(s, es[0].0, es[0].1), es[1..])
  }
}
