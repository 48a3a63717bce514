/**
  What reaches whom: the fan-out of a PUBLISH, the notes about messages that reach nobody, the will of a
  client that is lost, and retained messages.
 */
module BrokerDelivery {
  import opened Basics
  import opened TopicFilter
  import opened Packets
  import opened Sessions
  import opened Broker
  import opened BrokerCore
  import opened BrokerEnds
  import opened BrokerIndex
  import opened BrokerInvariant
  import opened BrokerAgreement

  // ---------------------------------------------------------------- fan-out against a naive scan

  /** One (filter, client) entry of one of the two tables. */
  datatype Target = Target(wild: bool, filter: Str, id: ClientId)

  /** The naive scan: every entry of both tables whose filter matches the name. */
  predicate Hit(t: Tables, name: Str, x: Target) {
    Has(t, x.wild, x.filter, x.id).Some? && Scan(x.filter, name)
  }

  function DeliveryOf(t: Tables, x: Target, p: Publish): Delivery
    requires Has(t, x.wild, x.filter, x.id).Some?
  {
    var e := Has(t, x.wild, x.filter, x.id).value;
    Delivery(e.client, e.qos, false, p)
  }

  function TopicTargets(topic: Topic, w: bool, f: Str, ids: seq<ClientId>): seq<Target> {
    if ids == [] then []
    else if ids[0] in topic.entries then [Target(w, f, ids[0])] + TopicTargets(topic, w, f, ids[1..])
    else TopicTargets(topic, w, f, ids[1..])
  }

  function WildTargets(wild: map<Str, Topic>, filters: seq<Str>, ids: seq<ClientId>, name: Str): seq<Target> {
    if filters == [] then []
    else if filters[0] in wild && Scan(filters[0], name)
      then TopicTargets(wild[filters[0]], true, filters[0], ids) + WildTargets(wild, filters[1..], ids, name)
    else WildTargets(wild, filters[1..], ids, name)
  }

  function Targets(t: Tables, name: Str, o: Orders): seq<Target> {
    TopicTargets(TopicOr(t.exact, name), false, name, o.ids) + WildTargets(t.wild, o.filters, o.ids, name)
  }

  lemma {:induction false} TopicTargetsExact(topic: Topic, w: bool, f: Str, ids: seq<ClientId>)
    requires NoDup(ids)
    ensures NoDup(TopicTargets(topic, w, f, ids))
    ensures forall x :: x in TopicTargets(topic, w, f, ids) <==>
      x.wild == w && x.filter == f && x.id in ids && x.id in topic.entries
  {
    if ids != [] {
      var rest := ids[1..];
      assert NoDup(rest) && ids[0] !in rest;
      TopicTargetsExact(topic, w, f, rest);
      assert forall id :: id in ids <==> id == ids[0] || id in rest;
    }
  }

  lemma NoDupAppend<T>(a: seq<T>, b: seq<T>)
    requires NoDup(a) && NoDup(b) && forall x :: x in a ==> x !in b
    ensures NoDup(a + b)
  {
    var s := a + b;
    forall i, j | 0 <= i < j < |s| ensures s[i] != s[j] {
      if i < |a| <= j { assert s[i] in a && s[j] in b; }
    }
  }

  lemma {:induction false} WildTargetsExact(wild: map<Str, Topic>, filters: seq<Str>, ids: seq<ClientId>, name: Str)
    requires NoDup(filters) && NoDup(ids)
    ensures NoDup(WildTargets(wild, filters, ids, name))
    ensures forall x :: x in WildTargets(wild, filters, ids, name) <==>
      x.wild && x.filter in filters && x.filter in wild && x.id in wild[x.filter].entries && x.id in ids
        && Scan(x.filter, name)
  {
    if filters != [] {
      var f, rest := filters[0], filters[1..];
      assert NoDup(rest) && f !in rest;
      WildTargetsExact(wild, rest, ids, name);
      assert forall g :: g in filters <==> g == f || g in rest;
      if f in wild && Scan(f, name) {
        TopicTargetsExact(wild[f], true, f, ids);
        NoDupAppend(TopicTargets(wild[f], true, f, ids), WildTargets(wild, rest, ids, name));
      }
    }
  }

  lemma {:induction false} TopicTargetsDeliver(topic: Topic, w: bool, f: Str, ids: seq<ClientId>, p: Publish)
    ensures |TopicDeliveries(topic, ids, p)| == |TopicTargets(topic, w, f, ids)|
    ensures forall i :: 0 <= i < |TopicTargets(topic, w, f, ids)| ==>
      var x := TopicTargets(topic, w, f, ids)[i];
      x.wild == w && x.filter == f && x.id in topic.entries &&
      TopicDeliveries(topic, ids, p)[i] == Delivery(topic.entries[x.id].client, topic.entries[x.id].qos, false, p)
  {
    if ids != [] { TopicTargetsDeliver(topic, w, f, ids[1..], p); }
  }

  /** Deliveries and targets, position by position. */
  ghost predicate Aligned(t: Tables, p: Publish, ds: seq<Delivery>, xs: seq<Target>) {
    |ds| == |xs|
      && forall i :: 0 <= i < |xs| ==>
      Has(t, xs[i].wild, xs[i].filter, xs[i].id).Some? && ds[i] == DeliveryOf(t, xs[i], p)
  }

  lemma AlignedAppend(t: Tables, p: Publish, d1: seq<Delivery>, x1: seq<Target>, d2: seq<Delivery>, x2: seq<Target>)
    requires Aligned(t, p, d1, x1) && Aligned(t, p, d2, x2)
    ensures Aligned(t, p, d1 + d2, x1 + x2)
  {
  }

  lemma {:induction false} WildTargetsDeliver(t: Tables, filters: seq<Str>, ids: seq<ClientId>, p: Publish)
    ensures Aligned(t, p, WildDeliveries(t.wild, filters, ids, p), WildTargets(t.wild, filters, ids, p.topic))
  {
    if filters != [] {
      var f := filters[0];
      WildTargetsDeliver(t, filters[1..], ids, p);
      if f in t.wild && Scan(f, p.topic) {
        TopicTargetsDeliver(t.wild[f], true, f, ids, p);
        AlignedAppend(t, p, TopicDeliveries(t.wild[f], ids, p), TopicTargets(t.wild[f], true, f, ids),
                      WildDeliveries(t.wild, filters[1..], ids, p), WildTargets(t.wild, filters[1..], ids, p.topic));
      }
    }
  }

  lemma TargetsDeliver(t: Tables, p: Publish, o: Orders)
    ensures Aligned(t, p, FanOut(t, p, o), Targets(t, p.topic, o))
  {
    TopicTargetsDeliver(TopicOr(t.exact, p.topic), false, p.topic, o.ids, p);
    WildTargetsDeliver(t, o.filters, o.ids, p);
    AlignedAppend(t, p, TopicDeliveries(TopicOr(t.exact, p.topic), o.ids, p),
      TopicTargets(TopicOr(t.exact, p.topic), false, p.topic, o.ids),
                  WildDeliveries(t.wild, o.filters, o.ids, p), WildTargets(t.wild, o.filters, o.ids, p.topic));
  }

  /** Exact lookup plus the wildcard scan visit each entry the naive scan would hit, once, and no other. */
  lemma TargetsAreHits(s: Server, name: Str, o: Orders)
    requires TablesOk(s.tables, s.core.heap.Keys) && Traverses(s, o)
    ensures NoDup(Targets(s.tables, name, o))
    ensures forall x :: x in Targets(s.tables, name, o) <==> Hit(s.tables, name, x)
  {
    var t := s.tables;
    var a, b := TopicTargets(TopicOr(t.exact, name), false, name, o.ids), WildTargets(t.wild, o.filters, o.ids, name);
    TopicTargetsExact(TopicOr(t.exact, name), false, name, o.ids);
    WildTargetsExact(t.wild, o.filters, o.ids, name);
    NoDupAppend(a, b);
    forall x ensures x in a + b <==> Hit(t, name, x) {
      if !x.wild && Has(t, false, x.filter, x.id).Some? { LiteralMatch(x.filter, name); }
    }
  }

  /** The copies of a PUBLISH, between its acknowledgement and the notification of $sys/trash. */
  ghost predicate FansOut(s: Server, p: Publish, before: seq<Write>, after: seq<Write>, xs: seq<Target>) {
    && NoDup(xs) && (forall x :: x in xs <==> Hit(s.tables, p.topic, x))
    && before <= after && |after| >= |before| + |xs|
    && (forall i :: 0 <= i < |xs| ==>
      Hit(s.tables, p.topic, xs[i]) && IsCopy(after[|before| + i], DeliveryOf(s.tables, xs[i], p)))
    && (forall j :: |before| + |xs| <= j < |after| ==>
      after[j].packet.Forward? && after[j].packet.publish.topic == TRASH)
  }

  lemma {:induction false} NotesAreTrash(topic: Topic, ids: seq<ClientId>, p: Publish)
    ensures forall i :: 0 <= i < |TopicDeliveries(topic, ids, p)| ==> TopicDeliveries(topic, ids, p)[i].packet == p
  {
    if ids != [] { NotesAreTrash(topic, ids[1..], p); }
  }

  /** What is known of a log after a batch was sent. */
  ghost predicate Batch(before: seq<Write>, log: seq<Write>, ds: seq<Delivery>) {
    before <= log && |log| == |before| + |ds| && forall i :: 0 <= i < |ds| ==> IsCopy(log[|before| + i], ds[i])
  }

  lemma SentBatch(core: Core, ds: seq<Delivery>)
    requires !DeliverAll(core, ds).stuck && Reachable(core, ds)
    ensures Batch(core.log, DeliverAll(core, ds).log, ds)
  {
    DeliverAllWrites(core, ds);
    var log := DeliverAll(core, ds).log;
    forall i | 0 <= i < |ds| ensures IsCopy(log[|core.log| + i], ds[i]) {
      assert log[|core.log|..][i] == log[|core.log| + i];
    }
  }

  /** What is known of a log after two batches were sent. */
  ghost predicate TwoBatches(before: seq<Write>, log: seq<Write>, ds: seq<Delivery>, notes: seq<Delivery>) {
    && before <= log && |log| == |before| + |ds| + |notes|
    && (forall i :: 0 <= i < |ds| ==> IsCopy(log[|before| + i], ds[i]))
    && (forall i :: 0 <= i < |notes| ==> IsCopy(log[|before| + |ds| + i], notes[i]))
  }

  lemma TwoLogs(before: seq<Write>, mid: seq<Write>, log: seq<Write>, ds: seq<Delivery>, notes: seq<Delivery>)
    requires Batch(before, mid, ds) && Batch(mid, log, notes)
    ensures TwoBatches(before, log, ds, notes)
  {
    forall i | 0 <= i < |ds| ensures IsCopy(log[|before| + i], ds[i]) { assert log[|before| + i] == mid[|before| + i]; }
  }

  ghost predicate Reachable(core: Core, ds: seq<Delivery>) {
    forall i :: 0 <= i < |ds| ==> ds[i].client.session in core.heap
  }

  lemma StaysReachable(core: Core, ds: seq<Delivery>, notes: seq<Delivery>)
    requires Reachable(core, notes)
    ensures Reachable(DeliverAll(core, ds), notes)
  {
    DeliverAllGrows(core, ds);
  }

  /** Sending the fan-out and then the notes. */
  lemma SentTwice(core: Core, core1: Core, ds: seq<Delivery>, notes: seq<Delivery>)
    requires core1 == DeliverAll(core, ds) && !DeliverAll(core1, notes).stuck && Reachable(core, ds)
      && Reachable(core, notes)
    ensures TwoBatches(core.log, DeliverAll(core1, notes).log, ds, notes)
  {
    StaysReachable(core, ds, notes);
    if core1.stuck { DeliverAllStuck(core1, notes); }
    SentBatch(core, ds);
    SentMore(core.log, core1, ds, notes);
  }

  lemma SentMore(before: seq<Write>, core1: Core, ds: seq<Delivery>, notes: seq<Delivery>)
    requires Batch(before, core1.log, ds) && !DeliverAll(core1, notes).stuck && Reachable(core1, notes)
    ensures TwoBatches(before, DeliverAll(core1, notes).log, ds, notes)
  {
    SentBatch(core1, notes);
    TwoLogs(before, core1.log, DeliverAll(core1, notes).log, ds, notes);
  }

  lemma FanOutReachable(s: Server, p: Publish, o: Orders, core: Core)
    requires Stored(s) && Fits(p) && core.heap.Keys == s.core.heap.Keys
    ensures Reachable(core, FanOut(s.tables, p, o)) && Reachable(core, Notes(s, p, o))
    ensures forall i :: 0 <= i < |Notes(s, p, o)| ==> Notes(s, p, o)[i].packet == TrashNote(p)
  {
    FanOutSound(s.tables, p, o, s.core.heap.Keys);
    TrashFits(p);
    TopicDeliveriesSound(s.trash, o.ids, TrashNote(p), s.core.heap.Keys);
    NotesAreTrash(s.trash, o.ids, TrashNote(p));
  }

  lemma BatchesFanOut(s: Server, p: Publish, before: seq<Write>, after: seq<Write>, ds: seq<Delivery>,
      notes: seq<Delivery>, xs: seq<Target>)
    requires TwoBatches(before, after, ds, notes) && Aligned(s.tables, p, ds, xs)
    requires NoDup(xs) && forall x :: x in xs <==> Hit(s.tables, p.topic, x)
    requires forall i :: 0 <= i < |notes| ==> notes[i].packet == TrashNote(p)
    ensures FansOut(s, p, before, after, xs)
  {
    HitsOfTargets(s.tables, p.topic, xs);
    forall j | |before| + |xs| <= j < |after| ensures after[j].packet.Forward?
      && after[j].packet.publish.topic == TRASH {
      assert IsCopy(after[|before| + |ds| + (j - |before| - |ds|)], notes[j - |before| - |ds|]);
    }
  }

  /** What the publisher itself is sent. */
  function AnswerTo(ch: Channel, p: Publish): seq<Write> {
    if p.qos == 1 then [Write(ch, Puback(p.packetId))] else if p.qos == 2 then [Write(ch, Pubrec(p.packetId))] else []
  }

  lemma AcknowledgeAnswers(s: Server, ch: Channel, p: Publish)
    requires Connections(s) && ch in s.params
    ensures Acknowledge(s.core, s.params[ch], p).log == s.core.log + AnswerTo(ch, p)
  {
    ClientOf(s, ch);
  }

  /** Main result on publishing: unless a session has no identifier left for its copy, the publisher gets
      its acknowledgement, and then the copies written are exactly those of a naive scan of both tables, one
      for each entry whose filter matches. */
  lemma FanOutIsNaiveScan(s: Server, ch: Channel, p: Publish, o: Orders) returns (xs: seq<Target>)
    requires Inv(s) && Possible(s, Publishing(ch, p)) && Traverses(s, o) && ch in s.params
    requires !s.core.stuck && Ends(s, Publishing(ch, p), o)
    ensures FansOut(s, p, s.core.log + AnswerTo(ch, p), HandlePublish(s, ch, p, o).core.log, xs)
  {
    PublishEnds(s, ch, p, o);
    xs := Targets(s.tables, p.topic, o);
    var core := Acknowledge(s.core, s.params[ch], p);
    AcknowledgeAnswers(s, ch, p);
    AcknowledgeOk(s.core, s.params[ch], p, s.core.heap.Keys);
    FanOutReachable(s, p, o, core);
    SentTwice(core, DeliverAll(core, FanOut(s.tables, p, o)), FanOut(s.tables, p, o), Notes(s, p, o));
    TargetsAreHits(s, p.topic, o);
    TargetsDeliver(s.tables, p, o);
    BatchesFanOut(s, p, core.log, HandlePublish(s, ch, p, o).core.log, FanOut(s.tables, p, o), Notes(s, p, o), xs);
  }

  // ---------------------------------------------------------------- messages that reach nobody

  lemma NobodyHit(s: Server, name: Str)
    requires TablesOk(s.tables, s.core.heap.Keys) && forall x :: !Hit(s.tables, name, x)
    ensures TopicOr(s.tables.exact, name).entries == map[]
    ensures forall f :: f in s.tables.wild && Scan(f, name) ==> s.tables.wild[f].entries == map[]
  {
    if id :| id in TopicOr(s.tables.exact, name).entries {
      LiteralMatch(name, name);
      assert Hit(s.tables, name, Target(false, name, id));
    }
    forall f | f in s.tables.wild && Scan(f, name) ensures s.tables.wild[f].entries == map[] {
      if id :| id in s.tables.wild[f].entries { assert Hit(s.tables, name, Target(true, f, id)); }
    }
  }

  /** One copy of q for each client of a topic, from position |before| on. */
  ghost predicate ToAllOf(topic: Topic, q: Publish, before: seq<Write>, after: seq<Write>, ids: seq<ClientId>) {
    && NoDup(ids) && (forall id :: id in ids <==> id in topic.entries)
    && before <= after && |after| == |before| + |ids|
    && forall i :: 0 <= i < |ids| ==> (ids[i] in topic.entries
         && IsCopy(after[|before| + i], Delivery(topic.entries[ids[i]].client, topic.entries[ids[i]].qos, false, q)))
  }

  function IdsOf(topic: Topic, ids: seq<ClientId>): seq<ClientId> {
    if ids == [] then [] else if ids[0] in topic.entries then [ids[0]] + IdsOf(topic, ids[1..])
      else IdsOf(topic, ids[1..])
  }

  lemma {:induction false} IdsOfExact(topic: Topic, ids: seq<ClientId>, q: Publish)
    requires NoDup(ids)
    ensures NoDup(IdsOf(topic, ids)) && forall id :: id in IdsOf(topic, ids) <==> id in ids && id in topic.entries
    ensures |TopicDeliveries(topic, ids, q)| == |IdsOf(topic, ids)|
    ensures forall i :: 0 <= i < |IdsOf(topic, ids)| ==> (IdsOf(topic, ids)[i] in topic.entries
      && TopicDeliveries(topic, ids, q)[i] == Delivery(topic.entries[IdsOf(topic, ids)[i]].client,
        topic.entries[IdsOf(topic, ids)[i]].qos, false, q))
  {
    if ids != [] {
      assert NoDup(ids[1..]) && ids[0] !in ids[1..];
      IdsOfExact(topic, ids[1..], q);
      assert forall id :: id in ids <==> id == ids[0] || id in ids[1..];
    }
  }

  lemma SentToAll(core: Core, topic: Topic, q: Publish, ids: seq<ClientId>)
    requires NoDup(ids) && (forall id :: id in topic.entries ==> id in ids) && TopicOk(topic, core.heap.Keys) && Fits(q)
    requires !DeliverAll(core, TopicDeliveries(topic, ids, q)).stuck
    ensures ToAllOf(topic, q, core.log, DeliverAll(core, TopicDeliveries(topic, ids, q)).log, IdsOf(topic, ids))
  {
    IdsOfExact(topic, ids, q);
    TopicDeliveriesSound(topic, ids, q, core.heap.Keys);
    SentBatch(core, TopicDeliveries(topic, ids, q));
  }

  lemma FirstIsIn<T>(s: seq<T>)
    ensures s != [] ==> s[0] in s
  {
  }

  /** Position i of a traversal is the last whose filter is in the table and matches. */
  predicate IsLast(wild: map<Str, Topic>, filters: seq<Str>, name: Str, i: nat) {
    && i < |filters| && filters[i] in wild && Scan(filters[i], name)
    && forall j :: i < j < |filters| && filters[j] in wild ==> !Scan(filters[j], name)
  }

  function LastMatch(wild: map<Str, Topic>, filters: seq<Str>, name: Str): (f: Option<Str>)
    ensures f.None? ==> forall i :: 0 <= i < |filters| && filters[i] in wild ==> !Scan(filters[i], name)
    ensures f.Some? ==> exists i :: 0 <= i < |filters| && filters[i] == f.value && IsLast(wild, filters, name, i)
  {
    if filters == [] then None
    else
      var rest := LastMatch(wild, filters[1..], name);
      if rest.Some? then
        LastOfRest(wild, filters, name, rest.value);
        rest
      else if filters[0] in wild && Scan(filters[0], name) then
        assert IsLast(wild, filters, name, 0);
        Some(filters[0])
      else None
  }

  lemma LastOfRest(wild: map<Str, Topic>, filters: seq<Str>, name: Str, f: Str)
    requires filters != []
    requires exists i :: 0 <= i < |filters[1..]| && filters[1..][i] == f && IsLast(wild, filters[1..], name, i)
    ensures exists i :: 0 <= i < |filters| && filters[i] == f && IsLast(wild, filters, name, i)
  {
    var rest := filters[1..];
    var i :| 0 <= i < |rest| && rest[i] == f && IsLast(wild, rest, name, i);
    forall j | i + 1 < j < |filters| && filters[j] in wild ensures !Scan(filters[j], name) {
      assert rest[j - 1] == filters[j];
    }
    assert filters[i + 1] == f && IsLast(wild, filters, name, i + 1);
  }

  /** What decides on a report: the topic object published to last, in the order of the scan, or the one of
      that very name if no filter matches. */
  predicate LastHasClient(t: Tables, filters: seq<Str>, name: Str) {
    match LastMatch(t.wild, filters, name)
    case None => TopicOr(t.exact, name).entries != map[]
    case Some(f) => t.wild[f].entries != map[]
  }

  lemma {:induction false} SentIffLast(wild: map<Str, Topic>, filters: seq<Str>, p: Publish, sent: bool)
    ensures var last := LastMatch(wild, filters, p.topic);
      Sent(wild, filters, p, sent) == if last.Some? then wild[last.value].entries != map[] else sent
    decreases filters
  {
    if filters != [] {
      var sent1 := if filters[0] in wild && Scan(filters[0], p.topic) then wild[filters[0]].entries != map[] else sent;
      SentIffLast(wild, filters[1..], p, sent1);
    }
  }

  /** Exactly when a message is reported, and to whom: after the copies, every subscriber of $sys/trash gets
      one note if the topic object published to last had no client, and otherwise nothing is written. */
  lemma NotesAreExact(s: Server, ch: Channel, p: Publish, o: Orders) returns (copies: seq<Write>)
    requires Inv(s) && Possible(s, Publishing(ch, p)) && Traverses(s, o) && ch in s.params
    requires !s.core.stuck && Ends(s, Publishing(ch, p), o)
    ensures Batch(s.core.log + AnswerTo(ch, p), copies, FanOut(s.tables, p, o))
    ensures var after := HandlePublish(s, ch, p, o).core.log;
      if LastHasClient(s.tables, o.filters, p.topic) then after == copies
      else ToAllOf(s.trash, TrashNote(p), copies, after, IdsOf(s.trash, o.ids))
  {
    var core, ds := Acknowledge(s.core, s.params[ch], p), FanOut(s.tables, p, o);
    PublishEnds(s, ch, p, o);
    AcknowledgeAnswers(s, ch, p);
    AcknowledgeOk(s.core, s.params[ch], p, s.core.heap.Keys);
    FanOutReachable(s, p, o, core);
    copies := DeliverAll(core, ds).log;
    CopiesThenNotes(s, core, ds, p, o);
  }

  lemma CopiesThenNotes(s: Server, core: Core, ds: seq<Delivery>, p: Publish, o: Orders)
    requires TopicOk(s.trash, core.heap.Keys) && Fits(p) && Traverses(s, o) && Reachable(core, ds)
    requires !DeliverAll(DeliverAll(core, ds), Notes(s, p, o)).stuck
    ensures Batch(core.log, DeliverAll(core, ds).log, ds)
    ensures var mid, after := DeliverAll(core, ds).log, DeliverAll(DeliverAll(core, ds), Notes(s, p, o)).log;
      if LastHasClient(s.tables, o.filters, p.topic) then after == mid
      else ToAllOf(s.trash, TrashNote(p), mid, after, IdsOf(s.trash, o.ids))
  {
    var core1 := DeliverAll(core, ds);
    if core1.stuck { DeliverAllStuck(core1, Notes(s, p, o)); }
    SentBatch(core, ds);
    DeliverAllGrows(core, ds);
    NotesAfter(s, core1, p, o);
  }

  lemma NotesAfter(s: Server, core: Core, p: Publish, o: Orders)
    requires TopicOk(s.trash, core.heap.Keys) && Fits(p) && Traverses(s, o)
    requires !DeliverAll(core, Notes(s, p, o)).stuck
    ensures var after := DeliverAll(core, Notes(s, p, o)).log;
      if LastHasClient(s.tables, o.filters, p.topic) then after == core.log
      else ToAllOf(s.trash, TrashNote(p), core.log, after, IdsOf(s.trash, o.ids))
  {
    SentIffLast(s.tables.wild, o.filters, p, TopicOr(s.tables.exact, p.topic).entries != map[]);
    if !LastHasClient(s.tables, o.filters, p.topic) {
      TrashFits(p);
      SentToAll(core, s.trash, TrashNote(p), o.ids);
    }
  }

  lemma NobodyReached(s: Server, p: Publish, o: Orders)
    requires TablesOk(s.tables, s.core.heap.Keys) && Traverses(s, o) && forall x :: !Hit(s.tables, p.topic, x)
    ensures FanOut(s.tables, p, o) == [] && !LastHasClient(s.tables, o.filters, p.topic)
  {
    NobodyHit(s, p.topic);
    TargetsAreHits(s, p.topic, o);
    TargetsDeliver(s.tables, p, o);
    FirstIsIn(Targets(s.tables, p.topic, o));
  }

  /** So a message that matches no entry is always reported: every subscriber of $sys/trash gets a note with
      the topic name as its payload. */
  lemma UnsentIsNoted(s: Server, ch: Channel, p: Publish, o: Orders)
    requires Inv(s) && Possible(s, Publishing(ch, p)) && Traverses(s, o) && ch in s.params
    requires !s.core.stuck && Ends(s, Publishing(ch, p), o) && forall x :: !Hit(s.tables, p.topic, x)
    ensures ToAllOf(s.trash, TrashNote(p), s.core.log + AnswerTo(ch, p), HandlePublish(s, ch, p, o).core.log,
      IdsOf(s.trash, o.ids))
  {
    var copies := NotesAreExact(s, ch, p, o);
    NobodyReached(s, p, o);
    assert copies == s.core.log + AnswerTo(ch, p);
  }

  // ---------------------------------------------------------------- wills

  /** The will of a client that is lost goes to every client of its topic in the exact table, with the will's
      own QoS as the upper bound, and to no wildcard subscriber. */
  lemma WillIsDelivered(s: Server, ch: Channel, o: Orders)
    requires Inv(s) && Traverses(s, o) && ch in s.params && WillDue(s, s.params[ch])
    requires !s.core.stuck && Ends(s, Losing(ch), o)
    ensures var w := s.params[ch].will.value;
      var p := WillPacket(w, NewId(s.core.heap[s.params[ch].session]).id);
      && ToAllOf(s.tables.exact[w.topic], p, s.core.log, HandleLost(s, ch, o).core.log,
        IdsOf(s.tables.exact[w.topic], o.ids))
      && p.topic == w.topic && p.payload == w.message && p.qos == w.qos && p.retain == w.retain
  {
    var c := s.params[ch];
    var r := NewId(s.core.heap[c.session]);
    LosingEnds(s, ch, o);
    BrokerInvariant.WillOf(s, ch);
    WillFitsPacket(c.will.value, r.id);
    assert TopicOk(s.tables.exact[c.will.value.topic], s.core.heap.Keys);
    SentToAll(MoveCursor(s.core, c.session, r.next), s.tables.exact[c.will.value.topic], WillPacket(c.will.value, r.id),
      o.ids);
  }

  lemma DeliversIffHeld(topic: Topic, ids: seq<ClientId>, p: Publish)
    requires NoDup(ids) && forall id :: id in topic.entries ==> id in ids
    ensures TopicDeliveries(topic, ids, p) == [] <==> topic.entries == map[]
  {
    IdsOfExact(topic, ids, p);
    FirstIsIn(IdsOf(topic, ids));
    if id :| id in topic.entries { assert id in IdsOf(topic, ids); }
  }

  lemma DisconnectIsSilent(s: Server, ch: Channel, o: Orders)
    requires !s.core.stuck
    ensures Step(s, Disconnecting(ch), o).core == s.core
  {
  }

  /** Exactly when the loss of a channel writes nothing: there is no will, or nobody holds its topic in the
      exact table. A DISCONNECT never writes anything. */
  lemma LeavingIsSilent(s: Server, ch: Channel, o: Orders)
    requires Inv(s) && Traverses(s, o) && ch in s.params && !s.core.stuck && Ends(s, Losing(ch), o)
    ensures Step(s, Disconnecting(ch), o).core == s.core
    ensures var will := s.params[ch].will;
      HandleLost(s, ch, o).core.log == s.core.log <==>
        (will.Some? ==> TopicOr(s.tables.exact, will.value.topic).entries == map[])
  {
    DisconnectIsSilent(s, ch, o);
    LosingEnds(s, ch, o);
    if s.params[ch].will.Some? { WillSilent(s, ch, o); }
  }

  lemma WillSilent(s: Server, ch: Channel, o: Orders)
    requires Inv(s) && Traverses(s, o) && ch in s.params && s.params[ch].will.Some? && !HandleLost(s, ch, o).core.stuck
    ensures HandleLost(s, ch, o).core.log == s.core.log <==>
      TopicOr(s.tables.exact, s.params[ch].will.value.topic).entries == map[]
  {
    var w := s.params[ch].will.value;
    WillBatch(s, ch, o);
    DeliversIffHeld(TopicOr(s.tables.exact, w.topic), o.ids, WillPacket(w, 0));
  }

  /** Each entry a message matches got one copy, and nothing else was written. */
  ghost predicate Serves(s: Server, p: Publish, before: seq<Write>, after: seq<Write>, xs: seq<Target>) {
    && NoDup(xs) && (forall x :: x in xs <==> Hit(s.tables, p.topic, x))
    && before <= after && |after| == |before| + |xs|
    && forall i :: 0 <= i < |xs| ==>
         Hit(s.tables, p.topic, xs[i]) && IsCopy(after[|before| + i], DeliveryOf(s.tables, xs[i], p))
  }

  /** The entries of the exact table the will's topic has. */
  function WillTargets(s: Server, name: Str, o: Orders): seq<Target> {
    TopicTargets(TopicOr(s.tables.exact, name), false, name, o.ids)
  }

  lemma WillTargetsExact(s: Server, name: Str, o: Orders)
    requires TablesOk(s.tables, s.core.heap.Keys) && Traverses(s, o)
    ensures NoDup(WillTargets(s, name, o))
    ensures forall x :: x in WillTargets(s, name, o) <==> !x.wild && Hit(s.tables, name, x)
  {
    TopicTargetsExact(TopicOr(s.tables.exact, name), false, name, o.ids);
    forall x ensures x in WillTargets(s, name, o) <==> !x.wild && Hit(s.tables, name, x) {
      if !x.wild && Has(s.tables, false, x.filter, x.id).Some? { LiteralMatch(x.filter, name); }
    }
  }

  lemma HeldWillBatch(s: Server, ch: Channel, o: Orders)
    requires Inv(s) && ch in s.params && PublishesWill(s, s.params[ch]) && !HandleLost(s, ch, o).core.stuck
    ensures var w := s.params[ch].will.value;
      Batch(s.core.log, HandleLost(s, ch, o).core.log,
        TopicDeliveries(s.tables.exact[w.topic], o.ids, WillPacket(w, 0)))
  {
    var c, w := s.params[ch], s.params[ch].will.value;
    var r := NewId(s.core.heap[c.session]);
    BrokerInvariant.WillOf(s, ch);
    WillFitsPacket(w, r.id);
    SentWill(MoveCursor(s.core, c.session, r.next), s.tables.exact[w.topic], o.ids, w, r.id);
  }

  lemma WhenWillUnheld(s: Server, ch: Channel, o: Orders)
    requires Connections(s) && ch in s.params && s.params[ch].will.Some? && !HandleLost(s, ch, o).core.stuck
    requires !PublishesWill(s, s.params[ch])
    ensures s.params[ch].will.value.topic !in s.tables.exact && HandleLost(s, ch, o).core.log == s.core.log
  {
    ClientOf(s, ch);
  }

  /** The loss of a channel with a will: what it writes, whether the topic is held or not. */
  lemma WillBatch(s: Server, ch: Channel, o: Orders)
    requires Inv(s) && ch in s.params && s.params[ch].will.Some? && !HandleLost(s, ch, o).core.stuck
    ensures var w := s.params[ch].will.value;
      Batch(s.core.log, HandleLost(s, ch, o).core.log,
        TopicDeliveries(TopicOr(s.tables.exact, w.topic), o.ids, WillPacket(w, 0)))
  {
    if PublishesWill(s, s.params[ch]) {
      HeldWillBatch(s, ch, o);
    } else {
      WhenWillUnheld(s, ch, o);
      NobodyEntered(o.ids, WillPacket(s.params[ch].will.value, 0));
    }
  }

  lemma SentWill(core: Core, topic: Topic, ids: seq<ClientId>, w: Will, id: uint16)
    requires TopicOk(topic, core.heap.Keys) && Fits(WillPacket(w, id))
    requires !DeliverAll(core, TopicDeliveries(topic, ids, WillPacket(w, id))).stuck
    ensures Batch(core.log, DeliverAll(core, TopicDeliveries(topic, ids, WillPacket(w, id))).log,
      TopicDeliveries(topic, ids, WillPacket(w, 0)))
  {
    var ds := TopicDeliveries(topic, ids, WillPacket(w, id));
    TopicDeliveriesSound(topic, ids, WillPacket(w, id), core.heap.Keys);
    SentBatch(core, ds);
    AnyIdBatch(topic, ids, w, id, core.log, DeliverAll(core, ds).log);
  }

  lemma NobodyEntered(ids: seq<ClientId>, p: Publish)
    ensures TopicDeliveries(NewTopic, ids, p) == []
  {
  }

  /** A copy does not show the identifier of what it copies. */
  lemma AnyIdBatch(topic: Topic, ids: seq<ClientId>, w: Will, id: uint16, before: seq<Write>, after: seq<Write>)
    requires Batch(before, after, TopicDeliveries(topic, ids, WillPacket(w, id)))
    ensures Batch(before, after, TopicDeliveries(topic, ids, WillPacket(w, 0)))
  {
    var p, q := WillPacket(w, id), WillPacket(w, 0);
    TopicTargetsDeliver(topic, false, w.topic, ids, p);
    TopicTargetsDeliver(topic, false, w.topic, ids, q);
    var ds, es := TopicDeliveries(topic, ids, p), TopicDeliveries(topic, ids, q);
    forall i | 0 <= i < |es| ensures IsCopy(after[|before| + i], es[i]) {
      assert IsCopy(after[|before| + i], ds[i]);
    }
  }

  lemma {:induction false} NoDupSize<T>(s: seq<T>)
    requires NoDup(s)
    ensures |set x | x in s| == |s|
  {
    if s != [] {
      NoDupSize(s[1..]);
      assert (set x | x in s) == {s[0]} + set x | x in s[1..];
    }
  }

  /** As many distinct members, and all of the other's: the same members. */
  lemma SameMembers<T>(a: seq<T>, b: seq<T>, x: T)
    requires NoDup(a) && NoDup(b) && |a| == |b| && (forall y :: y in a ==> y in b) && x in b
    ensures x in a
  {
    var sa, sb := set y | y in a, set y | y in b;
    NoDupSize(a);
    NoDupSize(b);
    if x !in a { SubsetSize(sa, sb - {x}); }
  }

  lemma ExactHitsServed(s: Server, p: Publish, before: seq<Write>, after: seq<Write>, o: Orders)
    requires TablesOk(s.tables, s.core.heap.Keys) && Traverses(s, o)
    requires Batch(before, after, TopicDeliveries(TopicOr(s.tables.exact, p.topic), o.ids, p))
    requires forall x :: Hit(s.tables, p.topic, x) ==> !x.wild
    ensures Serves(s, p, before, after, WillTargets(s, p.topic, o))
  {
    var xs := WillTargets(s, p.topic, o);
    WillTargetsExact(s, p.topic, o);
    TopicTargetsDeliver(TopicOr(s.tables.exact, p.topic), false, p.topic, o.ids, p);
    HitsOfTargets(s.tables, p.topic, xs);
  }

  lemma WildHitMissed(s: Server, p: Publish, before: seq<Write>, after: seq<Write>, o: Orders, xs: seq<Target>,
      x: Target)
    requires TablesOk(s.tables, s.core.heap.Keys) && Traverses(s, o)
    requires Batch(before, after, TopicDeliveries(TopicOr(s.tables.exact, p.topic), o.ids, p))
    requires Serves(s, p, before, after, xs) && Hit(s.tables, p.topic, x)
    ensures !x.wild
  {
    WillTargetsExact(s, p.topic, o);
    TopicTargetsDeliver(TopicOr(s.tables.exact, p.topic), false, p.topic, o.ids, p);
    SameMembers(WillTargets(s, p.topic, o), xs, x);
  }

  /** Exactly when a will is delivered as a PUBLISH of it would be: every entry its topic matches gets it, and
      nothing else is written, if and only if no entry of the wildcard table matches the topic. */
  lemma WillServesAllIff(s: Server, ch: Channel, o: Orders)
    requires Inv(s) && Traverses(s, o) && ch in s.params && s.params[ch].will.Some?
    requires !s.core.stuck && Ends(s, Losing(ch), o)
    ensures var w, after := s.params[ch].will.value, HandleLost(s, ch, o).core.log;
      (exists xs :: Serves(s, WillPacket(w, 0), s.core.log, after, xs)) <==> forall x :: Hit(s.tables, w.topic, x) ==>
        !x.wild
  {
    var w, after := s.params[ch].will.value, HandleLost(s, ch, o).core.log;
    LosingEnds(s, ch, o);
    WillBatch(s, ch, o);
    if forall x :: Hit(s.tables, w.topic, x) ==> !x.wild {
      ExactHitsServed(s, WillPacket(w, 0), s.core.log, after, o);
    }
    if xs :| Serves(s, WillPacket(w, 0), s.core.log, after, xs) {
      forall x | Hit(s.tables, w.topic, x) ensures !x.wild {
        WildHitMissed(s, WillPacket(w, 0), s.core.log, after, o, xs, x);
      }
    }
  }

  lemma HitsOfTargets(t: Tables, name: Str, xs: seq<Target>)
    requires forall x :: x in xs <==> Hit(t, name, x)
    ensures forall i :: 0 <= i < |xs| ==> Hit(t, name, xs[i])
  {
    forall i | 0 <= i < |xs| ensures Hit(t, name, xs[i]) { assert xs[i] in xs; }
  }

  /** Id holds filter f, as a plain one or as one with wildcards, in the session it is connected to. */
  predicate Holds(s: Server, w: bool, f: Str, id: ClientId) {
    id in s.clients && var subs := SubsOf(s.core, s.clients[id].session); f in subs && subs[f].wild == w
  }

  /** w is the copy for target x: to the connected client of its id, with the lower of the message's QoS and
      the one its session grants; or to the replaced connection whose entry a clean takeover left there. */
  predicate CopyFor(s: Server, left: Left, p: Publish, x: Target, w: Write) {
    var place := Place(x.wild, x.filter, x.id);
    if Holds(s, x.wild, x.filter, x.id) then
      var c := s.clients[x.id];
      IsCopy(w, Delivery(c, SubsOf(s.core, c.session)[x.filter].qos, false, p))
    else place in left && IsCopy(w, Delivery(left[place].client, left[place].qos, false, p))
  }

  lemma HitIff(s: Server, left: Left, name: Str, x: Target)
    requires Accounts(s, left)
    ensures Hit(s.tables, name, x) <==>
      Scan(x.filter, name) && (Holds(s, x.wild, x.filter, x.id) || Place(x.wild, x.filter, x.id) in left)
  {
    assert AccountsAt(s, left, x.id);
    assert Has(s.tables, x.wild, x.filter, x.id) == if Wants(s, x.wild, x.filter, x.id).Some?
      then Wants(s, x.wild, x.filter, x.id) else LeftAt(left, x.wild, x.filter, x.id);
  }

  lemma HitCopy(s: Server, left: Left, p: Publish, x: Target, w: Write)
    requires Accounts(s, left) && Hit(s.tables, p.topic, x) && IsCopy(w, DeliveryOf(s.tables, x, p))
    ensures CopyFor(s, left, p, x, w)
  {
    assert AccountsAt(s, left, x.id);
    assert Has(s.tables, x.wild, x.filter, x.id) == if Wants(s, x.wild, x.filter, x.id).Some?
      then Wants(s, x.wild, x.filter, x.id) else LeftAt(left, x.wild, x.filter, x.id);
  }

  /** The copies of a PUBLISH, position by position: one for each filter a connected client holds and each
      entry left behind that matches the topic, and no other copy. */
  ghost predicate Reaches(s: Server, left: Left, p: Publish, before: seq<Write>, after: seq<Write>, xs: seq<Target>) {
    && NoDup(xs) && before <= after && |after| >= |before| + |xs|
    && (forall x :: x in xs <==>
      Scan(x.filter, p.topic) && (Holds(s, x.wild, x.filter, x.id) || Place(x.wild, x.filter, x.id) in left))
    && (forall i :: 0 <= i < |xs| ==> CopyFor(s, left, p, xs[i], after[|before| + i]))
    && (forall j :: |before| + |xs| <= j < |after| ==>
      after[j].packet.Forward? && after[j].packet.publish.topic == TRASH)
  }

  lemma FanOutReaches(s: Server, left: Left, p: Publish, before: seq<Write>, after: seq<Write>, xs: seq<Target>)
    requires Accounts(s, left) && FansOut(s, p, before, after, xs)
    ensures Reaches(s, left, p, before, after, xs)
  {
    forall x ensures x in xs <==>
      Scan(x.filter, p.topic) && (Holds(s, x.wild, x.filter, x.id) || Place(x.wild, x.filter, x.id) in left)
    {
      HitIff(s, left, p.topic, x);
    }
    forall i | 0 <= i < |xs| ensures CopyFor(s, left, p, xs[i], after[|before| + i]) {
      HitCopy(s, left, p, xs[i], after[|before| + i]);
    }
  }

  /** Who a PUBLISH reaches at the end of any run from the start: every connected client once for each
      filter it holds that matches, on its own channel and with the QoS granted; and besides, only what the
      run's clean takeovers left behind. */
  lemma PublishReaches(es: seq<(Event, Orders)>, ch: Channel, p: Publish, o: Orders) returns (xs: seq<Target>)
    requires PossibleRun(Start, es) && ch in Run(Start, es).params && !Run(Start, es).core.stuck
    requires var s := Run(Start, es);
      Possible(s, Publishing(ch, p)) && Traverses(s, o) && Ends(s, Publishing(ch, p), o)
    ensures var s := Run(Start, es);
      Reaches(s, RunLeft(Start, map[], es), p, s.core.log + AnswerTo(ch, p), HandlePublish(s, ch, p, o).core.log, xs)
  {
    var s, left := Run(Start, es), RunLeft(Start, map[], es);
    StartInv();
    RunInv(Start, es);
    StartAccounts();
    RunAccounts(Start, map[], es);
    xs := FanOutIsNaiveScan(s, ch, p, o);
    FanOutReaches(s, left, p, s.core.log + AnswerTo(ch, p), HandlePublish(s, ch, p, o).core.log, xs);
  }

  lemma ConnectedId(s: Server, id: ClientId)
    requires Connections(s) && id in s.clients
    ensures s.clients[id].id == id && s.clients[id].session in s.core.heap
  {
  }

  /** End to end, for names that do not end in '/': a client holding filter f is hit under f iff the levels
      of the name match the levels of f (section 4.7 of MQTT 3.1.1). */
  lemma SubscriberHitsByLevels(s: Server, name: Str, id: ClientId, f: Str)
    requires Inv(s) && id in s.clients && name != [] && name[|name| - 1] != SLASH
    requires f in SubsOf(s.core, s.clients[id].session)
    ensures Hit(s.tables, name, Target(HasWildcard(f), f, id)) <==> LevelMatch(Levels(f), Levels(name))
  {
    var c := s.clients[id];
    ConnectedId(s, id);
    SessionAt(s.core, c.session, s.core.heap.Keys);
    assert SubOk(f, s.core.heap[c.session].subs[f]);
    assert IndexAt(s, id) && Says(c, SubsOf(s.core, c.session), HasWildcard(f), f).Some?;
    ValidFromMeans(f, 0);
    ScanEqualsLevelMatch(f, name);
  }

  // ---------------------------------------------------------------- retained messages

  /** The topics of the exact table that hold a retained message and match n, in the order of `filters`. */
  function Matches(exact: map<Str, Topic>, n: Str, filters: seq<Str>): seq<Str> {
    if filters == [] then []
    else if TopicOr(exact, filters[0]).retained.Some? && Scan(n, filters[0])
      then [filters[0]] + Matches(exact, n, filters[1..])
    else Matches(exact, n, filters[1..])
  }

  lemma {:induction false} MatchesExact(exact: map<Str, Topic>, n: Str, filters: seq<Str>)
    requires NoDup(filters)
    ensures NoDup(Matches(exact, n, filters))
    ensures forall g :: g in Matches(exact, n, filters) <==>
      g in filters && g in exact && exact[g].retained.Some? && Scan(n, g)
  {
    if filters != [] {
      var rest := filters[1..];
      assert NoDup(rest) && filters[0] !in rest;
      MatchesExact(exact, n, rest);
      assert forall g :: g in filters <==> g == filters[0] || g in rest;
    }
  }

  /** The retained messages of some topics, for a client with a granted QoS. */
  function RetainedOf(exact: map<Str, Topic>, c: Client, q: byte, topics: seq<Str>): seq<Delivery>
    requires forall i :: 0 <= i < |topics| ==> TopicOr(exact, topics[i]).retained.Some?
  {
    seq(|topics|, i requires 0 <= i < |topics| => Delivery(c, q, true, TopicOr(exact, topics[i]).retained.value))
  }

  /** The naive scan: for each accepted filter occurrence, every matching retained message. */
  function NaiveRetained(exact: map<Str, Topic>, c: Client, subs: map<Str, Sub>, names: seq<Str>,
      filters: seq<Str>): seq<Delivery> {
    if names == [] then []
    else
      MatchesHold(exact, names[0], filters);
      (if names[0] in subs then RetainedOf(exact, c, subs[names[0]].qos, Matches(exact, names[0], filters)) else [])
        + NaiveRetained(exact, c, subs, names[1..], filters)
  }

  lemma {:induction false} MatchesHold(exact: map<Str, Topic>, n: Str, filters: seq<Str>)
    ensures forall i :: 0 <= i < |Matches(exact, n, filters)| ==>
      TopicOr(exact, Matches(exact, n, filters)[i]).retained.Some?
  {
    if filters != [] { MatchesHold(exact, n, filters[1..]); }
  }

  lemma {:induction false} RetainedMatchingNaive(exact: map<Str, Topic>, c: Client, n: Str, q: byte, filters: seq<Str>)
    ensures (MatchesHold(exact, n, filters);
      RetainedMatching(exact, c, n, q, filters) == RetainedOf(exact, c, q, Matches(exact, n, filters)))
  {
    MatchesHold(exact, n, filters);
    if filters != [] {
      RetainedMatchingNaive(exact, c, n, q, filters[1..]);
      MatchesHold(exact, n, filters[1..]);
    }
  }

  /** For a wildcard-free filter the scan finds the one topic of that name, as the exact lookup does. */
  lemma {:induction false} LiteralMatches(exact: map<Str, Topic>, n: Str, filters: seq<Str>)
    requires !HasWildcard(n) && NoDup(filters)
    ensures Matches(exact, n, filters) == if n in filters && TopicOr(exact, n).retained.Some? then [n] else []
  {
    if filters != [] {
      LiteralMatch(n, filters[0]);
      assert NoDup(filters[1..]) && filters[0] !in filters[1..];
      LiteralMatches(exact, n, filters[1..]);
    }
  }

  /** The client is entered under each of the names, with the QoS its session records. */
  ghost predicate Entered(t: Tables, c: Client, subs: map<Str, Sub>, names: seq<Str>, w: bool) {
    forall i :: 0 <= i < |names| ==> names[i] in subs && Has(t, w, names[i], c.id) == Some(Entry(c, subs[names[i]].qos))
  }

  lemma {:induction false} RetainedExactNaive(t: Tables, c: Client, subs: map<Str, Sub>, names: seq<Str>,
      filters: seq<Str>, refs: set<Channel>)
    requires TablesOk(t, refs) && Entered(t, c, subs, names, false) && NoDup(filters)
    requires forall f :: f in t.exact && t.exact[f].retained.Some? ==> f in filters
    ensures RetainedExact(t, c, names) == NaiveRetained(t.exact, c, subs, names, filters)
    decreases names
  {
    if names != [] {
      var n := names[0];
      assert Has(t, false, n, c.id) == Some(Entry(c, subs[n].qos));
      RetainedExactNaive(t, c, subs, names[1..], filters, refs);
      assert !HasWildcard(n);
      LiteralMatches(t.exact, n, filters);
      MatchesHold(t.exact, n, filters);
    }
  }

  lemma {:induction false} RetainedWildNaive(t: Tables, c: Client, subs: map<Str, Sub>, names: seq<Str>,
      filters: seq<Str>)
    requires Entered(t, c, subs, names, true)
    ensures RetainedWild(t, c, names, filters) == NaiveRetained(t.exact, c, subs, names, filters)
    decreases names
  {
    if names != [] {
      var n := names[0];
      assert Has(t, true, n, c.id) == Some(Entry(c, subs[n].qos));
      RetainedWildNaive(t, c, subs, names[1..], filters);
      RetainedMatchingNaive(t.exact, c, n, subs[n].qos, filters);
    }
  }

  lemma {:induction false} NaiveAppend(exact: map<Str, Topic>, c: Client, subs: map<Str, Sub>, a: seq<Str>, b: seq<Str>,
      filters: seq<Str>)
    ensures NaiveRetained(exact, c, subs, a + b, filters) ==
      NaiveRetained(exact, c, subs, a, filters) + NaiveRetained(exact, c, subs, b, filters)
  {
    if a == [] {
      assert a + b == b;
    } else {
      assert (a + b)[0] == a[0] && (a + b)[1..] == a[1..] + b;
      NaiveAppend(exact, c, subs, a[1..], b, filters);
    }
  }

  /** Main result on retained delivery: the client is always found subscribed, and gets, for each filter
      occurrence, exactly the retained messages of the topics the filter matches, with the QoS granted now. */
  lemma RetainedIsNaive(t: Tables, c: Client, subs: map<Str, Sub>, plain: seq<Str>, wilds: seq<Str>, o: Orders,
      refs: set<Channel>)
    requires TablesOk(t, refs) && NoDup(o.filters) && Entered(t, c, subs, plain, false)
      && Entered(t, c, subs, wilds, true)
    requires forall f :: f in t.exact && t.exact[f].retained.Some? ==> f in o.filters
    ensures Retained(t, c, plain, wilds, o) == NaiveRetained(t.exact, c, subs, plain + wilds, o.filters)
  {
    RetainedExactNaive(t, c, subs, plain, o.filters, refs);
    RetainedWildNaive(t, c, subs, wilds, o.filters);
    NaiveAppend(t.exact, c, subs, plain, wilds, o.filters);
  }
}
