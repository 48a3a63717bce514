/** What SUBSCRIBE and an accepted CONNECT are answered with, and what they leave in the session. */
module BrokerAnswers {
  import opened Basics
  import opened TopicFilter
  import opened Packets
  import opened Sessions
  import opened Broker
  import opened BrokerCore
  import opened BrokerEnds
  import opened BrokerIndex
  import opened BrokerInvariant
  import opened BrokerDelivery
  import opened BrokerRetained

  // ---------------------------------------------------------------- retained messages, one by one

  /** The topic matched by the filter at position k of a list of names. */
  datatype Pair = Pair(k: nat, topic: Str)

  function Tagged(k: nat, topics: seq<Str>): seq<Pair> {
    seq(|topics|, i requires 0 <= i < |topics| => Pair(k, topics[i]))
  }

  function Pairs(exact: map<Str, Topic>, names: seq<Str>, filters: seq<Str>, from: nat): seq<Pair> {
    if names == [] then []
    else Tagged(from, Matches(exact, names[0], filters)) + Pairs(exact, names[1..], filters, from + 1)
  }

  lemma TaggedExact(k: nat, topics: seq<Str>)
    requires NoDup(topics)
    ensures NoDup(Tagged(k, topics)) && forall x: Pair :: x in Tagged(k, topics) <==> x.k == k && x.topic in topics
  {
    forall x: Pair | x.k == k && x.topic in topics ensures x in Tagged(k, topics) {
      var i :| 0 <= i < |topics| && topics[i] == x.topic;
      assert Tagged(k, topics)[i] == x;
    }
  }

  predicate Due(t: Tables, names: seq<Str>, from: nat, x: Pair) {
    from <= x.k < from + |names| && Kept(t, false, x.topic).Some? && Scan(names[x.k - from], x.topic)
  }

  ghost predicate Listed(t: Tables, filters: seq<Str>) {
    NoDup(filters) && forall f :: Kept(t, false, f).Some? ==> f in filters
  }

  lemma {:induction false} PairsExact(t: Tables, names: seq<Str>, filters: seq<Str>, from: nat)
    requires Listed(t, filters)
    ensures NoDup(Pairs(t.exact, names, filters, from))
    ensures forall x :: x in Pairs(t.exact, names, filters, from) <==> Due(t, names, from, x)
    decreases names
  {
    if names != [] {
      var now, rest := Tagged(from, Matches(t.exact, names[0], filters)), Pairs(t.exact, names[1..], filters, from + 1);
      MatchesExact(t.exact, names[0], filters);
      TaggedExact(from, Matches(t.exact, names[0], filters));
      PairsExact(t, names[1..], filters, from + 1);
      NoDupAppend(now, rest);
      forall x ensures x in now + rest <==> Due(t, names, from, x) {
        assert x in now <==> Due(t, names, from, x) && x.k == from;
        assert x in rest <==> Due(t, names, from, x) && x.k != from;
      }
    }
  }

  /** The delivery due for a pair. */
  function Gift(t: Tables, c: Client, subs: map<Str, Sub>, name: Str, x: Pair): Delivery
    requires name in subs && Kept(t, false, x.topic).Some?
  {
    Delivery(c, subs[name].qos, true, Kept(t, false, x.topic).value)
  }

  ghost predicate Gifts(t: Tables, c: Client, subs: map<Str, Sub>, names: seq<Str>, from: nat, ds: seq<Delivery>,
      xs: seq<Pair>) {
    |ds| == |xs| && forall i :: 0 <= i < |xs| ==>
      && from <= xs[i].k < from + |names| && names[xs[i].k - from] in subs && Kept(t, false, xs[i].topic).Some?
      && ds[i] == Gift(t, c, subs, names[xs[i].k - from], xs[i])
  }

  lemma GiftsAppend(t: Tables, c: Client, subs: map<Str, Sub>, names: seq<Str>, from: nat, d1: seq<Delivery>,
      x1: seq<Pair>, d2: seq<Delivery>, x2: seq<Pair>)
    requires names != [] && Gifts(t, c, subs, names[..1], from, d1, x1)
      && Gifts(t, c, subs, names[1..], from + 1, d2, x2)
    ensures Gifts(t, c, subs, names, from, d1 + d2, x1 + x2)
  {
  }

  lemma {:induction false} PairsGive(t: Tables, c: Client, subs: map<Str, Sub>, names: seq<Str>, filters: seq<Str>,
      from: nat)
    requires forall i :: 0 <= i < |names| ==> names[i] in subs
    ensures Gifts(t, c, subs, names, from, NaiveRetained(t.exact, c, subs, names, filters),
      Pairs(t.exact, names, filters, from))
    decreases names
  {
    if names != [] {
      var topics := Matches(t.exact, names[0], filters);
      MatchesHold(t.exact, names[0], filters);
      PairsGive(t, c, subs, names[1..], filters, from + 1);
      GiftsAppend(t, c, subs, names, from, RetainedOf(t.exact, c, subs[names[0]].qos, topics), Tagged(from, topics),
                  NaiveRetained(t.exact, c, subs, names[1..], filters), Pairs(t.exact, names[1..], filters, from + 1));
    }
  }

  /** The retained messages sent for some filters: exactly one for each occurrence of a filter and each
      topic it matches that holds one, with the QoS granted now. */
  ghost predicate Gives(t: Tables, c: Client, subs: map<Str, Sub>, names: seq<Str>, ds: seq<Delivery>, xs: seq<Pair>) {
    NoDup(xs) && (forall x :: x in xs <==> Due(t, names, 0, x)) && Gifts(t, c, subs, names, 0, ds, xs)
  }

  lemma RetainedGives(t: Tables, c: Client, subs: map<Str, Sub>, plain: seq<Str>, wilds: seq<Str>, o: Orders,
      refs: set<Channel>)
    requires TablesOk(t, refs) && Listed(t, o.filters) && Entered(t, c, subs, plain, false)
      && Entered(t, c, subs, wilds, true)
    ensures Gives(t, c, subs, plain + wilds, Retained(t, c, plain, wilds, o),
      Pairs(t.exact, plain + wilds, o.filters, 0))
  {
    forall f | f in t.exact && t.exact[f].retained.Some? ensures f in o.filters { assert Kept(t, false, f).Some?; }
    RetainedIsNaive(t, c, subs, plain, wilds, o, refs);
    PairsExact(t, plain + wilds, o.filters, 0);
    PairsGive(t, c, subs, plain + wilds, o.filters, 0);
  }

  // ---------------------------------------------------------------- what subscribing does to the session

  /** The return code: the QoS asked for, or 0x80 for an invalid filter or a '$' filter out of reach. */
  function Answer(c: Client, i: Item): byte {
    if Accepted(i) || (i.qos < QOS_INVALID && c.admin && i.filter == TRASH) then i.qos else FAILURE
  }

  function Answers(c: Client, items: seq<Item>): Str {
    seq(|items|, i requires 0 <= i < |items| => Answer(c, items[i]))
  }

  /** The accepted filters of one kind, in the order of the packet. */
  function Names(items: seq<Item>, wild: bool): seq<Str> {
    if items == [] then []
    else if Accepted(items[0]) && items[0].wild == wild then [items[0].filter] + Names(items[1..], wild)
    else Names(items[1..], wild)
  }

  /** Item i is the last accepted one for its filter. */
  predicate LastFor(items: seq<Item>, i: nat)
    requires i < |items|
  {
    Accepted(items[i]) && forall j :: i < j < |items| && items[j].filter == items[i].filter ==> !Accepted(items[j])
  }

  predicate Asked(items: seq<Item>, f: Str) {
    exists i :: 0 <= i < |items| && Accepted(items[i]) && items[i].filter == f
  }

  lemma AskedStep(items: seq<Item>, f: Str)
    requires items != []
    ensures Asked(items, f) <==> Asked(items[1..], f) || (Accepted(items[0]) && items[0].filter == f)
  {
    if Asked(items[1..], f) {
      var i :| 0 <= i < |items[1..]| && Accepted(items[1..][i]) && items[1..][i].filter == f;
      assert items[i + 1] == items[1..][i];
    }
    if Asked(items, f) {
      var i :| 0 <= i < |items| && Accepted(items[i]) && items[i].filter == f;
      if i > 0 { assert items[1..][i - 1] == items[i]; }
    }
  }

  lemma {:induction false} SubscribeItemsCodes(a: Progress, c: Client, items: seq<Item>)
    ensures SubscribeItems(a, c, items).codes == a.codes + Answers(c, items)
    decreases items
  {
    if items != [] {
      SubscribeItemsCodes(SubscribeOne(a, c, items[0]), c, items[1..]);
      assert Answers(c, items) == [Answer(c, items[0])] + Answers(c, items[1..]);
    }
  }

  lemma {:induction false} SubscribeItemsNames(a: Progress, c: Client, items: seq<Item>)
    ensures var b := SubscribeItems(a, c, items);
      b.plain == a.plain + Names(items, false) && b.wilds == a.wilds + Names(items, true)
    decreases items
  {
    if items != [] { SubscribeItemsNames(SubscribeOne(a, c, items[0]), c, items[1..]); }
  }

  lemma {:induction false} SubscribeItemsSubs(a: Progress, c: Client, items: seq<Item>)
    ensures var b := SubscribeItems(a, c, items);
      && (forall i :: 0 <= i < |items| && LastFor(items, i) ==>
        items[i].filter in b.subs && b.subs[items[i].filter] == Sub(items[i].qos, items[i].wild))
      && (forall f :: f in b.subs <==> f in a.subs || Asked(items, f))
      && (forall f :: f in a.subs && !Asked(items, f) ==> b.subs[f] == a.subs[f])
    decreases items
  {
    if items != [] {
      var a1, rest := SubscribeOne(a, c, items[0]), items[1..];
      var b := SubscribeItems(a, c, items);
      SubscribeItemsSubs(a1, c, rest);
      forall f ensures Asked(items, f) <==> Asked(rest, f) || (Accepted(items[0]) && items[0].filter == f)
      {
        AskedStep(items, f);
      }
      forall i | 0 <= i < |items| && LastFor(items, i)
        ensures items[i].filter in b.subs && b.subs[items[i].filter] == Sub(items[i].qos, items[i].wild)
      {
        if i > 0 { assert LastFor(rest, i - 1); }
        else { assert !Asked(rest, items[0].filter); }
      }
    }
  }

  lemma {:induction false} NamesAsked(items: seq<Item>, w: bool)
    requires forall i :: 0 <= i < |items| ==> Decoded(items[i])
    ensures forall k :: 0 <= k < |Names(items, w)| ==>
      Asked(items, Names(items, w)[k]) && HasWildcard(Names(items, w)[k]) == w
  {
    if items != [] {
      NamesAsked(items[1..], w);
      forall f ensures Asked(items, f) <==> Asked(items[1..], f) || (Accepted(items[0]) && items[0].filter == f)
      {
        AskedStep(items, f);
      }
    }
  }

  lemma CoveredEntered(t: Tables, c: Client, subs: map<Str, Sub>, names: seq<Str>, w: bool)
    requires Covered(t, c, subs) && forall f :: f in subs ==> SubOk(f, subs[f])
    requires forall k :: 0 <= k < |names| ==> names[k] in subs && HasWildcard(names[k]) == w
    ensures Entered(t, c, subs, names, w)
  {
    forall k | 0 <= k < |names| ensures Has(t, w, names[k], c.id) == Some(Entry(c, subs[names[k]].qos)) {
      assert SubOk(names[k], subs[names[k]]);
      assert Says(c, subs, w, names[k]).Some?;
    }
  }

  /** Every accepted filter of a SUBSCRIBE is entered in its table by the time the packet is answered. */
  lemma SubscribedEntered(start: Progress, c: Client, items: seq<Item>, w: bool)
    requires (forall i :: 0 <= i < |items| ==> Decoded(items[i]))
      && forall f :: f in start.subs ==> SubOk(f, start.subs[f])
    requires Covered(start.tables, c, start.subs)
    ensures Entered(SubscribeItems(start, c, items).tables, c, SubscribeItems(start, c, items).subs, Names(items, w), w)
  {
    SubscribeItemsIndex(start, c, items);
    SubscribeItemsSubs(start, c, items);
    NamesAsked(items, w);
    var a := SubscribeItems(start, c, items);
    CoveredEntered(a.tables, c, a.subs, Names(items, w), w);
  }

  lemma SubscribedListed(s: Server, start: Progress, c: Client, items: seq<Item>, o: Orders)
    requires Traverses(s, o) && start.tables == s.tables
    ensures Listed(SubscribeItems(start, c, items).tables, o.filters)
  {
    forall f ensures Kept(SubscribeItems(start, c, items).tables, false, f) == Kept(s.tables, false, f)
    {
      SubscribeItemsKept(start, c, items, false, f);
    }
  }

  lemma ProgressGives(start: Progress, c: Client, items: seq<Item>, o: Orders, refs: set<Channel>)
    requires TablesOk(start.tables, refs) && TopicOk(start.trash, refs) && c.session in refs
      && Covered(start.tables, c, start.subs)
    requires (forall i :: 0 <= i < |items| ==> Decoded(items[i]))
      && forall f :: f in start.subs ==> SubOk(f, start.subs[f])
    requires Listed(SubscribeItems(start, c, items).tables, o.filters)
    ensures var a, plain, wilds := SubscribeItems(start, c, items), Names(items, false), Names(items, true);
      Gives(a.tables, c, a.subs, plain + wilds, Retained(a.tables, c, plain, wilds, o),
        Pairs(a.tables.exact, plain + wilds, o.filters, 0))
  {
    var a := SubscribeItems(start, c, items);
    SubscribeItemsOk(start, c, items, refs);
    SubscribedEntered(start, c, items, false);
    SubscribedEntered(start, c, items, true);
    RetainedGives(a.tables, c, a.subs, Names(items, false), Names(items, true), o, refs);
  }

  lemma FreshProgress(start: Progress, c: Client, items: seq<Item>)
    requires start.codes == [] && start.plain == [] && start.wilds == []
    ensures var a := SubscribeItems(start, c, items);
      a.codes == Answers(c, items) && a.plain == Names(items, false) && a.wilds == Names(items, true)
  {
    SubscribeItemsCodes(start, c, items);
    SubscribeItemsNames(start, c, items);
  }

  lemma AnyProgress(s: Server, start: Progress, c: Client, items: seq<Item>, o: Orders)
    requires Stored(s) && c.session in s.core.heap && Traverses(s, o)
      && Covered(s.tables, c, s.core.heap[c.session].subs)
    requires forall i :: 0 <= i < |items| ==> Decoded(items[i])
    requires start.tables == s.tables && start.trash == s.trash && start.subs == s.core.heap[c.session].subs
    ensures var a, plain, wilds := SubscribeItems(start, c, items), Names(items, false), Names(items, true);
      Gives(a.tables, c, a.subs, plain + wilds, Retained(a.tables, c, plain, wilds, o),
        Pairs(a.tables.exact, plain + wilds, o.filters, 0))
  {
    SessionAt(s.core, c.session, s.core.heap.Keys);
    SubscribedListed(s, start, c, items, o);
    ProgressGives(start, c, items, o, s.core.heap.Keys);
  }

  /** What SUBSCRIBE has made of the tables and the session before it answers. */
  lemma SubscribedGives(s: Server, c: Client, items: seq<Item>, o: Orders)
    requires Stored(s) && c.session in s.core.heap && Traverses(s, o)
      && Covered(s.tables, c, s.core.heap[c.session].subs)
    requires forall i :: 0 <= i < |items| ==> Decoded(items[i])
    ensures var a, names := Subscribed(s, c, items), Names(items, false) + Names(items, true);
      && a.codes == Answers(c, items)
      && Gives(a.tables, c, a.subs, names, Retained(a.tables, c, a.plain, a.wilds, o),
        Pairs(a.tables.exact, names, o.filters, 0))
  {
    var start := Progress(s.tables, s.trash, s.core.heap[c.session].subs, [], [], []);
    FreshProgress(start, c, items);
    AnyProgress(s, start, c, items, o);
  }

  lemma GiftsReachable(core: Core, t: Tables, c: Client, subs: map<Str, Sub>, names: seq<Str>, ds: seq<Delivery>,
      xs: seq<Pair>)
    requires Gifts(t, c, subs, names, 0, ds, xs) && c.session in core.heap
    ensures Reachable(core, ds)
  {
  }

  /** Main result on SUBSCRIBE: the SUBACK with one code per filter in order, and then exactly the retained
      messages due, with the QoS granted now. The error for a client that is not subscribing never occurs. */
  lemma SubscribeAnswer(s: Server, ch: Channel, packetId: uint16, items: seq<Item>, o: Orders)
      returns (ds: seq<Delivery>, xs: seq<Pair>)
    requires Inv(s) && Possible(s, Subscribing(ch, packetId, items)) && Traverses(s, o) && ch in s.params
    requires !s.core.stuck && Ends(s, Subscribing(ch, packetId, items), o)
    ensures var s', c := HandleSubscribe(s, ch, packetId, items, o), s.params[ch];
      && c.session in s'.core.heap
      && Gives(s'.tables, c, s'.core.heap[c.session].subs, Names(items, false) + Names(items, true), ds, xs)
      && Batch(s.core.log + [Write(ch, SubackPacket(packetId, Answers(c, items)))], s'.core.log, ds)
  {
    var c := s.params[ch];
    StepEndsIff(s, Subscribing(ch, packetId, items), o);
    ConnectedIndex(s, ch);
    SubscribedGives(s, c, items, o);
    var a, names := Subscribed(s, c, items), Names(items, false) + Names(items, true);
    ds, xs := Retained(a.tables, c, a.plain, a.wilds, o), Pairs(a.tables.exact, names, o.filters, 0);
    SubscribeBatch(s.core, c, Write(ch, SubackPacket(packetId, a.codes)), a, ds, names, xs);
  }

  lemma SubscribeBatch(core: Core, c: Client, w: Write, a: Progress, ds: seq<Delivery>, names: seq<Str>, xs: seq<Pair>)
    requires c.session in core.heap && Gifts(a.tables, c, a.subs, names, 0, ds, xs)
    requires !DeliverAll(Resubscribe(core, c.session, a.subs, w), ds).stuck
    ensures var core' := DeliverAll(Resubscribe(core, c.session, a.subs, w), ds);
      Batch(core.log + [w], core'.log, ds) && c.session in core'.heap && core'.heap[c.session].subs == a.subs
  {
    var core1 := Resubscribe(core, c.session, a.subs, w);
    GiftsReachable(core1, a.tables, c, a.subs, names, ds, xs);
    SentBatch(core1, ds);
    DeliverAllGrows(core1, ds);
    assert SessionGrows(core1.heap[c.session], DeliverAll(core1, ds).heap[c.session]);
  }

  /** The subscriptions a SUBSCRIBE leaves: the last accepted request for each filter, and the others as before. */
  lemma SubscribeGrants(s: Server, ch: Channel, packetId: uint16, items: seq<Item>, o: Orders)
    requires Inv(s) && ch in s.params
    ensures var s', ref := HandleSubscribe(s, ch, packetId, items, o), s.params[ch].session;
      var before, after := SubsOf(s.core, ref), SubsOf(s'.core, ref);
      && (forall i :: 0 <= i < |items| && LastFor(items, i) ==>
        items[i].filter in after && after[items[i].filter] == Sub(items[i].qos, items[i].wild))
      && (forall f :: f in after <==> f in before || Asked(items, f))
      && (forall f :: f in before && !Asked(items, f) ==> after[f] == before[f])
  {
    var c := s.params[ch];
    ClientOf(s, ch);
    var a := Subscribed(s, c, items);
    SubscribeItemsSubs(Progress(s.tables, s.trash, s.core.heap[c.session].subs, [], [], []), c, items);
    var core1 := Resubscribe(s.core, c.session, a.subs, Write(ch, SubackPacket(packetId, a.codes)));
    DeliverAllGrows(core1, Retained(a.tables, c, a.plain, a.wilds, o));
    GrowsSubs(core1, DeliverAll(core1, Retained(a.tables, c, a.plain, a.wilds, o)));
  }

  /** Someone with the right asked for $sys/trash. */
  predicate AsksForTrash(c: Client, items: seq<Item>) {
    c.admin && exists i :: 0 <= i < |items| && items[i].qos < QOS_INVALID && items[i].filter == TRASH
  }

  lemma {:induction false} SubscribeItemsTrash(a: Progress, c: Client, items: seq<Item>)
    ensures SubscribeItems(a, c, items).trash == if AsksForTrash(c, items) then Enter(a.trash, c, 2) else a.trash
    decreases items
  {
    if items != [] {
      SubscribeItemsTrash(SubscribeOne(a, c, items[0]), c, items[1..]);
      TrashStep(c, items);
      assert Enter(Enter(a.trash, c, 2), c, 2) == Enter(a.trash, c, 2);
    }
  }

  lemma TrashStep(c: Client, items: seq<Item>)
    requires items != []
    ensures AsksForTrash(c, items) <==>
      AsksForTrash(c, items[1..]) || (c.admin && items[0].qos < QOS_INVALID && items[0].filter == TRASH)
  {
    if AsksForTrash(c, items) {
      var i :| 0 <= i < |items| && items[i].qos < QOS_INVALID && items[i].filter == TRASH;
      if i > 0 { assert items[1..][i - 1] == items[i]; }
    }
    if AsksForTrash(c, items[1..]) {
      var i :| 0 <= i < |items[1..]| && items[1..][i].qos < QOS_INVALID && items[1..][i].filter == TRASH;
      assert items[i + 1] == items[1..][i];
    }
  }

  /** Only an administrator gets onto $sys/trash, and always with QoS 2. */
  lemma TrashIsForAdmins(s: Server, ch: Channel, packetId: uint16, items: seq<Item>, o: Orders)
    requires Connections(s) && ch in s.params
    ensures HandleSubscribe(s, ch, packetId, items, o).trash ==
      if AsksForTrash(s.params[ch], items) then Enter(s.trash, s.params[ch], 2) else s.trash
  {
    ClientOf(s, ch);
    SubscribeItemsTrash(Progress(s.tables, s.trash, s.core.heap[s.params[ch].session].subs, [], [], []), s.params[ch],
      items);
  }

  // ---------------------------------------------------------------- UNSUBSCRIBE

  predicate IsNamed(names: seq<Named>, f: Str) {
    exists i :: 0 <= i < |names| && names[i].filter == f
  }

  lemma NamedStep(names: seq<Named>, f: Str)
    requires names != []
    ensures IsNamed(names, f) <==> names[0].filter == f || IsNamed(names[1..], f)
  {
    if IsNamed(names, f) {
      var i :| 0 <= i < |names| && names[i].filter == f;
      if i > 0 { assert names[1..][i - 1].filter == f; }
    }
  }

  lemma {:induction false} UnsubscribeNamesForgets(a: Removal, c: Client, names: seq<Named>)
    requires (forall i :: 0 <= i < |names| ==> names[i].wild == HasWildcard(names[i].filter))
      && forall f :: f in a.subs ==> SubOk(f, a.subs[f])
    requires Covered(a.tables, c, a.subs)
    ensures var b := UnsubscribeNames(a, c.id, names);
      && (forall f :: f in b.subs <==> f in a.subs && !IsNamed(names, f))
      && (forall f, w :: Has(b.tables, w, f, c.id).Some? ==> Has(a.tables, w, f, c.id).Some?)
      && (forall f :: IsNamed(names, f) ==> Has(b.tables, HasWildcard(f), f, c.id) == None)
    decreases names
  {
    if names != [] {
      var n, a1 := names[0], UnsubscribeOne(a, c.id, names[0]);
      UnsubscribeOneIndex(a, c, n);
      UnsubscribeOneForgets(a, c, n);
      UnsubscribeNamesForgets(a1, c, names[1..]);
      forall f ensures IsNamed(names, f) <==> n.filter == f || IsNamed(names[1..], f) { NamedStep(names, f); }
    }
  }

  lemma UnsubscribeOneForgets(a: Removal, c: Client, n: Named)
    requires n.wild == HasWildcard(n.filter) && forall f :: f in a.subs ==> SubOk(f, a.subs[f])
    requires Covered(a.tables, c, a.subs)
    ensures var b := UnsubscribeOne(a, c.id, n);
      && (forall f :: f in b.subs <==> f in a.subs && f != n.filter)
      && (forall f, w :: Has(b.tables, w, f, c.id) == if w == n.wild && f == n.filter then None
        else Has(a.tables, w, f, c.id))
  {
    if n.filter in a.subs {
      assert SubOk(n.filter, a.subs[n.filter]);
      assert Says(c, a.subs, n.wild, n.filter).Some?;
      assert Has(a.tables, n.wild, n.filter, c.id) == Says(c, a.subs, n.wild, n.filter);
    }
    if n.filter in Table(a.tables, n.wild) {
      forall w, f ensures Has(Detach(a.tables, c.id, n.filter, n.wild), w, f, c.id) ==
        if w == n.wild && f == n.filter then None else Has(a.tables, w, f, c.id)
      {
        DetachHas(a.tables, c.id, n.filter, n.wild, w, f, c.id);
      }
    }
  }

  /** Main result on UNSUBSCRIBE: the named filters, and only those, are gone from the session, and the
      client is no longer entered under any of them, so no PUBLISH reaches it through one. */
  lemma UnsubscribeForgets(s: Server, ch: Channel, packetId: uint16, names: seq<Named>)
    requires Inv(s) && Possible(s, Unsubscribing(ch, packetId, names)) && ch in s.params
    ensures var s', c := HandleUnsubscribe(s, ch, packetId, names), s.params[ch];
      && s'.core.log == s.core.log + [Write(ch, Unsuback(packetId))]
      && (forall f :: f in SubsOf(s'.core, c.session) <==> f in SubsOf(s.core, c.session) && !IsNamed(names, f))
      && (forall f :: IsNamed(names, f) ==> Has(s'.tables, HasWildcard(f), f, c.id) == None)
  {
    var c := s.params[ch];
    ConnectedIndex(s, ch);
    UnsubscribeNamesForgets(Removal(s.tables, s.core.heap[c.session].subs), c, names);
  }

  // ---------------------------------------------------------------- CONNECT

  /** What registering a client has done by the time the CONNACK is written. */
  ghost predicate Registered(s: Server, s': Server, ch: Channel, l: Login, present: bool) {
    && ch in s'.params && s'.params[ch] == Client(ch, l.id, l.admin, l.clean, l.will, s'.params[ch].session)
    && s'.params == (if l.id in s.clients then s.params - {s.clients[l.id].channel} else s.params)[ch := s'.params[ch]]
    && s'.clients == s.clients[l.id := s'.params[ch]] && s'.sessions == s.sessions[l.id := s'.params[ch].session]
    && s'.trash == s.trash
    && s.core.log + [Write(ch, Connack(present, 0))] <= s'.core.log
    && (present ==> l.id in s.sessions && s'.params[ch].session == s.sessions[l.id])
    && (!present ==>
      s'.params[ch].session !in s.core.heap && s'.core.heap == s.core.heap[s'.params[ch].session := NewSession]
                     && s'.tables == s.tables && s'.core.log == s.core.log + [Write(ch, Connack(false, 0))])
  }

  lemma AdmitRegisters(s: Server, ch: Channel, l: Login)
    requires SessionsOk(s.clients, s.sessions, s.core.heap.Keys) && ch !in s.core.heap
    ensures Registered(s, Admit(Evict(s, l.id), ch, l), ch, l, !l.clean && l.id in s.sessions)
  {
    assert (s.clients - {l.id})[l.id := Admit(Evict(s, l.id), ch, l).params[ch]] ==
      s.clients[l.id := Admit(Evict(s, l.id), ch, l).params[ch]];
  }

  lemma RestoreRegisters(s: Server, s2: Server, ch: Channel, l: Login, o: Orders)
    requires Registered(s, s2, ch, l, true) && s2.params[ch].session in s2.core.heap
    ensures Registered(s, Restore(s2, s2.params[ch], o), ch, l, true)
  {
    RestoreLog(s2, s2.params[ch], o);
  }

  /** A client that is refused is told the code, and nothing but that is done. */
  ghost predicate Refused(s: Server, s': Server, ch: Channel, code: byte) {
    && s'.core.log == s.core.log + [Write(ch, Connack(false, code))] && s'.core.heap == s.core.heap
    && s'.clients == s.clients && s'.sessions == s.sessions && s'.params == s.params && s'.tables == s.tables
    && s'.trash == s.trash && !s'.core.stuck
  }

  /** CONNACK is exact, for every CONNECT. A client that fails a check is told its code, with no session
      present, and nothing is registered. Any other is told 0; a session is reported present iff the stored
      session object of the id goes on being used, and otherwise the session is a new, empty one. */
  lemma ConnackIsExact(s: Server, ch: Channel, l: Login, o: Orders)
    requires Inv(s) && Possible(s, Connecting(ch, l)) && !s.core.stuck
    ensures var s' := Step(s, Connecting(ch, l), o);
      && s'.seen == s.seen + {ch}
      && if l.code != 0 then Refused(s, s', ch, l.code)
         else Registered(s, s', ch, l, !l.clean && l.id in s.sessions)
  {
    if l.code == 0 {
      var s0 := s.(seen := s.seen + {ch});
      AdmitRegisters(s0, ch, l);
      var s2 := Admit(Evict(s0, l.id), ch, l);
      if !l.clean && l.id in s.sessions { RestoreRegisters(s0, s2, ch, l, o); }
    }
  }

  /** From position n on, all that a session has in flight is written again, in list order: its publishes
      with the `dup` field set, and one PUBREL for each identifier that awaits PUBCOMP. */
  predicate Rewritten(log: seq<Write>, n: nat, ch: Channel, ses: SessionState) {
    var a, r, c := |ses.forAck|, |ses.forRec|, |ses.pubcomp|;
    && n + a + r + c <= |log|
    && (forall i :: 0 <= i < a ==> log[n + i] == Write(ch, Forward(ses.forAck[i].(dup := true))))
    && (forall i :: 0 <= i < r ==> log[n + a + i] == Write(ch, Forward(ses.forRec[i].(dup := true))))
    && (forall j :: 0 <= j < c ==> log[n + a + r + j] == Write(ch, Pubrel(ses.pubcomp[j])))
  }

  /** How many packets that takes. */
  function InFlight(ses: SessionState): nat {
    |ses.forAck| + |ses.forRec| + |ses.pubcomp|
  }

  lemma PartAt(before: seq<Write>, part: seq<Write>, log: seq<Write>, i: nat)
    requires before + part <= log && i < |part|
    ensures log[|before| + i] == part[i]
  {
    assert log[|before| + i] == (before + part)[|before| + i];
  }

  lemma ReplayRewrites(log: seq<Write>, log': seq<Write>, ch: Channel, ses: SessionState)
    requires log + Replay(ch, ses) <= log'
    ensures Rewritten(log', |log|, ch, ses) && |Replay(ch, ses)| == InFlight(ses)
  {
    var acks, recs, rels := Publishes(ch, Dup(ses.forAck)), Publishes(ch, Dup(ses.forRec)), Pubrels(ch, ses.pubcomp);
    assert log + Replay(ch, ses) == log + acks + recs + rels;
    forall i | 0 <= i < |acks| ensures log'[|log| + i] == Write(ch, Forward(ses.forAck[i].(dup := true))) {
      PartAt(log, acks, log', i);
    }
    forall i | 0 <= i < |recs|
      ensures log'[|log| + |acks| + i] == Write(ch, Forward(ses.forRec[i].(dup := true)))
    {
      PartAt(log + acks, recs, log', i);
    }
    forall j | 0 <= j < |rels| ensures log'[|log| + |acks| + |recs| + j] == Write(ch, Pubrel(ses.pubcomp[j])) {
      PartAt(log + acks + recs, rels, log', j);
    }
  }

  /** A session object after a replay and some sending: only `dup` has changed in what was recorded, and
      what was sent comes after it. */
  predicate Resumes(a: SessionState, b: SessionState) {
    && b.subs == a.subs && b.pubrel == a.pubrel && b.pubcomp == a.pubcomp
    && |a.forAck| <= |b.forAck| && (forall i :: 0 <= i < |a.forAck| ==> b.forAck[i] == a.forAck[i].(dup := true))
    && |a.forRec| <= |b.forRec| && (forall i :: 0 <= i < |a.forRec| ==> b.forRec[i] == a.forRec[i].(dup := true))
  }

  lemma RestoreLog(s: Server, c: Client, o: Orders)
    requires c.session in s.core.heap
    ensures s.core.log <= Restore(s, c, o).core.log
    ensures Rewritten(Restore(s, c, o).core.log, |s.core.log|, c.channel, s.core.heap[c.session])
  {
    var t := AttachAll(s.tables, c, s.core.heap[c.session].subs, o.subs);
    DeliverAllGrows(ReplayCore(s.core, c), RestoreRetained(t, c, s.core.heap[c.session].subs, o));
    ReplayRewrites(s.core.log, Restore(s, c, o).core.log, c.channel, s.core.heap[c.session]);
  }

  /** The replay comes before the retained messages, so it is written whether or not their sending ends. */
  lemma ReconnectRewrites(s: Server, ch: Channel, l: Login, o: Orders)
    requires !s.core.stuck && Possible(s, Connecting(ch, l))
    requires l.code == 0 && !l.clean && l.id in s.sessions && s.sessions[l.id] in s.core.heap
    ensures var log := Step(s, Connecting(ch, l), o).core.log;
      && s.core.log + [Write(ch, Connack(true, 0))] <= log
      && Rewritten(log, |s.core.log| + 1, ch, s.core.heap[s.sessions[l.id]])
  {
    var s2 := Admit(Evict(s.(seen := s.seen + {ch}), l.id), ch, l);
    RestoreLog(s2, s2.params[ch], o);
  }

  lemma {:induction false} FiltersInExact(subs: map<Str, Sub>, order: seq<Str>, w: bool)
    requires NoDup(order)
    ensures NoDup(FiltersIn(subs, order, w))
    ensures forall f :: f in FiltersIn(subs, order, w) <==> f in order && f in subs && subs[f].wild == w
  {
    if order != [] {
      assert NoDup(order[1..]) && order[0] !in order[1..];
      FiltersInExact(subs, order[1..], w);
      assert forall f :: f in order <==> f == order[0] || f in order[1..];
    }
  }

  /** The subscriptions of a session, plain ones first. */
  function SubNames(subs: map<Str, Sub>, o: Orders): seq<Str> {
    FiltersIn(subs, o.subs, false) + FiltersIn(subs, o.subs, true)
  }

  lemma SubNamesExact(subs: map<Str, Sub>, o: Orders)
    requires NoDup(o.subs) && forall f :: f in subs ==> f in o.subs
    ensures NoDup(SubNames(subs, o)) && forall f :: f in SubNames(subs, o) <==> f in subs
  {
    FiltersInExact(subs, o.subs, false);
    FiltersInExact(subs, o.subs, true);
    NoDupAppend(FiltersIn(subs, o.subs, false), FiltersIn(subs, o.subs, true));
  }

  lemma RestoredEntered(t: Tables, c: Client, subs: map<Str, Sub>, o: Orders, w: bool)
    requires Covered(t, c, subs) && NoDup(o.subs) && forall f :: f in subs ==> SubOk(f, subs[f])
    ensures Entered(t, c, subs, FiltersIn(subs, o.subs, w), w)
  {
    var names := FiltersIn(subs, o.subs, w);
    FiltersInExact(subs, o.subs, w);
    forall k | 0 <= k < |names| ensures names[k] in subs && HasWildcard(names[k]) == w {
      assert names[k] in names;
      assert SubOk(names[k], subs[names[k]]);
    }
    CoveredEntered(t, c, subs, names, w);
  }

  /** The retained messages due after the subscriptions of a session were entered again. */
  lemma RestoredGives(t: Tables, c: Client, subs: map<Str, Sub>, o: Orders, refs: set<Channel>)
    requires TablesOk(t, refs) && c.session in refs && Listed(t, o.filters) && NoDup(o.subs)
    requires forall f :: f in subs ==> SubOk(f, subs[f]) && f in o.subs
    ensures var t' := AttachAll(t, c, subs, o.subs);
      Gives(t', c, subs, SubNames(subs, o), RestoreRetained(t', c, subs, o),
        Pairs(t'.exact, SubNames(subs, o), o.filters, 0))
  {
    var t' := AttachAll(t, c, subs, o.subs);
    RestoredIndex(t, c, subs, o.subs);
    AttachAllOk(t, c, subs, o.subs, refs);
    forall f ensures Kept(t', false, f) == Kept(t, false, f) { AttachAllKept(t, c, subs, o.subs, false, f); }
    RestoredEntered(t', c, subs, o, false);
    RestoredEntered(t', c, subs, o, true);
    RetainedGives(t', c, subs, FiltersIn(subs, o.subs, false), FiltersIn(subs, o.subs, true), o, refs);
  }

  lemma ReplayBatch(core: Core, c: Client, t: Tables, subs: map<Str, Sub>, names: seq<Str>, ds: seq<Delivery>,
      xs: seq<Pair>)
    requires c.session in core.heap && Gifts(t, c, subs, names, 0, ds, xs) && !DeliverAll(ReplayCore(core, c), ds).stuck
    ensures var core' := DeliverAll(ReplayCore(core, c), ds);
      && Batch(core.log + Replay(c.channel, core.heap[c.session]), core'.log, ds)
      && c.session in core'.heap && SessionGrows(Replayed(core.heap[c.session]), core'.heap[c.session])
  {
    var core1 := ReplayCore(core, c);
    GiftsReachable(core1, t, c, subs, names, ds, xs);
    SentBatch(core1, ds);
    DeliverAllGrows(core1, ds);
    assert SessionGrows(core1.heap[c.session], DeliverAll(core1, ds).heap[c.session]);
  }

  lemma RestoreAnswer(s: Server, c: Client, o: Orders) returns (ds: seq<Delivery>, xs: seq<Pair>)
    requires Stored(s) && c.session in s.core.heap && Listed(s.tables, o.filters) && NoDup(o.subs)
    requires forall f :: f in s.core.heap[c.session].subs ==> f in o.subs
    requires !Restore(s, c, o).core.stuck
    ensures var s', ses := Restore(s, c, o), s.core.heap[c.session];
      && Gives(s'.tables, c, ses.subs, SubNames(ses.subs, o), ds, xs)
      && Batch(s.core.log + Replay(c.channel, ses), s'.core.log, ds)
      && c.session in s'.core.heap && Resumes(ses, s'.core.heap[c.session])
  {
    var ses := s.core.heap[c.session];
    var t := AttachAll(s.tables, c, ses.subs, o.subs);
    SessionAt(s.core, c.session, s.core.heap.Keys);
    RestoredGives(s.tables, c, ses.subs, o, s.core.heap.Keys);
    ds, xs := RestoreRetained(t, c, ses.subs, o), Pairs(t.exact, SubNames(ses.subs, o), o.filters, 0);
    ReplayBatch(s.core, c, t, ses.subs, SubNames(ses.subs, o), ds, xs);
    GrowsResumes(ses, Restore(s, c, o).core.heap[c.session]);
  }

  lemma GrowsResumes(a: SessionState, b: SessionState)
    requires SessionGrows(Replayed(a), b)
    ensures Resumes(a, b)
  {
  }

  /** The log after a restored CONNECT, position by position: what is in flight, and then some deliveries. */
  ghost predicate Restarts(before: seq<Write>, log: seq<Write>, ch: Channel, ses: SessionState, ds: seq<Delivery>) {
    var m := |before| + InFlight(ses);
    && before <= log && |log| == m + |ds| && Rewritten(log, |before|, ch, ses)
    && forall i :: 0 <= i < |ds| ==> IsCopy(log[m + i], ds[i])
  }

  lemma BatchRestarts(before: seq<Write>, log: seq<Write>, ch: Channel, ses: SessionState, ds: seq<Delivery>)
    requires Batch(before + Replay(ch, ses), log, ds)
    ensures Restarts(before, log, ch, ses, ds)
  {
    ReplayRewrites(before, log, ch, ses);
  }

  /** Main result on a CONNECT that restores a session: after the CONNACK, every pending publish and one
      PUBREL per pending identifier are rewritten in list order, then exactly the retained messages due for
      the session's subscriptions. Nothing pending is lost; only `dup` changes in what was recorded. */
  lemma ReconnectAnswer(s: Server, ch: Channel, l: Login, o: Orders) returns (ds: seq<Delivery>, xs: seq<Pair>)
    requires Inv(s) && Possible(s, Connecting(ch, l)) && Traverses(s, o)
    requires l.code == 0 && !l.clean && l.id in s.sessions && !s.core.stuck && Ends(s, Connecting(ch, l), o)
    ensures var s', ref := HandleConnect(s, ch, l, o), s.sessions[l.id];
      && ref in s.core.heap && ref in s'.core.heap && ch in s'.params
      && var ses := s.core.heap[ref];
        && NoDup(SubNames(ses.subs, o)) && (forall f :: f in SubNames(ses.subs, o) <==> f in ses.subs)
        && Gives(s'.tables, s'.params[ch], ses.subs, SubNames(ses.subs, o), ds, xs)
        && Restarts(s.core.log + [Write(ch, Connack(true, 0))], s'.core.log, ch, ses, ds)
        && Resumes(ses, s'.core.heap[ref])
  {
    var s1 := Evict(s.(seen := s.seen + {ch}), l.id);
    var s2 := Admit(s1, ch, l);
    StepEndsIff(s, Connecting(ch, l), o);
    AdmitStored(s1, ch, l);
    SubNamesExact(s.core.heap[s.sessions[l.id]].subs, o);
    assert Listed(s2.tables, o.filters);
    ds, xs := RestoreAnswer(s2, s2.params[ch], o);
    BatchRestarts(s2.core.log, HandleConnect(s, ch, l, o).core.log, ch, s.core.heap[s.sessions[l.id]], ds);
  }
}
