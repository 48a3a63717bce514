/** The topic tables as an index: who is entered where, and what subscribing and unsubscribing change. */
module BrokerIndex {
  import opened Basics
  import opened TopicFilter
  import opened Packets
  import opened Sessions
  import opened Broker
  import opened BrokerCore

  /** The entry of client id under filter f in one of the tables. */
  function Has(t: Tables, w: bool, f: Str, id: ClientId): Option<Entry> {
    var m := Table(t, w);
    if f in m && id in m[f].entries then Some(m[f].entries[id]) else None
  }

  lemma AttachHas(t: Tables, c: Client, f: Str, q: byte, w: bool, w': bool, f': Str, id: ClientId)
    ensures Has(Attach(t, c, f, q, w), w', f', id) ==
      if w' == w && f' == f && id == c.id then Some(Entry(c, q)) else Has(t, w', f', id)
  {
  }

  lemma DetachHas(t: Tables, i: ClientId, f: Str, w: bool, w': bool, f': Str, id: ClientId)
    ensures Has(Detach(t, i, f, w), w', f', id) == if w' == w && f' == f && id == i then None else Has(t, w', f', id)
  {
  }

  /** What a session's subscriptions say about filter f in table w. */
  function Says(c: Client, subs: map<Str, Sub>, w: bool, f: Str): Option<Entry> {
    if f in subs && subs[f].wild == w then Some(Entry(c, subs[f].qos)) else None
  }

  lemma {:induction false} AttachAllHas(t: Tables, c: Client, subs: map<Str, Sub>, order: seq<Str>, w: bool, f: Str,
      id: ClientId)
    ensures Has(AttachAll(t, c, subs, order), w, f, id) ==
      if id == c.id && f in order && Says(c, subs, w, f).Some? then Says(c, subs, w, f) else Has(t, w, f, id)
    decreases order
  {
    if order != [] {
      var g := order[0];
      var t' := if g in subs then Attach(t, c, g, subs[g].qos, subs[g].wild) else t;
      AttachAllHas(t', c, subs, order[1..], w, f, id);
      if g in subs { AttachHas(t, c, g, subs[g].qos, subs[g].wild, w, f, id); }
    }
  }

  lemma {:induction false} DetachAllHas(t: Tables, i: ClientId, subs: map<Str, Sub>, order: seq<Str>, w: bool, f: Str,
      id: ClientId)
    ensures Has(DetachAll(t, i, subs, order), w, f, id) ==
      if id == i && f in order && f in subs && subs[f].wild == w then None else Has(t, w, f, id)
    decreases order
  {
    if order != [] {
      var g := order[0];
      var t' := if g in subs then Detach(t, i, g, subs[g].wild) else t;
      DetachAllHas(t', i, subs, order[1..], w, f, id);
      if g in subs { DetachHas(t, i, g, subs[g].wild, w, f, id); }
    }
  }

  // ---------------------------------------------------------------- one client against its subscriptions

  predicate Accepted(i: Item) {
    i.qos < QOS_INVALID && (i.filter == [] || i.filter[0] != DOLLAR)
  }

  /** Every subscription has its entry. */
  ghost predicate Covered(t: Tables, c: Client, subs: map<Str, Sub>) {
    forall w, f :: Says(c, subs, w, f).Some? ==> Has(t, w, f, c.id) == Says(c, subs, w, f)
  }

  /** The entries of the client are exactly its subscriptions. */
  ghost predicate Exact(t: Tables, c: Client, subs: map<Str, Sub>) {
    forall w, f :: Has(t, w, f, c.id) == Says(c, subs, w, f)
  }

  lemma SubscribeOneIndex(a: Progress, c: Client, item: Item)
    requires Decoded(item) && forall f :: f in a.subs ==> SubOk(f, a.subs[f])
    requires Covered(a.tables, c, a.subs)
    ensures var b := SubscribeOne(a, c, item);
      && (forall f :: f in b.subs ==> SubOk(f, b.subs[f]))
      && Covered(b.tables, c, b.subs)
      && (forall w, f, id :: id != c.id ==> Has(b.tables, w, f, id) == Has(a.tables, w, f, id))
  {
    var b := SubscribeOne(a, c, item);
    if b.tables != a.tables || b.subs != a.subs {
      forall w, f, id ensures Has(b.tables, w, f, id) ==
        if w == item.wild && f == item.filter && id == c.id then Some(Entry(c, item.qos)) else Has(a.tables, w, f, id)
      {
        AttachHas(a.tables, c, item.filter, item.qos, item.wild, w, f, id);
      }
      forall w, f ensures Says(c, b.subs, w, f) ==
        if w == item.wild && f == item.filter then Some(Entry(c, item.qos)) else Says(c, a.subs, w, f)
      {
        if f == item.filter && f in a.subs { assert SubOk(f, a.subs[f]); }
      }
    }
  }

  lemma {:induction false} SubscribeItemsIndex(a: Progress, c: Client, items: seq<Item>)
    requires (forall i :: 0 <= i < |items| ==> Decoded(items[i])) && forall f :: f in a.subs ==> SubOk(f, a.subs[f])
    requires Covered(a.tables, c, a.subs)
    ensures var b := SubscribeItems(a, c, items);
      && (forall f :: f in b.subs ==> SubOk(f, b.subs[f]))
      && Covered(b.tables, c, b.subs)
      && (forall w, f, id :: id != c.id ==> Has(b.tables, w, f, id) == Has(a.tables, w, f, id))
    decreases items
  {
    if items != [] {
      SubscribeOneIndex(a, c, items[0]);
      SubscribeItemsIndex(SubscribeOne(a, c, items[0]), c, items[1..]);
    }
  }

  lemma UnsubscribeOneIndex(a: Removal, c: Client, n: Named)
    requires n.wild == HasWildcard(n.filter) && forall f :: f in a.subs ==> SubOk(f, a.subs[f])
    requires Covered(a.tables, c, a.subs)
    ensures var b := UnsubscribeOne(a, c.id, n);
      && (forall f :: f in b.subs ==> f in a.subs && b.subs[f] == a.subs[f])
      && Covered(b.tables, c, b.subs)
      && (forall w, f, id :: id != c.id ==> Has(b.tables, w, f, id) == Has(a.tables, w, f, id))
  {
    var b := UnsubscribeOne(a, c.id, n);
    if n.filter in Table(a.tables, n.wild) {
      forall w, f, id ensures Has(b.tables, w, f, id) ==
        if w == n.wild && f == n.filter && id == c.id then None else Has(a.tables, w, f, id)
      {
        DetachHas(a.tables, c.id, n.filter, n.wild, w, f, id);
      }
      forall w, f ensures Says(c, b.subs, w, f) == if f == n.filter then None else Says(c, a.subs, w, f) {
      }
      forall w | w != n.wild ensures Says(c, a.subs, w, n.filter) == None {
        if n.filter in a.subs { assert SubOk(n.filter, a.subs[n.filter]); }
      }
    }
  }

  lemma {:induction false} UnsubscribeNamesIndex(a: Removal, c: Client, names: seq<Named>)
    requires (forall i :: 0 <= i < |names| ==> names[i].wild == HasWildcard(names[i].filter))
      && forall f :: f in a.subs ==> SubOk(f, a.subs[f])
    requires Covered(a.tables, c, a.subs)
    ensures var b := UnsubscribeNames(a, c.id, names);
      && (forall f :: f in b.subs ==> f in a.subs && b.subs[f] == a.subs[f])
      && Covered(b.tables, c, b.subs)
      && (forall w, f, id :: id != c.id ==> Has(b.tables, w, f, id) == Has(a.tables, w, f, id))
    decreases names
  {
    if names != [] {
      UnsubscribeOneIndex(a, c, names[0]);
      UnsubscribeNamesIndex(UnsubscribeOne(a, c.id, names[0]), c, names[1..]);
    }
  }

  /** Keeping a retained message leaves every entry as it is. */
  lemma KeepsHas(t: Tables, p: Publish, w: bool, f: Str, id: ClientId)
    ensures Has(Tables(KeepExact(t.exact, p), KeepMatching(t.wild, p)), w, f, id) == Has(t, w, f, id)
    ensures Has(t.(exact := KeepExact(t.exact, p)), w, f, id) == Has(t, w, f, id)
  {
  }

  // ---------------------------------------------------------------- well-formed tables

  ghost predicate TopicOk(topic: Topic, refs: set<Channel>) {
    && (forall id :: id in topic.entries ==>
      topic.entries[id].client.id == id && topic.entries[id].client.session in refs && topic.entries[id].qos <= 2)
    && (topic.retained.Some? ==> Fits(topic.retained.value))
  }

  /** Table separation: wildcard-free filters in one table, valid wildcard filters in the other. */
  ghost predicate TableOk(m: map<Str, Topic>, wild: bool, refs: set<Channel>) {
    forall f :: f in m ==>
      TopicFilterOk(f) && HasWildcard(f) == wild && TopicOk(m[f], refs)
        && (!wild && m[f].retained.Some? ==> m[f].retained.value.topic == f)
  }

  ghost predicate TablesOk(t: Tables, refs: set<Channel>) {
    TableOk(t.exact, false, refs) && TableOk(t.wild, true, refs)
  }

  lemma SetTopicOk(m: map<Str, Topic>, w: bool, f: Str, topic: Topic, refs: set<Channel>)
    requires TableOk(m, w, refs) && TopicFilterOk(f) && HasWildcard(f) == w && TopicOk(topic, refs)
    requires !w && topic.retained.Some? ==> topic.retained.value.topic == f
    ensures TableOk(m[f := topic], w, refs)
  {
  }

  lemma EnterOk(topic: Topic, c: Client, q: byte, refs: set<Channel>)
    requires TopicOk(topic, refs) && q <= 2 && c.session in refs
    ensures TopicOk(Enter(topic, c, q), refs)
  {
  }

  lemma AttachOk(t: Tables, c: Client, f: Str, q: byte, w: bool, refs: set<Channel>)
    requires TablesOk(t, refs) && TopicFilterOk(f) && w == HasWildcard(f) && q <= 2 && c.session in refs
    ensures TablesOk(Attach(t, c, f, q, w), refs)
  {
    var m := Table(t, w);
    assert TableOk(m, w, refs);
    assert TopicOk(TopicOr(m, f), refs);
    EnterOk(TopicOr(m, f), c, q, refs);
    SetTopicOk(m, w, f, Enter(TopicOr(m, f), c, q), refs);
  }

  lemma DetachOk(t: Tables, id: ClientId, f: Str, w: bool, refs: set<Channel>)
    requires TablesOk(t, refs)
    ensures TablesOk(Detach(t, id, f, w), refs)
  {
    var m := Table(t, w);
    if f in m {
      assert TableOk(m, w, refs) && TopicOk(m[f], refs);
      assert TopicOk(Leave(m[f], id), refs);
      SetTopicOk(m, w, f, Leave(m[f], id), refs);
    }
  }

  lemma {:induction false} AttachAllOk(t: Tables, c: Client, subs: map<Str, Sub>, order: seq<Str>, refs: set<Channel>)
    requires TablesOk(t, refs) && c.session in refs && forall f :: f in subs ==> SubOk(f, subs[f])
    ensures TablesOk(AttachAll(t, c, subs, order), refs)
    decreases order
  {
    if order != [] {
      var g := order[0];
      if g in subs { AttachOk(t, c, g, subs[g].qos, subs[g].wild, refs); }
      AttachAllOk(if g in subs then Attach(t, c, g, subs[g].qos, subs[g].wild) else t, c, subs, order[1..], refs);
    }
  }

  lemma {:induction false} DetachAllOk(t: Tables, id: ClientId, subs: map<Str, Sub>, order: seq<Str>,
      refs: set<Channel>)
    requires TablesOk(t, refs)
    ensures TablesOk(DetachAll(t, id, subs, order), refs)
    decreases order
  {
    if order != [] {
      var g := order[0];
      if g in subs { DetachOk(t, id, g, subs[g].wild, refs); }
      DetachAllOk(if g in subs then Detach(t, id, g, subs[g].wild) else t, id, subs, order[1..], refs);
    }
  }

  lemma SubscribeOneOk(a: Progress, c: Client, item: Item, refs: set<Channel>)
    requires TablesOk(a.tables, refs) && TopicOk(a.trash, refs) && Decoded(item) && c.session in refs
    ensures TablesOk(SubscribeOne(a, c, item).tables, refs) && TopicOk(SubscribeOne(a, c, item).trash, refs)
  {
    if item.qos < QOS_INVALID && item.filter[0] != DOLLAR {
      AttachOk(a.tables, c, item.filter, item.qos, item.wild, refs);
    }
  }

  lemma {:induction false} SubscribeItemsOk(a: Progress, c: Client, items: seq<Item>, refs: set<Channel>)
    requires TablesOk(a.tables, refs) && TopicOk(a.trash, refs) && c.session in refs
    requires forall i :: 0 <= i < |items| ==> Decoded(items[i])
    ensures TablesOk(SubscribeItems(a, c, items).tables, refs) && TopicOk(SubscribeItems(a, c, items).trash, refs)
    decreases items
  {
    if items != [] {
      SubscribeOneOk(a, c, items[0], refs);
      SubscribeItemsOk(SubscribeOne(a, c, items[0]), c, items[1..], refs);
    }
  }

  lemma {:induction false} UnsubscribeNamesOk(a: Removal, id: ClientId, names: seq<Named>, refs: set<Channel>)
    requires TablesOk(a.tables, refs)
    ensures TablesOk(UnsubscribeNames(a, id, names).tables, refs)
    decreases names
  {
    if names != [] {
      DetachOk(a.tables, id, names[0].filter, names[0].wild, refs);
      UnsubscribeNamesOk(UnsubscribeOne(a, id, names[0]), id, names[1..], refs);
    }
  }

  lemma KeepsOk(t: Tables, p: Publish, refs: set<Channel>)
    requires TablesOk(t, refs) && Fits(p)
    ensures TablesOk(Tables(KeepExact(t.exact, p), KeepMatching(t.wild, p)), refs)
    ensures TablesOk(t.(exact := KeepExact(t.exact, p)), refs)
  {
    forall f | f in t.exact ensures TopicOk(Keep(t.exact[f], p), refs) { KeepOk(t.exact[f], p, refs); }
    forall f | f in t.wild ensures TopicOk(Keep(t.wild[f], p), refs) { KeepOk(t.wild[f], p, refs); }
    assert TableOk(KeepExact(t.exact, p), false, refs);
    assert TableOk(KeepMatching(t.wild, p), true, refs);
  }

  lemma KeepOk(topic: Topic, p: Publish, refs: set<Channel>)
    requires TopicOk(topic, refs) && Fits(p)
    ensures TopicOk(Keep(topic, p), refs)
  {
  }

  /** More session objects never hurt. */
  lemma MoreRefs(t: Tables, trash: Topic, refs: set<Channel>, more: set<Channel>)
    requires TablesOk(t, refs) && TopicOk(trash, refs) && refs <= more
    ensures TablesOk(t, more) && TopicOk(trash, more)
  {
    forall f | f in t.exact ensures TopicOk(t.exact[f], more) { assert TopicOk(t.exact[f], refs); }
    forall f | f in t.wild ensures TopicOk(t.wild[f], more) { assert TopicOk(t.wild[f], refs); }
  }

  // ---------------------------------------------------------------- deliveries come from entries

  /** Every delivery of one topic goes to an entry of it. */
  lemma {:induction false} TopicDeliveriesSound(topic: Topic, ids: seq<ClientId>, p: Publish, refs: set<Channel>)
    requires TopicOk(topic, refs) && Fits(p)
    ensures forall i :: 0 <= i < |TopicDeliveries(topic, ids, p)| ==>
      Sound(TopicDeliveries(topic, ids, p)[i]) && TopicDeliveries(topic, ids, p)[i].client.session in refs
  {
    if ids != [] { TopicDeliveriesSound(topic, ids[1..], p, refs); }
  }

  lemma {:induction false} WildDeliveriesSound(wild: map<Str, Topic>, filters: seq<Str>, ids: seq<ClientId>, p: Publish,
      refs: set<Channel>)
    requires TableOk(wild, true, refs) && Fits(p)
    ensures forall i :: 0 <= i < |WildDeliveries(wild, filters, ids, p)| ==>
      Sound(WildDeliveries(wild, filters, ids, p)[i]) && WildDeliveries(wild, filters, ids, p)[i].client.session in refs
  {
    if filters != [] {
      WildDeliveriesSound(wild, filters[1..], ids, p, refs);
      if filters[0] in wild { TopicDeliveriesSound(wild[filters[0]], ids, p, refs); }
    }
  }

  lemma FanOutSound(t: Tables, p: Publish, o: Orders, refs: set<Channel>)
    requires TablesOk(t, refs) && Fits(p)
    ensures forall i :: 0 <= i < |FanOut(t, p, o)| ==>
      Sound(FanOut(t, p, o)[i]) && FanOut(t, p, o)[i].client.session in refs
  {
    assert TopicOk(NewTopic, refs);
    TopicDeliveriesSound(TopicOr(t.exact, p.topic), o.ids, p, refs);
    WildDeliveriesSound(t.wild, o.filters, o.ids, p, refs);
  }

  ghost predicate AllTo(ds: seq<Delivery>, c: Client) {
    forall i :: 0 <= i < |ds| ==> Sound(ds[i]) && ds[i].client == c && ds[i].retain
  }

  lemma {:induction false} RetainedExactSound(t: Tables, c: Client, names: seq<Str>, refs: set<Channel>)
    requires TablesOk(t, refs)
    ensures AllTo(RetainedExact(t, c, names), c)
  {
    if names != [] { RetainedExactSound(t, c, names[1..], refs); }
  }

  lemma {:induction false} RetainedMatchingSound(exact: map<Str, Topic>, c: Client, w: Str, q: byte, filters: seq<Str>,
      refs: set<Channel>)
    requires TableOk(exact, false, refs) && q <= 2
    ensures AllTo(RetainedMatching(exact, c, w, q, filters), c)
  {
    if filters != [] { RetainedMatchingSound(exact, c, w, q, filters[1..], refs); }
  }

  lemma {:induction false} RetainedWildSound(t: Tables, c: Client, names: seq<Str>, filters: seq<Str>,
      refs: set<Channel>)
    requires TablesOk(t, refs)
    ensures AllTo(RetainedWild(t, c, names, filters), c)
  {
    if names != [] {
      RetainedWildSound(t, c, names[1..], filters, refs);
      var topic := TopicOr(t.wild, names[0]);
      if c.id in topic.entries { RetainedMatchingSound(t.exact, c, names[0], topic.entries[c.id].qos, filters, refs); }
    }
  }

  lemma RetainedSound(t: Tables, c: Client, plain: seq<Str>, wilds: seq<Str>, o: Orders, refs: set<Channel>)
    requires TablesOk(t, refs)
    ensures AllTo(Retained(t, c, plain, wilds, o), c)
  {
    RetainedExactSound(t, c, plain, refs);
    RetainedWildSound(t, c, wilds, o.filters, refs);
  }
}
