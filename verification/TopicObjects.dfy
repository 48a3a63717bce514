/**
  Topics as objects, and the two tables of them: clients entered and taken out, retained messages
  replaced, and the loops that send to all of a topic's clients.
 */
module TopicObjects {
  import opened Basics
  import opened TopicFilter
  import opened Packets
  import opened Sessions
  import opened Outlets
  import B = Broker
  import BrokerCore

  // ---------------------------------------------------------------- topics

  /** The part of a topic's deliveries that goes to the first n ids. */
  lemma DeliveriesStep(topic: B.Topic, ids: seq<B.ClientId>, n: nat, p: Publish)
    requires n < |ids|
    ensures var e := topic.entries;
      B.TopicDeliveries(topic, ids[..n + 1], p) ==
        if ids[n] in e then B.TopicDeliveries(topic, ids[..n], p) +
          [B.Delivery(e[ids[n]].client, e[ids[n]].qos, false, p)]
        else B.TopicDeliveries(topic, ids[..n], p)
    decreases n
  {
    if n > 0 {
      assert ids[..n + 1][1..] == ids[1..][..n] && ids[..n][1..] == ids[1..][..n - 1];
      DeliveriesStep(topic, ids[1..], n - 1, p);
    }
  }

  lemma DeliveriesOfEntries(a: B.Topic, b: B.Topic, ids: seq<B.ClientId>, p: Publish)
    requires a.entries == b.entries
    ensures B.TopicDeliveries(a, ids, p) == B.TopicDeliveries(b, ids, p)
  {
  }

  class Topic {
    const filter: Str
    var entries: map<B.ClientId, B.Entry>
    var retained: Option<Publish>

    ghost function Value(): B.Topic
      reads this
    {
      B.Topic(entries, retained)
    }

    constructor (filter: Str)
      ensures this.filter == filter && Value() == B.NewTopic
    {
      this.filter, entries, retained := filter, map[], None;
    }

    method IsEmpty() returns (r: bool)
      ensures r == B.Empty(Value())
    {
      r := retained.None? && entries == map[];
    }

    method SetRetainedMessage(p: Publish)
      modifies this`retained
      ensures Value() == old(Value()).(retained := if p.payload == [] then None else Some(p))
    {
      if p.payload == [] {
        retained := None;
      } else {
        retained := Some(p);
      }
    }

    method Subscribe(c: B.Client, maxQos: byte)
      modifies this`entries
      ensures Value() == B.Enter(old(Value()), c, maxQos)
    {
      entries := entries - {c.id};
      entries := entries[c.id := B.Entry(c, maxQos)];
      assert entries == old(entries)[c.id := B.Entry(c, maxQos)];
    }

    method Unsubscribe(id: B.ClientId)
      modifies this`entries
      ensures Value() == B.Leave(old(Value()), id)
    {
      entries := entries - {id};
    }

    /** `topic::publish`: keep a retained message, then a copy to every client. */
    method Publish(net: Outlet, p: Publish, ids: seq<B.ClientId>) returns (sent: bool)
      requires net.Valid() && entries.Keys <= (set id | id in ids)
      modifies this`retained, net`log, net`stuck, net.objects
      ensures Value() == B.Keep(old(Value()), p)
      ensures net.Valid() && net.heap == old(net.heap)
      ensures net.Value() == B.DeliverAll(old(net.Value()), B.TopicDeliveries(old(Value()), ids, p))
      ensures sent <==> entries != map[]
    {
      if p.retain {
        SetRetainedMessage(p);
      }
      sent := SendToAll(net, p, ids);
      DeliveriesOfEntries(Value(), old(Value()), ids, p);
    }

    method SendToAll(net: Outlet, p: Publish, ids: seq<B.ClientId>) returns (sent: bool)
      requires net.Valid() && entries.Keys <= (set id | id in ids)
      modifies net`log, net`stuck, net.objects
      ensures net.Valid() && net.heap == old(net.heap)
      ensures net.Value() == B.DeliverAll(old(net.Value()), B.TopicDeliveries(Value(), ids, p))
      ensures sent <==> entries != map[]
    {
      sent := false;
      for n := 0 to |ids|
        invariant net.Valid() && net.heap == old(net.heap)
        invariant net.Value() == B.DeliverAll(old(net.Value()), B.TopicDeliveries(Value(), ids[..n], p))
        invariant sent <==> exists i :: 0 <= i < n && ids[i] in entries
      {
        ghost var ds := B.TopicDeliveries(Value(), ids[..n], p);
        DeliveriesStep(Value(), ids, n, p);
        if ids[n] in entries {
          BrokerCore.DeliverAllMore(old(net.Value()), ds,
            B.Delivery(entries[ids[n]].client, entries[ids[n]].qos, false, p));
          net.Publish(entries[ids[n]].client, entries[ids[n]].qos, false, p);
          sent := true;
        }
      }
      assert ids[..|ids|] == ids;
      if entries != map[] {
        var id :| id in entries;
        assert id in ids;
      }
    }

    /** `topic::publish_retained`: only to a client that is subscribing, with the QoS the topic has for it. */
    method PublishRetained(net: Outlet, c: B.Client, p: Publish) returns (ok: bool)
      requires net.Valid()
      modifies net`log, net`stuck, net.objects
      ensures net.Valid() && net.heap == old(net.heap) && (ok <==> c.id in entries)
      ensures net.Value() == if ok then B.Deliver(old(net.Value()), B.Delivery(c, entries[c.id].qos, true, p))
        else old(net.Value())
    {
      ok := c.id in entries;
      if ok {
        net.Publish(c, entries[c.id].qos, true, p);
      }
    }
  }

  lemma SetTwice<K, V>(m: map<K, V>, k: K, a: V, b: V)
    ensures m[k := a][k := b] == m[k := b]
  {
  }

  /** One of the two maps from filters to topics. */
  class TopicTable {
    var topics: map<Str, Topic>
    ghost var objects: set<Topic>

    /** No topic object stands under two filters. */
    ghost predicate Valid()
      reads this
    {
      (forall f :: f in topics ==> topics[f] in objects)
        && forall f, g :: f in topics && g in topics && f != g ==> topics[f] != topics[g]
    }

    ghost function Value(): map<Str, B.Topic>
      reads this, objects
      requires Valid()
    {
      map f | f in topics :: topics[f].Value()
    }

    constructor ()
      ensures Valid() && objects == {} && Value() == map[]
    {
      topics, objects := map[], {};
    }

    /** One topic object changed and the others did not. */
    twostate lemma OneChanged(f: Str)
      requires topics == old(topics) && objects == old(objects) && old(Valid()) && f in topics
      requires forall g :: g in topics && topics[g] != topics[f] ==> topics[g].Value() == old(topics[g].Value())
      ensures Value() == old(Value())[f := topics[f].Value()]
    {
    }

    /** `get_topic_ptr_to_subscribe`. */
    method GetToSubscribe(f: Str) returns (t: Topic)
      requires Valid()
      modifies this`topics, this`objects
      ensures Valid() && f in topics && topics[f] == t && if f in old(topics) then topics == old(topics) else fresh(t)
      ensures forall u :: u in objects ==> u in old(objects) || fresh(u)
      ensures Value() == old(Value())[f := B.TopicOr(old(Value()), f)]
    {
      if f in topics {
        t := topics[f];
      } else {
        t := new Topic(f);
        topics, objects := topics[f := t], objects + {t};
      }
      assert t.Value() == B.TopicOr(old(Value()), f);
    }

    method EnterAt(f: Str, c: B.Client, maxQos: byte)
      requires Valid() && f in topics
      modifies objects
      ensures Valid() && topics == old(topics) && Value() == old(Value())[f := B.Enter(old(Value())[f], c, maxQos)]
    {
      topics[f].Subscribe(c, maxQos);
      OneChanged(f);
    }

    /** Finding or making the topic, and entering the client. */
    method Subscribe(f: Str, c: B.Client, maxQos: byte)
      requires Valid()
      modifies this`topics, this`objects, objects
      ensures Valid() && forall t :: t in objects ==> t in old(objects) || fresh(t)
      ensures Value() == old(Value())[f := B.Enter(B.TopicOr(old(Value()), f), c, maxQos)]
    {
      var t := GetToSubscribe(f);
      ghost var found := Value();
      EnterAt(f, c, maxQos);
      SetTwice(old(Value()), f, B.TopicOr(old(Value()), f), B.Enter(found[f], c, maxQos));
    }

    method LeaveAt(f: Str, id: B.ClientId)
      requires Valid() && f in topics
      modifies objects
      ensures Valid() && topics == old(topics) && Value() == old(Value())[f := B.Leave(old(Value())[f], id)]
    {
      topics[f].Unsubscribe(id);
      OneChanged(f);
    }

    method Erase(f: Str)
      requires Valid()
      modifies this`topics
      ensures Valid() && topics == old(topics) - {f} && Value() == old(Value()) - {f}
    {
      topics := topics - {f};
    }

    /** Taking the client out, and the topic with it when that leaves it empty. */
    method Unsubscribe(f: Str, id: B.ClientId) returns (found: bool)
      requires Valid()
      modifies this`topics, objects
      ensures Valid() && found == (f in old(topics))
      ensures Value() == if !found then old(Value())
                         else if B.Empty(B.Leave(old(Value())[f], id)) then old(Value()) - {f}
                         else old(Value())[f := B.Leave(old(Value())[f], id)]
    {
      found := f in topics;
      if found {
        LeaveAt(f, id);
        ghost var left := Value();
        var none := topics[f].IsEmpty();
        if none {
          Erase(f);
          assert left - {f} == old(Value()) - {f};
        }
      }
    }

    /** Publishing to one topic of the table. */
    method PublishTo(f: Str, net: Outlet, p: Publish, ids: seq<B.ClientId>) returns (sent: bool)
      requires Valid() && net.Valid() && f in topics && forall id :: id in Value()[f].entries ==> id in ids
      modifies objects, net`log, net`stuck, net.objects
      ensures Valid() && topics == old(topics) && Value() == old(Value())[f := B.Keep(old(Value())[f], p)]
      ensures net.Valid() && net.heap == old(net.heap)
      ensures net.Value() == B.DeliverAll(old(net.Value()), B.TopicDeliveries(old(Value())[f], ids, p))
      ensures sent <==> old(Value())[f].entries != map[]
    {
      assert Value()[f] == topics[f].Value();
      sent := topics[f].Publish(net, p, ids);
      OneChanged(f);
    }

    method RetainedMessage(f: Str) returns (r: Option<Publish>)
      requires Valid()
      ensures r == B.TopicOr(Value(), f).retained
    {
      if f in topics {
        assert Value()[f] == topics[f].Value();
        r := topics[f].retained;
      } else {
        r := None;
      }
    }

    /** A retained message through the topic under which the client is entered. */
    method PublishRetained(f: Str, net: Outlet, c: B.Client, p: Publish)
      requires Valid() && net.Valid() && f in Value() && c.id in Value()[f].entries
      modifies net`log, net`stuck, net.objects
      ensures Valid() && Value() == old(Value()) && net.Valid() && net.heap == old(net.heap)
      ensures net.Value() == B.Deliver(old(net.Value()), B.Delivery(c, old(Value())[f].entries[c.id].qos, true, p))
    {
      assert Value()[f] == topics[f].Value();
      var ok := topics[f].PublishRetained(net, c, p);
    }

    /** The lookup of one topic, and publishing to it. */
    method PublishExact(net: Outlet, p: Publish, ids: seq<B.ClientId>) returns (sent: bool)
      requires Valid() && net.Valid() && forall id :: id in B.TopicOr(Value(), p.topic).entries ==> id in ids
      modifies objects, net`log, net`stuck, net.objects
      ensures Valid() && topics == old(topics) && Value() == B.KeepExact(old(Value()), p)
      ensures net.Valid() && net.heap == old(net.heap)
      ensures net.Value() == B.DeliverAll(old(net.Value()), B.TopicDeliveries(B.TopicOr(old(Value()), p.topic), ids, p))
      ensures sent <==> B.TopicOr(old(Value()), p.topic).entries != map[]
    {
      sent := false;
      if p.topic in topics {
        assert p.topic in Value();
        sent := PublishTo(p.topic, net, p, ids);
      } else {
        NoDeliveries(ids, p);
      }
    }

    /** The scan of the wildcard table. */
    method PublishMatching(net: Outlet, p: Publish, o: B.Orders, already: bool) returns (sent: bool)
      requires Valid() && net.Valid() && NoDup(o.filters) && Lists(Value(), o)
      modifies objects, net`log, net`stuck, net.objects
      ensures Valid() && topics == old(topics) && Value() == B.KeepMatching(old(Value()), p)
      ensures net.Valid() && net.heap == old(net.heap)
      ensures net.Value() == B.DeliverAll(old(net.Value()), B.WildDeliveries(old(Value()), o.filters, o.ids, p))
      ensures sent == B.Sent(old(Value()), o.filters, p, already)
    {
      sent := already;
      ghost var was, core := Value(), net.Value();
      for n := 0 to |o.filters|
        invariant Valid() && topics == old(topics) && net.Valid() && net.heap == old(net.heap)
        invariant Scanned(was, core, o, n, p, already, Value(), net.Value(), sent)
      {
        ghost var v, core1, sent1 := Value(), net.Value(), sent;
        KeptEntries(was, o, n, p, o.filters[n]);
        sent := PublishIfMatching(o.filters[n], net, p, o.ids, sent);
        ScannedStep(was, core, o, n, p, already, v, core1, sent1, Value(), net.Value(), sent);
      }
      ScannedAll(was, core, o, p, already, Value(), net.Value(), sent);
    }

    method PublishIfMatching(f: Str, net: Outlet, p: Publish, ids: seq<B.ClientId>, before: bool) returns (sent: bool)
      requires Valid() && net.Valid() && ListsAt(Value(), f, ids)
      modifies objects, net`log, net`stuck, net.objects
      ensures Valid() && topics == old(topics) && net.Valid() && net.heap == old(net.heap)
      ensures PublishedTo(f, p, ids, old(Value()), old(net.Value()), before, Value(), net.Value(), sent)
    {
      sent := before;
      if f in topics {
        var hit := Match(f, p.topic);
        if hit {
          sent := PublishTo(f, net, p, ids);
        }
      }
    }
  }

  ghost predicate ListsAt(m: map<Str, B.Topic>, f: Str, ids: seq<B.ClientId>) {
    f in m ==> forall id :: id in m[f].entries ==> id in ids
  }

  /** The traversal visits every topic of the table and every client entered in one. */
  ghost predicate Lists(m: map<Str, B.Topic>, o: B.Orders) {
    forall f :: f in m ==> f in o.filters && ListsAt(m, f, o.ids)
  }

  lemma KeptEntries(m: map<Str, B.Topic>, o: B.Orders, n: nat, p: Publish, f: Str)
    requires n <= |o.filters| && Lists(m, o)
    ensures ListsAt(KeptUpTo(m, o.filters, n, p), f, o.ids)
  {
    if f in m { assert ListsAt(m, f, o.ids); }
  }

  /** What one turn of the scan does. */
  ghost predicate PublishedTo(f: Str, p: Publish, ids: seq<B.ClientId>, m: map<Str, B.Topic>, core: B.Core, sent: bool,
                              m': map<Str, B.Topic>, core': B.Core, sent': bool) {
    if f in m && Scan(f, p.topic) then
      m' == m[f := B.Keep(m[f], p)] && core' == B.DeliverAll(core, B.TopicDeliveries(m[f], ids, p))
        && sent' == (m[f].entries != map[])
    else m' == m && core' == core && sent' == sent
  }

  /** Where the scan stands after n filters. */
  ghost predicate Scanned(was: map<Str, B.Topic>, core: B.Core, o: B.Orders, n: nat, p: Publish, already: bool,
                          now: map<Str, B.Topic>, core': B.Core, sent: bool)
    requires n <= |o.filters|
  {
    && now == KeptUpTo(was, o.filters, n, p)
    && core' == B.DeliverAll(core, B.WildDeliveries(was, o.filters[..n], o.ids, p))
    && sent == B.Sent(was, o.filters[..n], p, already)
  }

  lemma ScannedStep(was: map<Str, B.Topic>, core: B.Core, o: B.Orders, n: nat, p: Publish, already: bool,
                    m: map<Str, B.Topic>, core1: B.Core, sent1: bool, m2: map<Str, B.Topic>, core2: B.Core, sent2: bool)
    requires n < |o.filters| && NoDup(o.filters) && Scanned(was, core, o, n, p, already, m, core1, sent1)
    requires PublishedTo(o.filters[n], p, o.ids, m, core1, sent1, m2, core2, sent2)
    ensures Scanned(was, core, o, n + 1, p, already, m2, core2, sent2)
  {
    var f := o.filters[n];
    WildStep(was, o.filters, n, o.ids, p, already);
    KeptStep(was, o.filters, n, p);
    assert f in m <==> f in was;
    if f in was && Scan(f, p.topic) {
      BrokerCore.DeliverAllAppend(core, B.WildDeliveries(was, o.filters[..n], o.ids, p),
        B.TopicDeliveries(was[f], o.ids, p));
    }
  }

  lemma ScannedAll(was: map<Str, B.Topic>, core: B.Core, o: B.Orders, p: Publish, already: bool,
                   now: map<Str, B.Topic>, core': B.Core, sent: bool)
    requires Scanned(was, core, o, |o.filters|, p, already, now, core', sent) && Lists(was, o)
    ensures now == B.KeepMatching(was, p)
    ensures core' == B.DeliverAll(core, B.WildDeliveries(was, o.filters, o.ids, p))
      && sent == B.Sent(was, o.filters, p, already)
  {
    assert o.filters[..|o.filters|] == o.filters;
  }

  /** The wildcard table when the first n filters have been scanned. */
  ghost function KeptUpTo(m: map<Str, B.Topic>, filters: seq<Str>, n: nat, p: Publish): map<Str, B.Topic>
    requires n <= |filters|
  {
    map f | f in m :: if f in filters[..n] && Scan(f, p.topic) then B.Keep(m[f], p) else m[f]
  }

  lemma KeptStep(m: map<Str, B.Topic>, filters: seq<Str>, n: nat, p: Publish)
    requires n < |filters| && NoDup(filters)
    ensures var f := filters[n];
      && (f in m ==> KeptUpTo(m, filters, n, p)[f] == m[f])
      && KeptUpTo(m, filters, n + 1, p) ==
        if f in m && Scan(f, p.topic) then KeptUpTo(m, filters, n, p)[f := B.Keep(m[f], p)]
          else KeptUpTo(m, filters, n, p)
  {
    assert forall g :: g in filters[..n + 1] <==> g in filters[..n] || g == filters[n];
  }

  lemma {:induction false} WildStep(m: map<Str, B.Topic>, filters: seq<Str>, n: nat, ids: seq<B.ClientId>, p: Publish,
      sent: bool)
    requires n < |filters|
    ensures var f := filters[n];
      if f in m && Scan(f, p.topic) then
        && B.WildDeliveries(m, filters[..n + 1], ids, p) ==
          B.WildDeliveries(m, filters[..n], ids, p) + B.TopicDeliveries(m[f], ids, p)
        && B.Sent(m, filters[..n + 1], p, sent) == (m[f].entries != map[])
      else
        && B.WildDeliveries(m, filters[..n + 1], ids, p) == B.WildDeliveries(m, filters[..n], ids, p)
        && B.Sent(m, filters[..n + 1], p, sent) == B.Sent(m, filters[..n], p, sent)
    decreases n
  {
    if n > 0 {
      assert filters[..n + 1][1..] == filters[1..][..n] && filters[..n][1..] == filters[1..][..n - 1];
      var g := filters[0];
      WildStep(m, filters[1..], n - 1, ids, p, if g in m && Scan(g, p.topic) then m[g].entries != map[] else sent);
    }
  }

  // ---------------------------------------------------------------- the two tables together

  class TopicIndex {
    const exact: TopicTable
    const wild: TopicTable

    ghost function Objects(): set<Topic>
      reads exact, wild
    {
      exact.objects + wild.objects
    }

    ghost predicate Valid()
      reads exact, wild
    {
      exact != wild && exact.Valid() && wild.Valid() && exact.objects !! wild.objects
    }

    ghost function Value(): B.Tables
      reads exact, wild, exact.objects, wild.objects
      requires Valid()
    {
      B.Tables(exact.Value(), wild.Value())
    }

    constructor ()
      ensures Valid() && Objects() == {} && Value() == B.Tables(map[], map[]) && fresh(exact) && fresh(wild)
    {
      exact := new TopicTable();
      wild := new TopicTable();
    }

    method Subscribe(f: Str, c: B.Client, maxQos: byte, isWild: bool)
      requires Valid()
      modifies exact, wild, Objects()
      ensures Valid() && Value() == B.Attach(old(Value()), c, f, maxQos, isWild)
      ensures forall t :: t in Objects() ==> t in old(Objects()) || fresh(t)
    {
      if isWild {
        wild.Subscribe(f, c, maxQos);
      } else {
        exact.Subscribe(f, c, maxQos);
      }
    }

    method Unsubscribe(id: B.ClientId, f: Str, isWild: bool) returns (found: bool)
      requires Valid()
      modifies exact, wild, Objects()
      ensures Valid() && found == (f in old(B.Table(Value(), isWild)))
        && Value() == B.Detach(old(Value()), id, f, isWild)
      ensures Objects() == old(Objects())
    {
      if isWild {
        found := wild.Unsubscribe(f, id);
      } else {
        found := exact.Unsubscribe(f, id);
      }
    }

    method PublishExact(net: Outlet, p: Publish, ids: seq<B.ClientId>) returns (sent: bool)
      requires Valid() && net.Valid() && forall id :: id in B.TopicOr(Value().exact, p.topic).entries ==> id in ids
      modifies exact.objects, net`log, net`stuck, net.objects
      ensures Valid() && Objects() == old(Objects())
        && Value() == old(Value()).(exact := B.KeepExact(old(Value()).exact, p))
      ensures net.Valid() && net.heap == old(net.heap)
      ensures net.Value() == B.DeliverAll(old(net.Value()),
        B.TopicDeliveries(B.TopicOr(old(Value()).exact, p.topic), ids, p))
      ensures sent <==> B.TopicOr(old(Value()).exact, p.topic).entries != map[]
    {
      sent := exact.PublishExact(net, p, ids);
    }

    method PublishWild(net: Outlet, p: Publish, o: B.Orders, already: bool) returns (sent: bool)
      requires Valid() && net.Valid() && NoDup(o.filters) && Lists(Value().wild, o)
      modifies wild.objects, net`log, net`stuck, net.objects
      ensures Valid() && Objects() == old(Objects())
        && Value() == old(Value()).(wild := B.KeepMatching(old(Value()).wild, p))
      ensures net.Valid() && net.heap == old(net.heap)
      ensures net.Value() == B.DeliverAll(old(net.Value()), B.WildDeliveries(old(Value()).wild, o.filters, o.ids, p))
      ensures sent == B.Sent(old(Value()).wild, o.filters, p, already)
    {
      sent := wild.PublishMatching(net, p, o, already);
    }

    /** Exact lookup, then the scan of the wildcard table. */
    method Publish(net: Outlet, p: Publish, o: B.Orders) returns (sent: bool)
      requires Valid() && net.Valid() && Reaches(Value(), o)
      modifies Objects(), net`log, net`stuck, net.objects
      ensures Valid() && Objects() == old(Objects()) && Value() == B.KeepAll(old(Value()), p)
      ensures net.Valid() && net.heap == old(net.heap)
      ensures net.Value() == B.DeliverAll(old(net.Value()), B.FanOut(old(Value()), p, o))
      ensures sent == B.Sent(old(Value()).wild, o.filters, p, B.TopicOr(old(Value()).exact, p.topic).entries != map[])
    {
      ghost var t, core := Value(), net.Value();
      ReachesTopic(t, o, p.topic);
      sent := PublishExact(net, p, o.ids);
      sent := PublishWild(net, p, o, sent);
      FanOutInTwo(core, t, p, o);
    }

    /** `unsubscribe_all`. */
    method UnsubscribeAll(id: B.ClientId, subs: map<Str, Sub>, order: seq<Str>)
      requires Valid()
      modifies exact, wild, Objects()
      ensures Valid() && Objects() == old(Objects()) && Value() == B.DetachAll(old(Value()), id, subs, order)
    {
      for n := 0 to |order|
        invariant Valid() && Objects() == old(Objects())
        invariant B.DetachAll(Value(), id, subs, order[n..]) == B.DetachAll(old(Value()), id, subs, order)
      {
        assert order[n..][1..] == order[n + 1..];
        if order[n] in subs {
          var found := Unsubscribe(id, order[n], subs[order[n]].wild);
        }
      }
    }

    /** A retained message through a topic under which the client is entered. */
    method PublishRetainedAt(net: Outlet, c: B.Client, f: Str, isWild: bool, p: Publish)
      requires Valid() && net.Valid() && f in B.Table(Value(), isWild) && c.id in B.Table(Value(), isWild)[f].entries
      modifies net`log, net`stuck, net.objects
      ensures Valid() && Value() == old(Value()) && net.Valid() && net.heap == old(net.heap)
      ensures net.Value() == B.Deliver(old(net.Value()),
        B.Delivery(c, B.Table(old(Value()), isWild)[f].entries[c.id].qos, true, p))
    {
      if isWild {
        wild.PublishRetained(f, net, c, p);
      } else {
        exact.PublishRetained(f, net, c, p);
      }
    }

    /** One retained message, to a client entered under the wildcard filter w. */
    method PublishRetainedIfMatching(net: Outlet, c: B.Client, w: Str, f: Str)
      requires Valid() && net.Valid() && w in Value().wild && c.id in Value().wild[w].entries
      modifies net`log, net`stuck, net.objects
      ensures Valid() && Value() == old(Value()) && net.Valid() && net.heap == old(net.heap)
      ensures var t := B.TopicOr(old(Value()).exact, f);
        net.Value() == if t.retained.Some? && Scan(w, f)
                       then B.Deliver(old(net.Value()),
                         B.Delivery(c, old(Value()).wild[w].entries[c.id].qos, true, t.retained.value))
                         else old(net.Value())
    {
      var kept := exact.RetainedMessage(f);
      var hit := Match(w, f);
      if kept.Some? && hit {
        PublishRetainedAt(net, c, w, true, kept.value);
      }
    }

    /** The retained messages one wildcard filter matches. */
    method PublishRetainedMatching(net: Outlet, c: B.Client, w: Str, filters: seq<Str>)
      requires Valid() && net.Valid() && w in Value().wild && c.id in Value().wild[w].entries
      modifies net`log, net`stuck, net.objects
      ensures Valid() && Value() == old(Value()) && net.Valid() && net.heap == old(net.heap)
      ensures var t := old(Value());
        net.Value() == B.DeliverAll(old(net.Value()),
          B.RetainedMatching(t.exact, c, w, t.wild[w].entries[c.id].qos, filters))
    {
      ghost var t, core, q := Value(), net.Value(), Value().wild[w].entries[c.id].qos;
      for n := 0 to |filters|
        invariant Valid() && Value() == t && net.Valid() && net.heap == old(net.heap)
        invariant B.DeliverAll(net.Value(), B.RetainedMatching(t.exact, c, w, q, filters[n..])) ==
          B.DeliverAll(core, B.RetainedMatching(t.exact, c, w, q, filters))
      {
        RetainedMatchingStep(net.Value(), t.exact, c, w, q, filters, n);
        PublishRetainedIfMatching(net, c, w, filters[n]);
      }
    }

    method PublishRetainedWild(net: Outlet, c: B.Client, names: seq<Str>, filters: seq<Str>)
      requires Valid() && net.Valid() && Holds(Value().wild, c, names)
      modifies net`log, net`stuck, net.objects
      ensures Valid() && Value() == old(Value()) && net.Valid() && net.heap == old(net.heap)
      ensures net.Value() == B.DeliverAll(old(net.Value()), B.RetainedWild(old(Value()), c, names, filters))
    {
      ghost var t, core := Value(), net.Value();
      for n := 0 to |names|
        invariant Valid() && Value() == t && net.Valid() && net.heap == old(net.heap)
        invariant B.DeliverAll(net.Value(), B.RetainedWild(t, c, names[n..], filters)) ==
          B.DeliverAll(core, B.RetainedWild(t, c, names, filters))
      {
        RetainedWildStep(net.Value(), t, c, names, n, filters);
        PublishRetainedMatching(net, c, names[n], filters);
      }
    }

    /** The retained message of a topic subscribed by name. */
    method PublishRetainedOf(net: Outlet, c: B.Client, f: Str)
      requires Valid() && net.Valid() && f in Value().exact && c.id in Value().exact[f].entries
      modifies net`log, net`stuck, net.objects
      ensures Valid() && Value() == old(Value()) && net.Valid() && net.heap == old(net.heap)
      ensures var t := old(Value()).exact[f];
        net.Value() == if t.retained.Some? then B.Deliver(old(net.Value()),
          B.Delivery(c, t.entries[c.id].qos, true, t.retained.value)) else old(net.Value())
    {
      var kept := exact.RetainedMessage(f);
      if kept.Some? {
        PublishRetainedAt(net, c, f, false, kept.value);
      }
    }

    method PublishRetainedExact(net: Outlet, c: B.Client, names: seq<Str>)
      requires Valid() && net.Valid() && Holds(Value().exact, c, names)
      modifies net`log, net`stuck, net.objects
      ensures Valid() && Value() == old(Value()) && net.Valid() && net.heap == old(net.heap)
      ensures net.Value() == B.DeliverAll(old(net.Value()), B.RetainedExact(old(Value()), c, names))
    {
      ghost var t, core := Value(), net.Value();
      for n := 0 to |names|
        invariant Valid() && Value() == t && net.Valid() && net.heap == old(net.heap)
        invariant B.DeliverAll(net.Value(), B.RetainedExact(t, c, names[n..])) ==
          B.DeliverAll(core, B.RetainedExact(t, c, names))
      {
        RetainedExactStep(net.Value(), t, c, names, n);
        PublishRetainedOf(net, c, names[n]);
      }
    }

    /** `publish_retained_message`: the error for a client that is not subscribing cannot occur. */
    method PublishRetained(net: Outlet, c: B.Client, plain: seq<Str>, wilds: seq<Str>, o: B.Orders)
      requires Valid() && net.Valid() && Holds(Value().exact, c, plain) && Holds(Value().wild, c, wilds)
      modifies net`log, net`stuck, net.objects
      ensures Valid() && Value() == old(Value()) && net.Valid() && net.heap == old(net.heap)
      ensures net.Value() == B.DeliverAll(old(net.Value()), B.Retained(old(Value()), c, plain, wilds, o))
    {
      ghost var t := Value();
      BrokerCore.DeliverAllAppend(net.Value(), B.RetainedExact(t, c, plain), B.RetainedWild(t, c, wilds, o.filters));
      PublishRetainedExact(net, c, plain);
      PublishRetainedWild(net, c, wilds, o.filters);
    }

    /** Entering the client again under each subscription of its session. */
    method SubscribeAll(c: B.Client, subs: map<Str, Sub>, order: seq<Str>) returns (plain: seq<Str>, wilds: seq<Str>)
      requires Valid()
      modifies exact, wild, Objects()
      ensures Valid() && Value() == B.AttachAll(old(Value()), c, subs, order)
      ensures forall t :: t in Objects() ==> t in old(Objects()) || fresh(t)
      ensures plain == B.FiltersIn(subs, order, false) && wilds == B.FiltersIn(subs, order, true)
    {
      plain, wilds := [], [];
      for n := 0 to |order|
        invariant Valid() && forall t :: t in Objects() ==> t in old(Objects()) || fresh(t)
        invariant B.AttachAll(Value(), c, subs, order[n..]) == B.AttachAll(old(Value()), c, subs, order)
        invariant plain + B.FiltersIn(subs, order[n..], false) == B.FiltersIn(subs, order, false)
        invariant wilds + B.FiltersIn(subs, order[n..], true) == B.FiltersIn(subs, order, true)
      {
        var f := order[n];
        assert order[n..][1..] == order[n + 1..];
        if f in subs {
          Subscribe(f, c, subs[f].qos, subs[f].wild);
          plain, wilds := if subs[f].wild then plain else plain + [f], if subs[f].wild then wilds + [f] else wilds;
        }
      }
    }
  }

  /** The client is entered in the table under each of the names. */
  ghost predicate Holds(m: map<Str, B.Topic>, c: B.Client, names: seq<Str>) {
    forall i :: 0 <= i < |names| ==> names[i] in m && c.id in m[names[i]].entries
  }

  lemma RetainedWildStep(core: B.Core, t: B.Tables, c: B.Client, names: seq<Str>, n: nat, filters: seq<Str>)
    requires n < |names| && Holds(t.wild, c, names)
    ensures B.DeliverAll(core, B.RetainedWild(t, c, names[n..], filters)) ==
      B.DeliverAll(B.DeliverAll(core, B.RetainedMatching(t.exact, c, names[n], t.wild[names[n]].entries[c.id].qos,
        filters)),
                   B.RetainedWild(t, c, names[n + 1..], filters))
  {
    assert names[n..][1..] == names[n + 1..];
    BrokerCore.DeliverAllAppend(core, B.RetainedMatching(t.exact, c, names[n], t.wild[names[n]].entries[c.id].qos,
      filters),
                                B.RetainedWild(t, c, names[n + 1..], filters));
  }

  lemma DeliverFirst(core: B.Core, d: B.Delivery, ds: seq<B.Delivery>)
    ensures B.DeliverAll(core, [d] + ds) == B.DeliverAll(B.Deliver(core, d), ds)
  {
    assert ([d] + ds)[1..] == ds;
  }

  lemma RetainedMatchingStep(core: B.Core, exact: map<Str, B.Topic>, c: B.Client, w: Str, q: byte, filters: seq<Str>,
      n: nat)
    requires n < |filters|
    ensures var t := B.TopicOr(exact, filters[n]);
      B.DeliverAll(core, B.RetainedMatching(exact, c, w, q, filters[n..])) ==
        B.DeliverAll(if t.retained.Some? && Scan(w, filters[n])
          then B.Deliver(core, B.Delivery(c, q, true, t.retained.value)) else core,
                     B.RetainedMatching(exact, c, w, q, filters[n + 1..]))
  {
    assert filters[n..][1..] == filters[n + 1..];
    var t := B.TopicOr(exact, filters[n]);
    if t.retained.Some? {
      var d := B.Delivery(c, q, true, t.retained.value);
      DeliverFirst(core, d, B.RetainedMatching(exact, c, w, q, filters[n + 1..]));
    }
  }

  lemma RetainedExactStep(core: B.Core, t: B.Tables, c: B.Client, names: seq<Str>, n: nat)
    requires n < |names| && Holds(t.exact, c, names)
    ensures var topic := t.exact[names[n]];
      B.DeliverAll(core, B.RetainedExact(t, c, names[n..])) ==
        B.DeliverAll(if topic.retained.Some? then B.Deliver(core,
          B.Delivery(c, topic.entries[c.id].qos, true, topic.retained.value)) else core,
                     B.RetainedExact(t, c, names[n + 1..]))
  {
    assert names[n..][1..] == names[n + 1..];
    var topic := t.exact[names[n]];
    if topic.retained.Some? {
      DeliverFirst(core, B.Delivery(c, topic.entries[c.id].qos, true, topic.retained.value),
        B.RetainedExact(t, c, names[n + 1..]));
    }
  }

  lemma FanOutInTwo(core: B.Core, t: B.Tables, p: Publish, o: B.Orders)
    ensures B.DeliverAll(B.DeliverAll(core, B.TopicDeliveries(B.TopicOr(t.exact, p.topic), o.ids, p)),
      B.WildDeliveries(t.wild, o.filters, o.ids, p))
         == B.DeliverAll(core, B.FanOut(t, p, o))
  {
    BrokerCore.DeliverAllAppend(core, B.TopicDeliveries(B.TopicOr(t.exact, p.topic), o.ids, p),
      B.WildDeliveries(t.wild, o.filters, o.ids, p));
  }

  lemma NoDeliveries(ids: seq<B.ClientId>, p: Publish)
    ensures B.TopicDeliveries(B.NewTopic, ids, p) == []
  {
  }

  /** The traversal visits every wildcard topic and every client entered anywhere. */
  ghost predicate Reaches(t: B.Tables, o: B.Orders) {
    NoDup(o.filters) && Lists(t.exact, o) && Lists(t.wild, o)
  }

  lemma ReachesTopic(t: B.Tables, o: B.Orders, f: Str)
    requires Reaches(t, o)
    ensures forall id :: id in B.TopicOr(t.exact, f).entries ==> id in o.ids
  {
  }
}
