/**
  The exact content of the topic tables in every run, for every id: an entry is either what the
  session of a connected client says, or was left behind by a clean-session takeover.
 */
module BrokerAgreement {
  import opened Basics
  import opened TopicFilter
  import opened Packets
  import opened Sessions
  import opened Broker
  import BrokerCore
  import opened BrokerIndex
  import opened BrokerInvariant

  // ---------------------------------------------------------------- the history of a run

  datatype Place = Place(wild: bool, filter: Str, id: ClientId)

  /** The entries of replaced connections, by place. */
  type Left = map<Place, Entry>

  function LeftAt(left: Left, w: bool, f: Str, id: ClientId): Option<Entry> {
    if Place(w, f, id) in left then Some(left[Place(w, f, id)]) else None
  }

  /** A clean takeover leaves an entry under each subscription of the connection it replaces. */
  function Abandoned(left: Left, c: Client, subs: map<Str, Sub>): Left {
    left + map f | f in subs :: Place(subs[f].wild, f, c.id) := Entry(c, subs[f].qos)
  }

  /** Restoring a session takes over the places of its subscriptions. */
  function Resumed(left: Left, id: ClientId, subs: map<Str, Sub>): Left {
    map x | x in left && !(x.id == id && x.filter in subs && subs[x.filter].wild == x.wild) :: left[x]
  }

  predicate Subscribes(items: seq<Item>, w: bool, f: Str) {
    exists i :: 0 <= i < |items| && Accepted(items[i]) && items[i].filter == f && items[i].wild == w
  }

  predicate Unsubscribes(names: seq<Named>, w: bool, f: Str) {
    exists i :: 0 <= i < |names| && names[i].filter == f && names[i].wild == w
  }

  /** SUBSCRIBE takes over the places of the accepted filters. */
  function Replaced(left: Left, id: ClientId, items: seq<Item>): Left {
    map x | x in left && !(x.id == id && Subscribes(items, x.wild, x.filter)) :: left[x]
  }

  /** UNSUBSCRIBE clears the places it names. */
  function Cleared(left: Left, id: ClientId, names: seq<Named>): Left {
    map x | x in left && !(x.id == id && Unsubscribes(names, x.wild, x.filter)) :: left[x]
  }

  function LeftAfter(s: Server, left: Left, e: Event): Left {
    if s.core.stuck then left
    else match e
      case Connecting(ch, l) =>
        if l.code != 0 then left
        else if l.clean then
          if l.id in s.clients then Abandoned(left, s.clients[l.id], SubsOf(s.core, s.clients[l.id].session)) else left
        else if l.id in s.sessions then Resumed(left, l.id, SubsOf(s.core, s.sessions[l.id]))
        else left
      case Subscribing(ch, _, items) => if ch in s.params then Replaced(left, s.params[ch].id, items) else left
      case Unsubscribing(ch, _, names) => if ch in s.params then Cleared(left, s.params[ch].id, names) else left
      case _ => left
  }

  function RunLeft(s: Server, left: Left, es: seq<(Event, Orders)>): Left
    decreases es
  {
    if es == [] then left else RunLeft(Step(s, es[0].0, es[0].1), LeftAfter(s, left, es[0].0), es[1..])
  }

  // ---------------------------------------------------------------- the account

  /** What the session of a connected id says about a filter. */
  function Wants(s: Server, w: bool, f: Str, id: ClientId): Option<Entry> {
    if id in s.clients then Says(s.clients[id], SubsOf(s.core, s.clients[id].session), w, f) else None
  }

  ghost predicate AccountsAt(s: Server, left: Left, id: ClientId) {
    forall w, f ::
      && Has(s.tables, w, f, id) == (if Wants(s, w, f, id).Some? then Wants(s, w, f, id) else LeftAt(left, w, f, id))
      && (Wants(s, w, f, id).Some? ==> LeftAt(left, w, f, id) == None)
  }

  /** Every entry is a session's, or one left behind; no place is both. */
  ghost predicate Accounts(s: Server, left: Left) {
    forall id :: AccountsAt(s, left, id)
  }

  lemma SameAccount(s: Server, s': Server, left: Left, left': Left, id: ClientId)
    requires AccountsAt(s, left, id)
    requires forall w, f :: Has(s'.tables, w, f, id) == Has(s.tables, w, f, id)
    requires forall w, f :: Wants(s', w, f, id) == Wants(s, w, f, id)
    requires forall w, f :: LeftAt(left', w, f, id) == LeftAt(left, w, f, id)
    ensures AccountsAt(s', left', id)
  {
  }

  lemma SameForAccount(s: Server, s': Server, left: Left, left': Left, id: ClientId)
    requires AccountsAt(s, left, id) && SameFor(s, s', id)
    requires forall w, f :: LeftAt(left', w, f, id) == LeftAt(left, w, f, id)
    ensures AccountsAt(s', left', id)
  {
    SameAccount(s, s', left, left', id);
  }

  lemma QuietAccounts(s: Server, s': Server, left: Left)
    requires Bijection(s.clients, s.params) && Accounts(s, left)
    requires SameClients(s, s') && SameEntries(s.tables, s'.tables) && SameSubs(s.core, s'.core)
    ensures Accounts(s', left)
  {
    forall id ensures AccountsAt(s', left, id) {
      assert AccountsAt(s, left, id);
      SameForAccount(s, s', left, left, id);
    }
  }

  // ---------------------------------------------------------------- SUBSCRIBE and UNSUBSCRIBE

  lemma SubscribesStep(items: seq<Item>, w: bool, f: Str)
    requires items != []
    ensures Subscribes(items, w, f) <==>
      Subscribes(items[1..], w, f) || (Accepted(items[0]) && items[0].filter == f && items[0].wild == w)
  {
    if Subscribes(items[1..], w, f) {
      var i :| 0 <= i < |items[1..]| && Accepted(items[1..][i]) && items[1..][i].filter == f && items[1..][i].wild == w;
      assert items[i + 1] == items[1..][i];
    }
    if Subscribes(items, w, f) {
      var i :| 0 <= i < |items| && Accepted(items[i]) && items[i].filter == f && items[i].wild == w;
      if i > 0 { assert items[1..][i - 1] == items[i]; }
    }
  }

  /** At a place, one filter of a SUBSCRIBE either makes entry and subscription, or leaves both. */
  lemma SubscribeOneEntry(a: Progress, c: Client, item: Item, w: bool, f: Str)
    requires Decoded(item) && (f in a.subs ==> SubOkWild(f, a.subs[f]))
    ensures var b := SubscribeOne(a, c, item);
      && (f in b.subs ==> SubOkWild(f, b.subs[f]))
      && if Accepted(item) && item.filter == f && item.wild == w then
           Says(c, b.subs, w, f).Some? && Has(b.tables, w, f, c.id) == Says(c, b.subs, w, f)
         else Has(b.tables, w, f, c.id) == Has(a.tables, w, f, c.id) && Says(c, b.subs, w, f) == Says(c, a.subs, w, f)
  {
    if Accepted(item) { AttachHas(a.tables, c, item.filter, item.qos, item.wild, w, f, c.id); }
  }

  predicate SubOkWild(f: Str, sub: Sub) {
    sub.wild == HasWildcard(f)
  }

  lemma {:induction false} SubscribeItemsEntry(a: Progress, c: Client, items: seq<Item>, w: bool, f: Str)
    requires (forall i :: 0 <= i < |items| ==> Decoded(items[i])) && (f in a.subs ==> SubOkWild(f, a.subs[f]))
    requires Says(c, a.subs, w, f).Some? ==> Has(a.tables, w, f, c.id) == Says(c, a.subs, w, f)
    ensures var b := SubscribeItems(a, c, items);
      if Subscribes(items, w, f) then Says(c, b.subs, w, f).Some? && Has(b.tables, w, f, c.id) == Says(c, b.subs, w, f)
      else Has(b.tables, w, f, c.id) == Has(a.tables, w, f, c.id) && Says(c, b.subs, w, f) == Says(c, a.subs, w, f)
    decreases items
  {
    if items != [] {
      SubscribeOneEntry(a, c, items[0], w, f);
      SubscribesStep(items, w, f);
      SubscribeItemsEntry(SubscribeOne(a, c, items[0]), c, items[1..], w, f);
    }
  }

  lemma UnsubscribesStep(names: seq<Named>, w: bool, f: Str)
    requires names != []
    ensures Unsubscribes(names, w, f) <==>
      Unsubscribes(names[1..], w, f) || (names[0].filter == f && names[0].wild == w)
  {
    if Unsubscribes(names[1..], w, f) {
      var i :| 0 <= i < |names[1..]| && names[1..][i].filter == f && names[1..][i].wild == w;
      assert names[i + 1] == names[1..][i];
    }
    if Unsubscribes(names, w, f) {
      var i :| 0 <= i < |names| && names[i].filter == f && names[i].wild == w;
      if i > 0 { assert names[1..][i - 1] == names[i]; }
    }
  }

  lemma UnsubscribeOneEntry(a: Removal, c: Client, n: Named, w: bool, f: Str)
    requires n.wild == HasWildcard(n.filter) && (f in a.subs ==> SubOkWild(f, a.subs[f]))
    requires Says(c, a.subs, w, f).Some? ==> Has(a.tables, w, f, c.id) == Says(c, a.subs, w, f)
    ensures var b := UnsubscribeOne(a, c.id, n);
      && (f in b.subs ==> SubOkWild(f, b.subs[f]))
      && if n.filter == f && n.wild == w then Says(c, b.subs, w, f) == None && Has(b.tables, w, f, c.id) == None
         else Has(b.tables, w, f, c.id) == Has(a.tables, w, f, c.id) && Says(c, b.subs, w, f) == Says(c, a.subs, w, f)
  {
    DetachHas(a.tables, c.id, n.filter, n.wild, w, f, c.id);
  }

  lemma {:induction false} UnsubscribeNamesEntry(a: Removal, c: Client, names: seq<Named>, w: bool, f: Str)
    requires (forall i :: 0 <= i < |names| ==> names[i].wild == HasWildcard(names[i].filter))
    requires f in a.subs ==> SubOkWild(f, a.subs[f])
    requires Says(c, a.subs, w, f).Some? ==> Has(a.tables, w, f, c.id) == Says(c, a.subs, w, f)
    ensures var b := UnsubscribeNames(a, c.id, names);
      if Unsubscribes(names, w, f) then Says(c, b.subs, w, f) == None && Has(b.tables, w, f, c.id) == None
      else Has(b.tables, w, f, c.id) == Has(a.tables, w, f, c.id) && Says(c, b.subs, w, f) == Says(c, a.subs, w, f)
    decreases names
  {
    if names != [] {
      UnsubscribeOneEntry(a, c, names[0], w, f);
      UnsubscribesStep(names, w, f);
      UnsubscribeNamesEntry(UnsubscribeOne(a, c.id, names[0]), c, names[1..], w, f);
    }
  }

  /** Other clients' accounts, when one connected client changed its own subscriptions and entries. */
  lemma OthersAccount(s: Server, s': Server, c: Client, left: Left, left': Left, id: ClientId)
    requires Connections(s) && AccountsAt(s, left, id) && c.id in s.clients && s.clients[c.id] == c && id != c.id
    requires s'.clients == s.clients
    requires forall w, f :: Has(s'.tables, w, f, id) == Has(s.tables, w, f, id)
    requires forall r :: r != c.session ==> SubsOf(s'.core, r) == SubsOf(s.core, r)
    requires forall w, f :: LeftAt(left', w, f, id) == LeftAt(left, w, f, id)
    ensures AccountsAt(s', left', id)
  {
    if id in s.clients { OtherSession(s, c, id); }
    SameForAccount(s, s', left, left', id);
  }

  lemma SubscribeAccounts(s: Server, left: Left, ch: Channel, packetId: uint16, items: seq<Item>, o: Orders)
    requires Inv(s) && Accounts(s, left) && Possible(s, Subscribing(ch, packetId, items)) && ch in s.params
    ensures Accounts(HandleSubscribe(s, ch, packetId, items, o), Replaced(left, s.params[ch].id, items))
  {
    var c, s', left' := s.params[ch], HandleSubscribe(s, ch, packetId, items, o),
      Replaced(left, s.params[ch].id, items);
    ClientOf(s, ch);
    ConnectedIndex(s, ch);
    SubscribeParts(s, c, packetId, items, o);
    forall id ensures AccountsAt(s', left', id) {
      assert AccountsAt(s, left, id);
      if id != c.id { OthersAccount(s, s', c, left, left', id); }
      else { SubscriberAccount(s, left, ch, packetId, items, o); }
    }
  }

  lemma SubscribedAs(s: Server, ch: Channel, packetId: uint16, items: seq<Item>, o: Orders)
    requires Connections(s) && ch in s.params
    ensures var s', a := HandleSubscribe(s, ch, packetId, items, o), Subscribed(s, s.params[ch], items);
      s.params[ch].session in s.core.heap && s'.tables == a.tables && SubsOf(s'.core, s.params[ch].session) == a.subs
        && s'.clients == s.clients
  {
    var c := s.params[ch];
    ClientOf(s, ch);
    var a := Subscribed(s, c, items);
    var core := Resubscribe(s.core, c.session, a.subs, Write(ch, SubackPacket(packetId, a.codes)));
    BrokerCore.DeliverAllGrows(core, Retained(a.tables, c, a.plain, a.wilds, o));
    GrowsSubs(core, DeliverAll(core, Retained(a.tables, c, a.plain, a.wilds, o)));
  }

  /** At one place, the account of a subscriber before and after. */
  lemma SubscriberPlace(start: Progress, c: Client, items: seq<Item>, left: Left, w: bool, f: Str)
    requires (forall i :: 0 <= i < |items| ==> Decoded(items[i])) && (f in start.subs ==> SubOkWild(f, start.subs[f]))
    requires Account(start.tables, c, start.subs, left, w, f)
    ensures var b := SubscribeItems(start, c, items); Account(b.tables, c, b.subs, Replaced(left, c.id, items), w, f)
  {
    SubscribeItemsEntry(start, c, items, w, f);
  }

  /** The account of one client at one place. */
  predicate Account(t: Tables, c: Client, subs: map<Str, Sub>, left: Left, w: bool, f: Str) {
    && Has(t, w, f, c.id) == (if Says(c, subs, w, f).Some? then Says(c, subs, w, f) else LeftAt(left, w, f, c.id))
    && (Says(c, subs, w, f).Some? ==> LeftAt(left, w, f, c.id) == None)
  }

  lemma AccountOf(s: Server, left: Left, id: ClientId)
    requires id in s.clients && s.clients[id].id == id
    ensures AccountsAt(s, left, id) <==>
      forall w, f :: Account(s.tables, s.clients[id], SubsOf(s.core, s.clients[id].session), left, w, f)
  {
    var c, subs := s.clients[id], SubsOf(s.core, s.clients[id].session);
    assert forall w, f :: Wants(s, w, f, id) == Says(c, subs, w, f);
    if AccountsAt(s, left, id) {
      forall w, f ensures Account(s.tables, c, subs, left, w, f) { assert Wants(s, w, f, id) == Says(c, subs, w, f); }
    }
    if forall w, f :: Account(s.tables, c, subs, left, w, f) {
      forall w, f
        ensures Has(s.tables, w, f, id) == (if Wants(s, w, f, id).Some? then Wants(s, w, f, id)
          else LeftAt(left, w, f, id))
        ensures Wants(s, w, f, id).Some? ==> LeftAt(left, w, f, id) == None
      {
        assert Account(s.tables, c, subs, left, w, f);
      }
    }
  }

  lemma SubscriberAccount(s: Server, left: Left, ch: Channel, packetId: uint16, items: seq<Item>, o: Orders)
    requires Inv(s) && Accounts(s, left) && Possible(s, Subscribing(ch, packetId, items)) && ch in s.params
    ensures AccountsAt(HandleSubscribe(s, ch, packetId, items, o), Replaced(left, s.params[ch].id, items),
      s.params[ch].id)
  {
    var c, s' := s.params[ch], HandleSubscribe(s, ch, packetId, items, o);
    ClientOf(s, ch);
    ConnectedIndex(s, ch);
    SubscribedAs(s, ch, packetId, items, o);
    assert AccountsAt(s, left, c.id);
    AccountOf(s, left, c.id);
    var start := Progress(s.tables, s.trash, s.core.heap[c.session].subs, [], [], []);
    var b := SubscribeItems(start, c, items);
    forall w, f ensures Account(b.tables, c, b.subs, Replaced(left, c.id, items), w, f) {
      if f in start.subs { assert BrokerCore.SubOk(f, start.subs[f]); }
      assert Account(start.tables, c, start.subs, left, w, f);
      SubscriberPlace(start, c, items, left, w, f);
    }
    AccountOf(s', Replaced(left, c.id, items), c.id);
  }

  lemma UnsubscribeAccounts(s: Server, left: Left, ch: Channel, packetId: uint16, names: seq<Named>)
    requires Inv(s) && Accounts(s, left) && Possible(s, Unsubscribing(ch, packetId, names)) && ch in s.params
    ensures Accounts(HandleUnsubscribe(s, ch, packetId, names), Cleared(left, s.params[ch].id, names))
  {
    var c, s', left' := s.params[ch], HandleUnsubscribe(s, ch, packetId, names), Cleared(left, s.params[ch].id, names);
    ClientOf(s, ch);
    ConnectedIndex(s, ch);
    UnsubscribeParts(s, c, packetId, names);
    forall id ensures AccountsAt(s', left', id) {
      assert AccountsAt(s, left, id);
      if id != c.id { OthersAccount(s, s', c, left, left', id); }
      else { UnsubscriberAccount(s, left, ch, packetId, names); }
    }
  }

  lemma UnsubscriberPlace(start: Removal, c: Client, names: seq<Named>, left: Left, w: bool, f: Str)
    requires (forall i :: 0 <= i < |names| ==> names[i].wild == HasWildcard(names[i].filter))
    requires f in start.subs ==> SubOkWild(f, start.subs[f])
    requires Account(start.tables, c, start.subs, left, w, f)
    ensures var b := UnsubscribeNames(start, c.id, names);
      Account(b.tables, c, b.subs, Cleared(left, c.id, names), w, f)
  {
    UnsubscribeNamesEntry(start, c, names, w, f);
  }

  lemma UnsubscriberAccount(s: Server, left: Left, ch: Channel, packetId: uint16, names: seq<Named>)
    requires Inv(s) && Accounts(s, left) && Possible(s, Unsubscribing(ch, packetId, names)) && ch in s.params
    ensures AccountsAt(HandleUnsubscribe(s, ch, packetId, names), Cleared(left, s.params[ch].id, names),
      s.params[ch].id)
  {
    var c, s' := s.params[ch], HandleUnsubscribe(s, ch, packetId, names);
    ClientOf(s, ch);
    ConnectedIndex(s, ch);
    assert AccountsAt(s, left, c.id);
    AccountOf(s, left, c.id);
    var start := Removal(s.tables, s.core.heap[c.session].subs);
    var b := UnsubscribeNames(start, c.id, names);
    forall w, f ensures Account(b.tables, c, b.subs, Cleared(left, c.id, names), w, f) {
      if f in start.subs { assert BrokerCore.SubOk(f, start.subs[f]); }
      assert Account(start.tables, c, start.subs, left, w, f);
      UnsubscriberPlace(start, c, names, left, w, f);
    }
    AccountOf(s', Cleared(left, c.id, names), c.id);
  }

  // ---------------------------------------------------------------- leaving

  lemma RemoveAccounts(s: Server, left: Left, c: Client, o: Orders)
    requires Connections(s) && Accounts(s, left) && c.id in s.clients && s.clients[c.id] == c
    requires forall f :: f in SubsOf(s.core, c.session) ==> f in o.subs
    ensures Accounts(Remove(s, c, o), left)
  {
    var s' := Remove(s, c, o);
    RemovedEntries(s, c, o);
    forall id ensures AccountsAt(s', left, id) {
      assert AccountsAt(s, left, id);
      if id != c.id { SameForAccount(s, s', left, left, id); }
    }
  }

  lemma LostAccounts(s: Server, left: Left, ch: Channel, o: Orders)
    requires Inv(s) && Accounts(s, left) && Traverses(s, o) && ch in s.params
    ensures Accounts(HandleLost(s, ch, o), left)
  {
    var s1 := PublishWill(s, s.params[ch], o);
    ClientOf(s, ch);
    WillInv(s, ch, o);
    QuietAccounts(s, s1, left);
    StillCovers(s, s1.core, o, s.params[ch].session);
    RemoveAccounts(s1, left, s.params[ch], o);
  }

  // ---------------------------------------------------------------- CONNECT

  lemma AbandonedAt(left: Left, c: Client, subs: map<Str, Sub>, w: bool, f: Str, id: ClientId)
    ensures LeftAt(Abandoned(left, c, subs), w, f, id) ==
      if id == c.id && Says(c, subs, w, f).Some? then Says(c, subs, w, f) else LeftAt(left, w, f, id)
  {
  }

  /** A new, empty session: what the replaced connection had entered is left behind. */
  lemma FreshAccounts(s: Server, s': Server, c: Client, left: Left, left': Left)
    requires Connections(s) && Accounts(s, left) && c.id in s'.clients && s'.clients[c.id] == c
    requires forall id :: id != c.id ==>
      (id in s'.clients <==> id in s.clients) && (id in s.clients ==> s'.clients[id] == s.clients[id])
    requires s'.tables == s.tables && SubsOf(s'.core, c.session) == map[]
    requires forall r :: r in s.core.heap ==> SubsOf(s'.core, r) == SubsOf(s.core, r)
    requires left' == if c.id in s.clients then Abandoned(left, s.clients[c.id],
      SubsOf(s.core, s.clients[c.id].session)) else left
    ensures Accounts(s', left')
  {
    forall id ensures AccountsAt(s', left', id) {
      assert AccountsAt(s, left, id);
      FreshLeft(s, c.id, left, left', id);
      if id != c.id { SameForAccount(s, s', left, left', id); }
    }
  }

  lemma FreshLeft(s: Server, actor: ClientId, left: Left, left': Left, id: ClientId)
    requires Connections(s)
    requires left' == if actor in s.clients then Abandoned(left, s.clients[actor],
      SubsOf(s.core, s.clients[actor].session)) else left
    ensures forall w, f :: LeftAt(left', w, f, id) == if id == actor && Wants(s, w, f, id).Some? then Wants(s, w, f, id)
      else LeftAt(left, w, f, id)
  {
    if actor in s.clients {
      forall w, f ensures LeftAt(left', w, f, id) == if id == actor && Wants(s, w, f, id).Some? then Wants(s, w, f, id)
        else LeftAt(left, w, f, id) {
        AbandonedAt(left, s.clients[actor], SubsOf(s.core, s.clients[actor].session), w, f, id);
      }
    }
  }

  /** A restored session: the new client stands in all places of its subscriptions. */
  lemma PresentAccounts(s: Server, s': Server, c: Client, left: Left, o: Orders)
    requires Connections(s) && Accounts(s, left) && c.id in s'.clients && s'.clients[c.id] == c
    requires forall id :: id != c.id ==>
      (id in s'.clients <==> id in s.clients) && (id in s.clients ==> s'.clients[id] == s.clients[id])
    requires c.id in s.sessions && c.session == s.sessions[c.id]
    requires forall f :: f in SubsOf(s.core, c.session) ==> f in o.subs
    requires s'.tables == AttachAll(s.tables, c, SubsOf(s.core, c.session), o.subs)
    requires forall r :: r in s.core.heap ==> SubsOf(s'.core, r) == SubsOf(s.core, r)
    ensures Accounts(s', Resumed(left, c.id, SubsOf(s.core, c.session)))
  {
    var left' := Resumed(left, c.id, SubsOf(s.core, c.session));
    RestoredIndex(s.tables, c, SubsOf(s.core, c.session), o.subs);
    forall id ensures AccountsAt(s', left', id) {
      assert AccountsAt(s, left, id);
      if id != c.id { SameForAccount(s, s', left, left', id); }
      else { ResumedAccount(s, s', c, left); }
    }
  }

  lemma ResumedAccount(s: Server, s': Server, c: Client, left: Left)
    requires Connections(s) && AccountsAt(s, left, c.id) && c.id in s'.clients && s'.clients[c.id] == c
    requires c.id in s.sessions && c.session == s.sessions[c.id]
      && SubsOf(s'.core, c.session) == SubsOf(s.core, c.session)
    requires forall w, f ::
      Has(s'.tables, w, f, c.id) ==
        if Says(c, SubsOf(s.core, c.session), w, f).Some? then Says(c, SubsOf(s.core, c.session), w, f)
          else Has(s.tables, w, f, c.id)
    ensures AccountsAt(s', Resumed(left, c.id, SubsOf(s.core, c.session)), c.id)
  {
  }

  /** What a restoring CONNECT has made of clients, tables and subscriptions. */
  ghost predicate Restored(s: Server, s': Server, c: Client, o: Orders) {
    && c.id in s'.clients && s'.clients[c.id] == c && c.id in s.sessions && c.session == s.sessions[c.id]
    && (forall id :: id != c.id ==>
      (id in s'.clients <==> id in s.clients) && (id in s.clients ==> s'.clients[id] == s.clients[id]))
    && s'.tables == AttachAll(s.tables, c, SubsOf(s.core, c.session), o.subs)
    && (forall r :: r in s.core.heap ==> SubsOf(s'.core, r) == SubsOf(s.core, r))
  }

  lemma RestoredState(s: Server, ch: Channel, l: Login, o: Orders)
    requires Stored(s) && ch !in s.core.heap && Restores(Evict(s, l.id), l)
    ensures var s2 := Admit(Evict(s, l.id), ch, l);
      s2.params[ch].id == l.id && Restored(s, Restore(s2, s2.params[ch], o), s2.params[ch], o)
  {
    var s1 := Evict(s, l.id);
    var s2 := Admit(s1, ch, l);
    AdmitShape(s, ch, l);
    AdmitSubs(s1, ch, l);
    AdmitStored(s1, ch, l);
    RestoreTables(s2, s2.params[ch], o);
  }

  lemma RestoreTables(s: Server, c: Client, o: Orders)
    requires Stored(s) && c.session in s.core.heap
    ensures var s' := Restore(s, c, o);
      && s'.clients == s.clients && s'.tables == AttachAll(s.tables, c, SubsOf(s.core, c.session), o.subs)
      && forall r :: SubsOf(s'.core, r) == SubsOf(s.core, r)
  {
    RestoreStored(s, c, o);
  }

  lemma RestoringAccounts(s: Server, left: Left, ch: Channel, l: Login, o: Orders)
    requires Inv(s) && Accounts(s, left) && Traverses(s, o) && ch !in s.core.heap && Restores(Evict(s, l.id), l)
    ensures var s2 := Admit(Evict(s, l.id), ch, l);
      Accounts(Restore(s2, s2.params[ch], o), Resumed(left, l.id, SubsOf(s.core, s.sessions[l.id])))
  {
    var s2 := Admit(Evict(s, l.id), ch, l);
    RestoredState(s, ch, l, o);
    CoversSubs(s, o, s2.params[ch].session);
    PresentAccounts(s, Restore(s2, s2.params[ch], o), s2.params[ch], left, o);
  }

  lemma NewSessionAccounts(s: Server, left: Left, ch: Channel, l: Login)
    requires Inv(s) && Accounts(s, left) && ch !in s.core.heap && !Restores(Evict(s, l.id), l)
    ensures Accounts(Admit(Evict(s, l.id), ch, l),
                     if l.id in s.clients then Abandoned(left, s.clients[l.id], SubsOf(s.core, s.clients[l.id].session))
                       else left)
  {
    var s1 := Evict(s, l.id);
    AdmitShape(s, ch, l);
    AdmitSubs(s1, ch, l);
    FreshAccounts(s, Admit(s1, ch, l), Admit(s1, ch, l).params[ch], left,
                  if l.id in s.clients then Abandoned(left, s.clients[l.id], SubsOf(s.core, s.clients[l.id].session))
                    else left);
  }

  lemma WhenRestored(s: Server, l: Login)
    requires SessionsOk(s.clients, s.sessions, s.core.heap.Keys)
    ensures Restores(Evict(s, l.id), l) <==> !l.clean && l.id in s.sessions
    ensures !Restores(Evict(s, l.id), l) && l.id in s.clients ==> l.clean
  {
  }

  lemma ConnectAccounts(s: Server, left: Left, ch: Channel, l: Login, o: Orders)
    requires Inv(s) && Accounts(s, left) && Possible(s, Connecting(ch, l)) && Traverses(s, o) && !s.core.stuck
    ensures Accounts(HandleConnect(s, ch, l, o), LeftAfter(s, left, Connecting(ch, l)))
  {
    var s0 := s.(seen := s.seen + {ch});
    SeenInv(s, s0);
    SeenAccounts(s, s0, left);
    if l.code != 0 {
      RefusedAccounts(s0, left, Write(ch, Connack(false, l.code)));
    } else {
      AcceptedAccounts(s0, left, ch, l, o);
    }
  }

  lemma RefusedAccounts(s: Server, left: Left, w: Write)
    requires Inv(s) && Accounts(s, left)
    ensures Accounts(s.(core := Wrote(s.core, w)), left)
  {
    QuietAccounts(s, s.(core := Wrote(s.core, w)), left);
  }

  lemma AcceptedAccounts(s: Server, left: Left, ch: Channel, l: Login, o: Orders)
    requires Inv(s) && Accounts(s, left) && Traverses(s, o) && ch !in s.core.heap && l.code == 0 && !s.core.stuck
    ensures var s1 := Evict(s, l.id);
      var s2 := Admit(s1, ch, l);
      Accounts(if Restores(s1, l) then Restore(s2, s2.params[ch], o) else s2, LeftAfter(s, left, Connecting(ch, l)))
  {
    WhenRestored(s, l);
    if Restores(Evict(s, l.id), l) {
      RestoringAccounts(s, left, ch, l, o);
    } else {
      NewSessionAccounts(s, left, ch, l);
    }
  }

  lemma SeenAccounts(s: Server, s': Server, left: Left)
    requires Accounts(s, left) && s' == s.(seen := s'.seen)
    ensures Accounts(s', left)
  {
    forall id ensures AccountsAt(s', left, id) { assert AccountsAt(s, left, id); }
  }

  // ---------------------------------------------------------------- every step, every run

  lemma PublishAccounts(s: Server, left: Left, ch: Channel, p: Publish, o: Orders)
    requires Inv(s) && Accounts(s, left) && Fits(p) && ch in s.params
    ensures Accounts(HandlePublish(s, ch, p, o), left)
  {
    PublishStored(s, ch, p, o);
    KeepAllSame(s.tables, p);
    QuietAccounts(s, HandlePublish(s, ch, p, o), left);
  }

  lemma AckQuiet(s: Server, e: Event)
    requires IsAck(e)
    ensures var s' := HandleAck(s, e); SameClients(s, s') && s'.tables == s.tables && SameSubs(s.core, s'.core)
  {
    if e.ch in s.params && s.params[e.ch].session in s.core.heap {
      AckKeepsSubs(s.core.heap[s.params[e.ch].session], e);
    }
  }

  lemma AckKeepsSubs(ses: SessionState, e: Event)
    requires IsAck(e)
    ensures AckSession(ses, e).subs == ses.subs
  {
  }

  lemma AckAccounts(s: Server, left: Left, e: Event)
    requires Inv(s) && Accounts(s, left) && IsAck(e)
    ensures Accounts(HandleAck(s, e), left)
  {
    AckQuiet(s, e);
    QuietAccounts(s, HandleAck(s, e), left);
  }

  lemma DisconnectAccounts(s: Server, left: Left, ch: Channel, o: Orders)
    requires Inv(s) && Accounts(s, left) && Traverses(s, o) && ch in s.params
    ensures Accounts(HandleDisconnect(s, ch, o), left)
  {
    ClientOf(s, ch);
    CoversSubs(s, o, s.params[ch].session);
    RemoveAccounts(s, left, s.params[ch], o);
  }

  lemma StepAccounts(s: Server, left: Left, e: Event, o: Orders)
    requires Inv(s) && Accounts(s, left) && Possible(s, e) && Traverses(s, o)
    ensures Accounts(Step(s, e, o), LeftAfter(s, left, e))
  {
    if !s.core.stuck {
      match e
      case Connecting(ch, l) => ConnectAccounts(s, left, ch, l, o);
      case Subscribing(ch, id, items) => if ch in s.params { SubscribeAccounts(s, left, ch, id, items, o); }
      case Unsubscribing(ch, id, names) => if ch in s.params { UnsubscribeAccounts(s, left, ch, id, names); }
      case Publishing(ch, p) => if ch in s.params { PublishAccounts(s, left, ch, p, o); }
      case Disconnecting(ch) => if ch in s.params { DisconnectAccounts(s, left, ch, o); }
      case Losing(ch) => if ch in s.params { LostAccounts(s, left, ch, o); }
      case _ => AckAccounts(s, left, e);
    }
  }

  lemma {:induction false} RunAccounts(s: Server, left: Left, es: seq<(Event, Orders)>)
    requires Inv(s) && Accounts(s, left) && PossibleRun(s, es)
    ensures Accounts(Run(s, es), RunLeft(s, left, es))
    decreases es
  {
    if es != [] {
      StepInv(s, es[0].0, es[0].1);
      StepAccounts(s, left, es[0].0, es[0].1);
      RunAccounts(Step(s, es[0].0, es[0].1), LeftAfter(s, left, es[0].0), es[1..]);
    }
  }

  lemma StartAccounts()
    ensures Accounts(Start, map[])
  {
    assert forall id :: AccountsAt(Start, map[], id);
  }

  /** Main result: after any run from the start, for every id and every place, the tables hold the entry the
      id's session asks for, or one a clean takeover left there and nothing has replaced since, or none. */
  lemma TablesOverRuns(es: seq<(Event, Orders)>, w: bool, f: Str, id: ClientId)
    requires PossibleRun(Start, es)
    ensures var s, left := Run(Start, es), RunLeft(Start, map[], es);
      Has(s.tables, w, f, id) == if Wants(s, w, f, id).Some? then Wants(s, w, f, id) else LeftAt(left, w, f, id)
  {
    StartInv();
    StartAccounts();
    RunAccounts(Start, map[], es);
    assert AccountsAt(Run(Start, es), RunLeft(Start, map[], es), id);
  }

  // ---------------------------------------------------------------- exact agreement

  ghost predicate NoEntry(t: Tables, id: ClientId) {
    forall w, f :: Has(t, w, f, id) == None
  }

  /** The tables and the session of an id agree exactly; an id that is offline has no entry. */
  ghost predicate Agreed(s: Server, id: ClientId) {
    if id in s.clients then Exact(s.tables, s.clients[id], SubsOf(s.core, s.clients[id].session))
      else NoEntry(s.tables, id)
  }

  lemma AgreedIsWanted(s: Server, id: ClientId)
    requires id in s.clients ==> s.clients[id].id == id
    ensures Agreed(s, id) <==> forall w, f :: Has(s.tables, w, f, id) == Wants(s, w, f, id)
  {
  }

  /** Agreement over runs: exact for an id if and only if no place of it is left over from a clean takeover
      that left subscriptions behind. */
  lemma AgreementOverRuns(es: seq<(Event, Orders)>, id: ClientId)
    requires PossibleRun(Start, es)
    ensures Agreed(Run(Start, es), id) <==> forall x :: x in RunLeft(Start, map[], es) ==> x.id != id
  {
    var s, left := Run(Start, es), RunLeft(Start, map[], es);
    StartInv();
    RunInv(Start, es);
    StartAccounts();
    RunAccounts(Start, map[], es);
    AgreedIffNothingLeft(s, left, id);
  }

  lemma AgreedIffNothingLeft(s: Server, left: Left, id: ClientId)
    requires Connections(s) && Accounts(s, left)
    ensures Agreed(s, id) <==> forall x :: x in left ==> x.id != id
  {
    assert AccountsAt(s, left, id);
    AgreedIsWanted(s, id);
    forall x | x in left && x.id == id ensures !Agreed(s, id) {
      assert LeftAt(left, x.wild, x.filter, id).Some?;
    }
  }

  /** An accepted clean CONNECT for a connected id that has subscriptions. */
  predicate Abandons(s: Server, e: Event, id: ClientId) {
    !s.core.stuck && e.Connecting? && e.login.code == 0 && e.login.clean && e.login.id == id
      && id in s.clients && SubsOf(s.core, s.clients[id].session) != map[]
  }

  predicate RunAbandons(s: Server, es: seq<(Event, Orders)>, id: ClientId)
    decreases es
  {
    es != [] && (Abandons(s, es[0].0, id) || RunAbandons(Step(s, es[0].0, es[0].1), es[1..], id))
  }

  predicate NothingLeft(left: Left, id: ClientId) {
    forall x :: x in left ==> x.id != id
  }

  lemma LeftAfterOf(s: Server, left: Left, e: Event, id: ClientId)
    requires Connections(s) && NothingLeft(left, id)
    ensures NothingLeft(LeftAfter(s, left, e), id) <==> !Abandons(s, e, id)
  {
    if Abandons(s, e, id) {
      var subs := SubsOf(s.core, s.clients[id].session);
      var f :| f in subs;
      assert s.clients[id].id == id && Place(subs[f].wild, f, id) in LeftAfter(s, left, e);
    }
  }

  ghost predicate AgreedThroughout(s: Server, es: seq<(Event, Orders)>, id: ClientId) {
    forall k :: 0 <= k <= |es| ==> Agreed(Run(s, es[..k]), id)
  }

  lemma ThroughoutCons(s: Server, es: seq<(Event, Orders)>, id: ClientId)
    requires es != []
    ensures AgreedThroughout(s, es, id) <==>
      Agreed(s, id) && AgreedThroughout(Step(s, es[0].0, es[0].1), es[1..], id)
  {
    var s1, rest := Step(s, es[0].0, es[0].1), es[1..];
    assert es[..0] == [];
    forall k | 0 <= k <= |rest| ensures Run(s1, rest[..k]) == Run(s, es[..k + 1]) {
      assert es[..k + 1][1..] == rest[..k];
    }
    if AgreedThroughout(s, es, id) {
      assert Agreed(Run(s, es[..0]), id);
      forall k | 0 <= k <= |rest| ensures Agreed(Run(s1, rest[..k]), id) { assert Agreed(Run(s, es[..k + 1]), id); }
    }
    if Agreed(s, id) && AgreedThroughout(s1, rest, id) {
      forall k | 0 <= k <= |es| ensures Agreed(Run(s, es[..k]), id) {
        if k > 0 { assert Agreed(Run(s1, rest[..k - 1]), id); }
      }
    }
  }

  lemma {:induction false} ThroughoutIff(s: Server, left: Left, es: seq<(Event, Orders)>, id: ClientId)
    requires Inv(s) && Accounts(s, left) && PossibleRun(s, es) && NothingLeft(left, id)
    ensures AgreedThroughout(s, es, id) <==> !RunAbandons(s, es, id)
    decreases es
  {
    AgreedIffNothingLeft(s, left, id);
    if es == [] {
      assert forall k :: 0 <= k <= |es| ==> es[..k] == [];
    } else {
      var s1, left1 := Step(s, es[0].0, es[0].1), LeftAfter(s, left, es[0].0);
      StepInv(s, es[0].0, es[0].1);
      StepAccounts(s, left, es[0].0, es[0].1);
      LeftAfterOf(s, left, es[0].0, id);
      ThroughoutCons(s, es, id);
      if Abandons(s, es[0].0, id) {
        AgreedIffNothingLeft(s1, left1, id);
        assert es[1..][..0] == [] && !Agreed(Run(s1, es[1..][..0]), id);
      } else {
        ThroughoutIff(s1, left1, es[1..], id);
      }
    }
  }

  /** An id is in agreement at every moment of a run if and only if no clean CONNECT of it is accepted
      while it is connected with subscriptions. */
  lemma AgreementThroughout(es: seq<(Event, Orders)>, id: ClientId)
    requires PossibleRun(Start, es)
    ensures (forall k :: 0 <= k <= |es| ==> Agreed(Run(Start, es[..k]), id)) <==> !RunAbandons(Start, es, id)
  {
    StartInv();
    StartAccounts();
    ThroughoutIff(Start, map[], es, id);
  }

  // ---------------------------------------------------------------- takeover

  /** The client and the subscriptions after an accepted CONNECT for a connected id. */
  ghost predicate TakenOver(s: Server, s': Server, l: Login, o: Orders)
    requires l.id in s.clients
  {
    && l.id in s'.clients && s'.clients[l.id].id == l.id
    && var subs := SubsOf(s.core, s.clients[l.id].session);
      && SubsOf(s'.core, s'.clients[l.id].session) == (if l.clean then map[] else subs)
      && s'.tables == if l.clean then s.tables else AttachAll(s.tables, s'.clients[l.id], subs, o.subs)
  }

  lemma TakeoverState(s: Server, ch: Channel, l: Login, o: Orders)
    requires Inv(s) && ch !in s.core.heap && l.id in s.clients
    ensures var s1 := Evict(s, l.id);
      var s2 := Admit(s1, ch, l);
      TakenOver(s, if Restores(s1, l) then Restore(s2, s2.params[ch], o) else s2, l, o)
  {
    WhenRestored(s, l);
    if Restores(Evict(s, l.id), l) {
      RestoredState(s, ch, l, o);
    } else {
      AdmitShape(s, ch, l);
      AdmitSubs(Evict(s, l.id), ch, l);
    }
  }

  /** Exactly when a takeover ends in agreement, from any reachable state: it does if and only if there was
      agreement before, and it restores the session or the old connection had no subscription. */
  lemma TakeoverAgreement(s: Server, ch: Channel, l: Login, o: Orders)
    requires Inv(s) && Possible(s, Connecting(ch, l)) && Traverses(s, o) && l.code == 0 && l.id in s.clients
    ensures var s' := HandleConnect(s, ch, l, o);
      Agreed(s', l.id) <==> Agreed(s, l.id) && (!l.clean || SubsOf(s.core, s.clients[l.id].session) == map[])
  {
    var s', c := HandleConnect(s, ch, l, o), s.clients[l.id];
    var subs := SubsOf(s.core, c.session);
    SeenInv(s, s.(seen := s.seen + {ch}));
    TakeoverState(s.(seen := s.seen + {ch}), ch, l, o);
    assert TakenOver(s, s', l, o);
    assert IndexAt(s, l.id) && c.id == l.id;
    if l.clean {
      CleanTakeoverExact(s.tables, s'.clients[l.id], c, subs);
    } else {
      CoversSubs(s, o, c.session);
      RestoredIndex(s.tables, s'.clients[l.id], subs, o.subs);
      RestoredExact(s.tables, s'.tables, s'.clients[l.id], c, subs);
    }
  }

  lemma CleanTakeoverExact(t: Tables, c: Client, previous: Client, subs: map<Str, Sub>)
    requires Covered(t, previous, subs) && c.id == previous.id
    ensures Exact(t, c, map[]) <==> Exact(t, previous, subs) && subs == map[]
  {
    if subs != map[] {
      var f :| f in subs;
      assert Says(previous, subs, subs[f].wild, f).Some?;
      assert Says(c, map[], subs[f].wild, f) == None;
    } else {
      assert forall w, f :: Says(c, map[], w, f) == Says(previous, subs, w, f) == None;
    }
  }

  lemma RestoredExact(t: Tables, t': Tables, c: Client, previous: Client, subs: map<Str, Sub>)
    requires Covered(t, previous, subs) && c.id == previous.id
    requires forall w, f :: Has(t', w, f, c.id) == if Says(c, subs, w, f).Some? then Says(c, subs, w, f)
      else Has(t, w, f, c.id)
    ensures Exact(t', c, subs) <==> Exact(t, previous, subs)
  {
    if Exact(t', c, subs) {
      forall w, f ensures Has(t, w, f, previous.id) == Says(previous, subs, w, f) {
        assert Has(t', w, f, c.id) == Says(c, subs, w, f);
      }
    }
  }
}
