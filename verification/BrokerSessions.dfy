/** Whole runs of the connection and session tables: who is connected, which sessions persist, what a takeover does. */
module BrokerSessions {
  import opened Basics
  import opened TopicFilter
  import opened Broker
  import opened BrokerCore
  import opened BrokerIndex
  import opened BrokerInvariant

  // ---------------------------------------------------------------- which sessions persist

  /** The clean-session flag of the last accepted CONNECT of each id, over a run. */
  function Logins(s: Server, last: map<ClientId, bool>, es: seq<(Event, Orders)>): map<ClientId, bool>
    decreases es
  {
    if es == [] then last
    else Logins(Step(s, es[0].0, es[0].1), LoggedIn(s, last, es[0].0), es[1..])
  }

  function LoggedIn(s: Server, last: map<ClientId, bool>, e: Event): map<ClientId, bool> {
    if e.Connecting? && e.login.code == 0 && !s.core.stuck then last[e.login.id := e.login.clean] else last
  }

  /** A session is stored for exactly the connected ids and those whose last connection asked to keep it. */
  ghost predicate Persists(s: Server, last: map<ClientId, bool>) {
    && (forall id :: id in s.sessions <==> id in last && (id in s.clients || !last[id]))
    && (forall id :: id in s.clients ==> id in last && last[id] == s.clients[id].clean)
  }

  /** A step that leaves clients and sessions as they are. */
  predicate SameIds(s: Server, s': Server) {
    s'.clients == s.clients && s'.sessions == s.sessions
  }

  lemma QuietSteps(s: Server, e: Event, o: Orders)
    requires !e.Connecting? && !e.Disconnecting? && !e.Losing?
    ensures SameIds(s, Step(s, e, o))
  {
  }

  lemma RemoveIds(s: Server, c: Client, o: Orders)
    ensures Remove(s, c, o).clients == s.clients - {c.id}
    ensures Remove(s, c, o).sessions == if c.clean then s.sessions - {c.id} else s.sessions
  {
  }

  lemma RemovePersists(s: Server, s': Server, last: map<ClientId, bool>, c: Client)
    requires Persists(s, last) && c.id in s.clients && s.clients[c.id] == c
    requires s'.clients == s.clients - {c.id} && s'.sessions == if c.clean then s.sessions - {c.id} else s.sessions
    ensures Persists(s', last)
  {
  }

  lemma WillIds(s: Server, c: Client, o: Orders)
    ensures SameIds(s, PublishWill(s, c, o))
  {
  }

  lemma LostIds(s: Server, ch: Channel, o: Orders)
    requires ch in s.params
    ensures HandleLost(s, ch, o).clients == s.clients - {s.params[ch].id}
    ensures HandleLost(s, ch, o).sessions == if s.params[ch].clean then s.sessions - {s.params[ch].id} else s.sessions
  {
    WillIds(s, s.params[ch], o);
    RemoveIds(PublishWill(s, s.params[ch], o), s.params[ch], o);
  }

  lemma ConnectIds(s: Server, ch: Channel, l: Login, o: Orders)
    requires l.code == 0 && l.id != []
    ensures var s' := HandleConnect(s, ch, l, o);
      && s'.clients.Keys == s.clients.Keys + {l.id} && s'.sessions.Keys == s.sessions.Keys + {l.id}
      && s'.clients[l.id].clean == l.clean
      && (forall id :: id in s.clients && id != l.id ==> s'.clients[id] == s.clients[id])
      && (forall id :: id in s.sessions && id != l.id ==> s'.sessions[id] == s.sessions[id])
  {
  }

  lemma ConnectPersists(s: Server, s': Server, last: map<ClientId, bool>, l: Login)
    requires Persists(s, last)
    requires s'.clients.Keys == s.clients.Keys + {l.id} && s'.sessions.Keys == s.sessions.Keys + {l.id}
    requires s'.clients[l.id].clean == l.clean
      && forall id :: id in s.clients && id != l.id ==> s'.clients[id] == s.clients[id]
    ensures Persists(s', last[l.id := l.clean])
  {
    var last' := last[l.id := l.clean];
    forall id ensures id in s'.sessions <==> id in last' && (id in s'.clients || !last'[id]) {
      assert id in s'.sessions.Keys <==> id in s.sessions.Keys || id == l.id;
      assert id in s'.clients.Keys <==> id in s.clients.Keys || id == l.id;
    }
    forall id | id in s'.clients ensures id in last' && last'[id] == s'.clients[id].clean {
      assert id in s'.clients.Keys;
    }
  }

  lemma AcceptPersists(s: Server, last: map<ClientId, bool>, ch: Channel, l: Login, o: Orders)
    requires Persists(s, last) && l.id != [] && l.code == 0
    ensures Persists(HandleConnect(s, ch, l, o), last[l.id := l.clean])
  {
    ConnectIds(s, ch, l, o);
    ConnectPersists(s, HandleConnect(s, ch, l, o), last, l);
  }

  lemma LeavePersists(s: Server, last: map<ClientId, bool>, ch: Channel, o: Orders)
    requires Connections(s) && Persists(s, last) && ch in s.params
    ensures Persists(Remove(s, s.params[ch], o), last) && Persists(HandleLost(s, ch, o), last)
  {
    ClientOf(s, ch);
    RemoveIds(s, s.params[ch], o);
    RemovePersists(s, Remove(s, s.params[ch], o), last, s.params[ch]);
    LostIds(s, ch, o);
    RemovePersists(s, HandleLost(s, ch, o), last, s.params[ch]);
  }

  lemma StepPersists(s: Server, last: map<ClientId, bool>, e: Event, o: Orders)
    requires Connections(s) && Possible(s, e) && Persists(s, last)
    ensures Persists(Step(s, e, o), LoggedIn(s, last, e))
  {
    if !e.Connecting? && !e.Disconnecting? && !e.Losing? {
      QuietSteps(s, e, o);
    } else if e.Connecting? {
      if e.login.code == 0 { AcceptPersists(s, last, e.ch, e.login, o); }
    } else if e.ch in s.params {
      LeavePersists(s, last, e.ch, o);
    }
  }

  lemma {:induction false} RunPersists(s: Server, last: map<ClientId, bool>, es: seq<(Event, Orders)>)
    requires Inv(s) && PossibleRun(s, es) && Persists(s, last)
    ensures Persists(Run(s, es), Logins(s, last, es))
    decreases es
  {
    if es != [] {
      StepInv(s, es[0].0, es[0].1);
      StepPersists(s, last, es[0].0, es[0].1);
      RunPersists(Step(s, es[0].0, es[0].1), LoggedIn(s, last, es[0].0), es[1..]);
    }
  }

  /** Session persistence: after any run from the start, an id that is not connected has a stored session
      iff its last accepted CONNECT had clean_session = false. */
  lemma OfflineSessions(es: seq<(Event, Orders)>, id: ClientId)
    requires PossibleRun(Start, es) && id !in Run(Start, es).clients
    ensures id in Run(Start, es).sessions <==> id in Logins(Start, map[], es) && !Logins(Start, map[], es)[id]
  {
    StartInv();
    RunPersists(Start, map[], es);
  }

  // ---------------------------------------------------------------- other clients' steps

  /** The id a step is about: of the client on the channel, or the one logging in. */
  function Actor(s: Server, e: Event): Option<ClientId> {
    if e.Connecting? then Some(e.login.id) else if e.ch in s.params then Some(s.params[e.ch].id) else None
  }

  lemma SessionOfActor(s: Server, e: Event, id: ClientId)
    requires Connections(s) && !e.Connecting? && e.ch in s.params && id in s.sessions && Actor(s, e) != Some(id)
    ensures s.params[e.ch].session != s.sessions[id]
  {
    ClientOf(s, e.ch);
  }

  lemma SubscriberSubs(s: Server, e: Event, o: Orders, ref: Channel)
    requires Connections(s) && Stored(s) && Index(s) && Possible(s, e) && (e.Subscribing? || e.Unsubscribing?)
    requires e.ch in s.params ==> s.params[e.ch].session != ref
    ensures e.Subscribing? ==> SubsOf(HandleSubscribe(s, e.ch, e.packetId, e.items, o).core, ref) == SubsOf(s.core, ref)
    ensures e.Unsubscribing? ==>
      SubsOf(HandleUnsubscribe(s, e.ch, e.packetId, e.names).core, ref) == SubsOf(s.core, ref)
  {
    if e.ch in s.params {
      ClientOf(s, e.ch);
      ConnectedIndex(s, e.ch);
      if e.Subscribing? { SubscribeParts(s, s.params[e.ch], e.packetId, e.items, o); }
      else { UnsubscribeParts(s, s.params[e.ch], e.packetId, e.names); }
    }
  }

  lemma OthersSubs(s: Server, e: Event, o: Orders, ref: Channel)
    requires Inv(s) && Possible(s, e) && ref in s.core.heap
    requires (e.Subscribing? || e.Unsubscribing?) && e.ch in s.params ==> s.params[e.ch].session != ref
    ensures SubsOf(Step(s, e, o).core, ref) == SubsOf(s.core, ref)
  {
    if !s.core.stuck {
      match e
      case Connecting(ch, l) => ConnectSubs(s, ch, l, o, ref);
      case Subscribing(ch, id, items) => SubscriberSubs(s, e, o, ref);
      case Unsubscribing(ch, id, names) => SubscriberSubs(s, e, o, ref);
      case Publishing(ch, p) => if ch in s.params { PublishStored(s, ch, p, o); }
      case Disconnecting(ch) => {}
      case Losing(ch) => if ch in s.params { WillInv(s, ch, o); }
      case _ => AckSubs(s, e, ref);
    }
  }

  lemma AckSubs(s: Server, e: Event, ref: Channel)
    requires IsAck(e)
    ensures SubsOf(HandleAck(s, e).core, ref) == SubsOf(s.core, ref)
  {
  }

  lemma AcceptSubs(s: Server, s1: Server, ch: Channel, l: Login, o: Orders, ref: Channel)
    requires Stored(s1) && ch !in s1.core.heap && ref in s1.core.heap && s1.core == s.core
    ensures var s2 := Admit(s1, ch, l);
      SubsOf((if Restores(s1, l) then Restore(s2, s2.params[ch], o) else s2).core, ref) == SubsOf(s.core, ref)
  {
    var s2 := Admit(s1, ch, l);
    AdmitStored(s1, ch, l);
    AdmitSubs(s1, ch, l);
    if Restores(s1, l) { RestoreStored(s2, s2.params[ch], o); }
  }

  lemma ConnectSubs(s: Server, ch: Channel, l: Login, o: Orders, ref: Channel)
    requires Connections(s) && Stored(s) && Possible(s, Connecting(ch, l)) && ref in s.core.heap
    ensures SubsOf(HandleConnect(s, ch, l, o).core, ref) == SubsOf(s.core, ref)
  {
    if l.code == 0 { AcceptSubs(s, Evict(s.(seen := s.seen + {ch}), l.id), ch, l, o, ref); }
  }

  /** The tables say the same of id. */
  predicate SameAt(s: Server, s': Server, id: ClientId) {
    && (id in s'.sessions <==> id in s.sessions) && (id in s.sessions ==> s'.sessions[id] == s.sessions[id])
    && (id in s'.clients <==> id in s.clients) && (id in s.clients ==> s'.clients[id] == s.clients[id])
  }

  lemma ConnectOthers(s: Server, ch: Channel, l: Login, o: Orders, id: ClientId)
    requires l.code == 0 && l.id != [] && l.id != id
    ensures SameAt(s, HandleConnect(s, ch, l, o), id)
  {
    ConnectIds(s, ch, l, o);
    OtherKeys(s, HandleConnect(s, ch, l, o), l.id, id);
  }

  lemma LeaveOthers(s: Server, ch: Channel, o: Orders, id: ClientId)
    requires ch in s.params && s.params[ch].id != id
    ensures SameAt(s, Remove(s, s.params[ch], o), id) && SameAt(s, HandleLost(s, ch, o), id)
  {
    RemoveIds(s, s.params[ch], o);
    LostIds(s, ch, o);
  }

  lemma OthersIds(s: Server, e: Event, o: Orders, id: ClientId)
    requires Connections(s) && Possible(s, e) && Actor(s, e) != Some(id)
    ensures SameAt(s, Step(s, e, o), id)
  {
    if !e.Connecting? && !e.Disconnecting? && !e.Losing? {
      QuietSteps(s, e, o);
    } else if e.Connecting? {
      if e.login.code == 0 { ConnectOthers(s, e.ch, e.login, o, id); }
    } else if e.ch in s.params {
      LeaveOthers(s, e.ch, o, id);
    }
  }

  lemma OtherKeys(s: Server, s': Server, actor: ClientId, id: ClientId)
    requires s'.clients.Keys == s.clients.Keys + {actor} && s'.sessions.Keys == s.sessions.Keys + {actor} && id != actor
    ensures (id in s'.clients <==> id in s.clients) && (id in s'.sessions <==> id in s.sessions)
  {
    assert id in s'.clients.Keys <==> id in s.clients.Keys;
    assert id in s'.sessions.Keys <==> id in s.sessions.Keys;
  }

  /** A channel that has not logged in, or has left, can do nothing but send CONNECT. */
  lemma StrangersDoNothing(s: Server, e: Event, o: Orders)
    requires !e.Connecting? && e.ch !in s.params
    ensures Step(s, e, o) == s
  {
  }

  /** Nobody else's step changes an id's registration, its session object or the subscriptions in it. */
  lemma OthersKeepSession(s: Server, e: Event, o: Orders, id: ClientId)
    requires Inv(s) && Possible(s, e) && Traverses(s, o) && id in s.sessions && Actor(s, e) != Some(id)
    ensures var s' := Step(s, e, o);
      && (id in s'.clients <==> id in s.clients)
      && id in s'.sessions && s'.sessions[id] == s.sessions[id]
      && SubsOf(s'.core, s'.sessions[id]) == SubsOf(s.core, s.sessions[id])
  {
    OthersIds(s, e, o, id);
    if !e.Connecting? && e.ch in s.params { SessionOfActor(s, e, id); }
    OthersSubs(s, e, o, s.sessions[id]);
  }

  /** A run of other clients' steps. */
  predicate Without(s: Server, es: seq<(Event, Orders)>, id: ClientId)
    decreases es
  {
    es != [] ==> Actor(s, es[0].0) != Some(id) && Without(Step(s, es[0].0, es[0].1), es[1..], id)
  }

  /** So a stored session waits unchanged in its subscriptions for as long as its client stays away. */
  lemma {:induction false} SessionWaits(s: Server, es: seq<(Event, Orders)>, id: ClientId)
    requires Inv(s) && PossibleRun(s, es) && Without(s, es, id) && id in s.sessions
    ensures var s' := Run(s, es);
      && (id in s'.clients <==> id in s.clients)
      && id in s'.sessions && s'.sessions[id] == s.sessions[id]
      && SubsOf(s'.core, s'.sessions[id]) == SubsOf(s.core, s.sessions[id])
    decreases es
  {
    if es != [] {
      StepInv(s, es[0].0, es[0].1);
      OthersKeepSession(s, es[0].0, es[0].1, id);
      SessionWaits(Step(s, es[0].0, es[0].1), es[1..], id);
    }
  }

  // ---------------------------------------------------------------- takeover

  /** A CONNECT for an id that is connected moves it to the new channel at once: the old one has no client. */
  lemma TakeoverMoves(s: Server, ch: Channel, l: Login, o: Orders)
    requires Inv(s) && Possible(s, Connecting(ch, l)) && Traverses(s, o) && l.code == 0 && l.id in s.clients
    ensures var s' := HandleConnect(s, ch, l, o);
      && s.clients[l.id].channel !in s'.params && ch in s'.params && s'.clients[l.id] == s'.params[ch]
      && forall k :: k in s'.params && s'.params[k].id == l.id ==> k == ch
  {
    ConnectInv(s, ch, l, o);
    ConnectParams(s, ch, l, o);
    var s' := HandleConnect(s, ch, l, o);
    forall k | k in s'.params && s'.params[k].id == l.id ensures k == ch {
      assert s'.clients[s'.params[k].id] == s'.params[k];
    }
  }

  lemma ConnectParams(s: Server, ch: Channel, l: Login, o: Orders)
    requires Connections(s) && Possible(s, Connecting(ch, l)) && l.code == 0
    ensures var s' := HandleConnect(s, ch, l, o);
      && ch in s'.params && s'.params[ch].id == l.id && s'.params[ch].channel == ch
      && (l.id in s.clients ==> s'.params.Keys == s.params.Keys - {s.clients[l.id].channel} + {ch})
  {
  }

  // ---------------------------------------------------------------- what every run keeps

  /** No subscription of a connected client is missing from the tables. */
  lemma SubscriptionsAreIndexed(es: seq<(Event, Orders)>, id: ClientId, f: Str)
    requires PossibleRun(Start, es)
    ensures var s := Run(Start, es);
      id in s.clients && f in SubsOf(s.core, s.clients[id].session) ==>
        Has(s.tables, HasWildcard(f), f, id) == Some(Entry(s.clients[id], SubsOf(s.core, s.clients[id].session)[f].qos))
  {
    StartInv();
    RunInv(Start, es);
    var s := Run(Start, es);
    assert IndexAt(s, id);
    if id in s.clients {
      var c := s.clients[id];
      var subs := SubsOf(s.core, c.session);
      if f in subs {
        SessionAt(s.core, c.session, s.core.heap.Keys);
        assert SubOk(f, subs[f]);
        assert Says(c, subs, subs[f].wild, f).Some?;
      }
    }
  }

  /** No id is live on two channels, and no two ids share a session object. */
  lemma OneChannelPerId(es: seq<(Event, Orders)>, a: Channel, b: Channel)
    requires PossibleRun(Start, es) && a in Run(Start, es).params && b in Run(Start, es).params && a != b
    ensures Run(Start, es).params[a].id != Run(Start, es).params[b].id
    ensures Run(Start, es).params[a].session != Run(Start, es).params[b].session
  {
    StartInv();
    RunInv(Start, es);
    var s := Run(Start, es);
    ClientOf(s, a);
    ClientOf(s, b);
  }

  // ---------------------------------------------------------------- empty client ids

  /** Why runs with empty ids are set aside: the client object keeps the empty id while the lookup uses the
      generated one. An accepted anonymous CONNECT keeps the bijection iff no other anonymous client is
      registered. */
  lemma AnonymousCollide(s: Server, ch: Channel, l: Login, o: Orders)
    requires Connections(s) && ch !in s.seen && l.code == 0 && l.id == [] && l.clean && l.generated !in s.clients
    ensures Bijection(HandleConnect(s, ch, l, o).clients, HandleConnect(s, ch, l, o).params) <==> [] !in s.clients
  {
    var s' := HandleConnect(s, ch, l, o);
    assert ch in s'.params && s'.params[ch].id == [] && s'.params[ch].channel == ch;
    if [] in s.clients {
      assert s'.clients[[]] == s.clients[[]] && s.clients[[]].channel in s.params;
      assert s'.clients[s'.params[ch].id] != s'.params[ch];
    } else {
      AdmitBijection(s.clients, s.params, s'.params[ch]);
    }
  }

  /** Two anonymous clients, one after the other: both channels have a client with the empty id. */
  lemma AnonymousExample(a: Login, b: Login, o: Orders)
    requires a == Login([], true, None, false, 0, [0x40, 0x31]) && b == Login([], true, None, false, 0, [0x40, 0x32])
    ensures var s := HandleConnect(HandleConnect(Start, 1, a, o), 2, b, o);
      1 in s.params && 2 in s.params && s.params[1].id == s.params[2].id && !Bijection(s.clients, s.params)
  {
    var s1 := HandleConnect(Start, 1, a, o);
    assert s1.params == map[1 := Client(1, [], false, true, None, 1)];
    var s := HandleConnect(s1, 2, b, o);
    assert s.params[2].id == [] && s.clients[[]] == s.params[1] && s.params[1] != s.params[2];
  }
}
