/**
  Runs on which the broker falls short: a stale entry, a will that misses a subscriber, a report about a
  message that has arrived, a handler that never ends.
 */
module BrokerExamples {
  import opened Basics
  import FixedHeader
  import opened TopicFilter
  import opened Packets
  import opened Sessions
  import opened Broker
  import opened BrokerCore
  import opened BrokerEnds
  import opened BrokerIndex
  import opened BrokerAgreement
  import opened BrokerDelivery

  /** A run, taken apart at its first step. */
  lemma RunCons(s: Server, e: Event, o: Orders, es: seq<(Event, Orders)>)
    ensures Run(s, [(e, o)] + es) == Run(Step(s, e, o), es)
    ensures PossibleRun(s, [(e, o)] + es) <==> Possible(s, e) && Traverses(s, o) && PossibleRun(Step(s, e, o), es)
  {
    assert ([(e, o)] + es)[1..] == es;
  }

  // ---------------------------------------------------------------- a stale entry

  function TakeoverLogin(clean: bool): Login {
    Login([0x61], clean, None, false, 0, [])
  }

  const ByA := Client(1, [0x61], false, false, None, 1)

  /** Client "a" connects, subscribes to "f", and connects again on another channel with a clean session. */
  function TakeoverRun(o: Orders): seq<(Event, Orders)> {
    [(Connecting(1, TakeoverLogin(false)), o)]
      + ([(Subscribing(1, 7, [Item([0x66], 1, false)]), o)] + ([(Connecting(2, TakeoverLogin(true)), o)] + []))
  }

  function Connected(): Server {
    Server(map[[0x61] := ByA], map[[0x61] := 1], map[1 := ByA], Tables(map[], map[]), NewTopic,
           Core(map[1 := NewSession], [Write(1, Connack(false, 0))], false), {1})
  }

  lemma FirstConnects(o: Orders)
    ensures Step(Start, Connecting(1, TakeoverLogin(false)), o) == Connected()
  {
  }

  function Topical(): Topic {
    Topic(map[[0x61] := Entry(ByA, 1)], None)
  }

  lemma ThenSubscribes(o: Orders)
    ensures var s := Step(Connected(), Subscribing(1, 7, [Item([0x66], 1, false)]), o);
      && s.tables == Tables(map[[0x66] := Topical()], map[])
      && s.clients == map[[0x61] := ByA] && s.trash == NewTopic && s.seen == {1} && !s.core.stuck
        && s.sessions == map[[0x61] := 1]
      && s.core.heap.Keys == {1} && s.core.heap[1].subs == map[[0x66] := Sub(1, false)] && s.params == map[1 := ByA]
  {
    OneItem(Progress(Tables(map[], map[]), NewTopic, map[], [], [], []), ByA, Item([0x66], 1, false));
    var a := Subscribed(Connected(), ByA, [Item([0x66], 1, false)]);
    assert a == Progress(Tables(map[[0x66] := Topical()], map[]), NewTopic, map[[0x66] := Sub(1, false)], [1], [[0x66]],
      []);
    assert [[0x66]][1..] == [];
    assert Retained(a.tables, ByA, a.plain, a.wilds, o) == [];
  }

  lemma ThenTakenOver(s: Server, o: Orders)
    requires s.tables == Tables(map[[0x66] := Topical()], map[]) && s.clients == map[[0x61] := ByA] && !s.core.stuck
    ensures var s' := Step(s, Connecting(2, TakeoverLogin(true)), o);
      && s'.clients == map[[0x61] := Client(2, [0x61], false, true, None, 2)] && s'.tables == s.tables
      && 2 in s'.core.heap && s'.core.heap[2] == NewSession
  {
  }

  lemma TakeoverRunTraverses(s: Server, o: Orders)
    requires o == Orders([[0x66]], [[0x61]], [[0x66]]) && s.trash == NewTopic
    requires s.tables == Tables(map[[0x66] := Topical()], map[]) || s.tables == Tables(map[], map[])
    requires forall r, f :: r in s.core.heap && f in s.core.heap[r].subs ==> f == [0x66]
    ensures Traverses(s, o)
  {
    assert forall f :: f in o.filters <==> f == [0x66];
    assert forall f :: f in o.subs <==> f == [0x66];
    assert forall id :: id in o.ids <==> id == [0x61];
  }

  lemma ThreeSteps(s: Server, e1: Event, e2: Event, e3: Event, o: Orders, s1: Server, s2: Server)
    requires s1 == Step(s, e1, o) && s2 == Step(s1, e2, o)
    requires Possible(s, e1) && Possible(s1, e2) && Possible(s2, e3) && Traverses(s, o) && Traverses(s1, o)
      && Traverses(s2, o)
    ensures var es := [(e1, o)] + ([(e2, o)] + ([(e3, o)] + [])); PossibleRun(s, es) && Run(s, es) == Step(s2, e3, o)
  {
    RunCons(s, e1, o, [(e2, o)] + ([(e3, o)] + []));
    RunCons(s1, e2, o, [(e3, o)] + []);
    RunCons(s2, e3, o, []);
  }

  lemma TakeoverRunPossible(s: Server)
    requires s.seen == {1}
    ensures Possible(Start, Connecting(1, TakeoverLogin(false)))
    ensures Possible(Connected(), Subscribing(1, 7, [Item([0x66], 1, false)]))
    ensures Possible(s, Connecting(2, TakeoverLogin(true)))
  {
    assert ValidFrom([0x66], 0);
  }

  lemma TakeoverRunGoes(o: Orders, s2: Server)
    requires o == Orders([[0x66]], [[0x61]], [[0x66]])
    requires s2 == Step(Connected(), Subscribing(1, 7, [Item([0x66], 1, false)]), o)
    ensures PossibleRun(Start, TakeoverRun(o))
      && Run(Start, TakeoverRun(o)) == Step(s2, Connecting(2, TakeoverLogin(true)), o)
  {
    FirstConnects(o);
    ThenSubscribes(o);
    TakeoverRunTraverses(Start, o);
    TakeoverRunTraverses(Connected(), o);
    TakeoverRunTraverses(s2, o);
    TakeoverRunPossible(s2);
    ThreeSteps(Start, Connecting(1, TakeoverLogin(false)), Subscribing(1, 7, [Item([0x66], 1, false)]),
               Connecting(2, TakeoverLogin(true)), o, Connected(), s2);
  }

  lemma StaleMeansDisagreed(s: Server)
    requires s.clients == map[[0x61] := Client(2, [0x61], false, true, None, 2)] && 2 in s.core.heap
      && s.core.heap[2].subs == map[]
    requires s.tables == Tables(map[[0x66] := Topical()], map[])
    ensures Has(s.tables, false, [0x66], [0x61]) == Some(Entry(ByA, 1)) && !Agreed(s, [0x61])
  {
    assert Has(s.tables, false, [0x66], [0x61]) == Some(Entry(ByA, 1));
    assert Says(s.clients[[0x61]], map[], false, [0x66]) == None;
  }

  /** The failure TakeoverAgreement allows for, on a run from the start: the new session is empty, and the
      entry of the replaced connection is still there. */
  lemma StaleEntry(o: Orders)
    requires o == Orders([[0x66]], [[0x61]], [[0x66]])
    ensures PossibleRun(Start, TakeoverRun(o))
    ensures var s := Run(Start, TakeoverRun(o));
      && [0x61] in s.clients && s.clients[[0x61]].channel == 2 && SubsOf(s.core, s.clients[[0x61]].session) == map[]
      && Has(s.tables, false, [0x66], [0x61]) == Some(Entry(ByA, 1)) && !Agreed(s, [0x61])
  {
    var s2 := Step(Connected(), Subscribing(1, 7, [Item([0x66], 1, false)]), o);
    TakeoverRunGoes(o, s2);
    ThenSubscribes(o);
    ThenTakenOver(s2, o);
    StaleMeansDisagreed(Step(s2, Connecting(2, TakeoverLogin(true)), o));
  }

  // ---------------------------------------------------------------- a will and a wildcard subscriber

  const Message := Will([0x74], 0, false, [0x78])
  const ByWill := Client(1, [0x61], false, true, Some(Message), 1)
  const ByB := Client(2, [0x62], false, true, None, 2)
  const AnyTopic := Item([PLUS], 0, true)

  function WillLogin(): Login {
    Login([0x61], true, Some(Message), false, 0, [])
  }

  function OtherLogin(): Login {
    Login([0x62], true, None, false, 0, [])
  }

  /** Client "a" connects with a will for "t", client "b" connects and subscribes to "+". */
  function WillRun(o: Orders): seq<(Event, Orders)> {
    [(Connecting(1, WillLogin()), o)]
      + ([(Connecting(2, OtherLogin()), o)] + ([(Subscribing(2, 9, [AnyTopic]), o)] + []))
  }

  function WithWill(): Server {
    Server(map[[0x61] := ByWill], map[[0x61] := 1], map[1 := ByWill], Tables(map[], map[]), NewTopic,
           Core(map[1 := NewSession], [Write(1, Connack(false, 0))], false), {1})
  }

  lemma WillConnects(o: Orders)
    ensures Step(Start, Connecting(1, WillLogin()), o) == WithWill()
  {
  }

  function WithBoth(): Server {
    Server(map[[0x61] := ByWill, [0x62] := ByB], map[[0x61] := 1, [0x62] := 2], map[1 := ByWill, 2 := ByB],
      Tables(map[], map[]),
           NewTopic, Core(map[1 := NewSession, 2 := NewSession],
             [Write(1, Connack(false, 0)), Write(2, Connack(false, 0))], false), {1, 2})
  }

  lemma OtherConnects(o: Orders)
    ensures Step(WithWill(), Connecting(2, OtherLogin()), o) == WithBoth()
  {
  }

  function WildTopic(): Topic {
    Topic(map[[0x62] := Entry(ByB, 0)], None)
  }

  lemma OneItem(a: Progress, c: Client, item: Item)
    ensures SubscribeItems(a, c, [item]) == SubscribeOne(a, c, item)
  {
    var b := SubscribeOne(a, c, item);
    assert [item][1..] == [] && SubscribeItems(b, c, []) == b;
  }

  lemma OtherSubscribes(o: Orders)
    ensures var s := Step(WithBoth(), Subscribing(2, 9, [AnyTopic]), o);
      && s.tables == Tables(map[], map[[PLUS] := WildTopic()]) && s.params == map[1 := ByWill, 2 := ByB]
        && !s.core.stuck
  {
    var start := Progress(Tables(map[], map[]), NewTopic, map[], [], [], []);
    assert start == Progress(WithBoth().tables, WithBoth().trash, WithBoth().core.heap[2].subs, [], [], []);
    var a := SubscribeOne(start, ByB, AnyTopic);
    assert Attach(start.tables, ByB, [PLUS], 0, true) == Tables(map[], map[[PLUS] := WildTopic()]);
    OneItem(start, ByB, AnyTopic);
    assert a == Progress(Tables(map[], map[[PLUS] := WildTopic()]), NewTopic, map[[PLUS] := Sub(0, true)], [0], [],
      [[PLUS]]);
    NothingRetained(a.tables, ByB, a.wilds, o.filters);
  }

  lemma {:induction false} NothingKept(exact: map<Str, Topic>, c: Client, w: Str, q: byte, filters: seq<Str>)
    requires forall f :: f in exact ==> exact[f].retained.None?
    ensures RetainedMatching(exact, c, w, q, filters) == []
  {
    if filters != [] { NothingKept(exact, c, w, q, filters[1..]); }
  }

  lemma {:induction false} NothingRetained(t: Tables, c: Client, names: seq<Str>, filters: seq<Str>)
    requires forall f :: f in t.exact ==> t.exact[f].retained.None?
    ensures RetainedWild(t, c, names, filters) == []
  {
    if names != [] {
      NothingRetained(t, c, names[1..], filters);
      var topic := TopicOr(t.wild, names[0]);
      if c.id in topic.entries { NothingKept(t.exact, c, names[0], topic.entries[c.id].qos, filters); }
    }
  }

  lemma WillRunTraverses(s: Server, o: Orders)
    requires o == Orders([[PLUS]], [[0x62]], [[PLUS]])
    requires s == Start || s == WithWill() || s == WithBoth()
    ensures Traverses(s, o)
  {
  }

  lemma WillRunGoes(o: Orders)
    requires o == Orders([[PLUS]], [[0x62]], [[PLUS]])
    ensures PossibleRun(Start, WillRun(o))
      && Run(Start, WillRun(o)) == Step(WithBoth(), Subscribing(2, 9, [AnyTopic]), o)
  {
    WillConnects(o);
    OtherConnects(o);
    WillRunTraverses(Start, o);
    WillRunTraverses(WithWill(), o);
    WillRunTraverses(WithBoth(), o);
    WillRunPossible();
    ThreeSteps(Start, Connecting(1, WillLogin()), Connecting(2, OtherLogin()), Subscribing(2, 9, [AnyTopic]), o,
      WithWill(), WithBoth());
  }

  lemma WillRunPossible()
    ensures Possible(Start, Connecting(1, WillLogin())) && Possible(WithWill(), Connecting(2, OtherLogin()))
    ensures Possible(WithBoth(), Subscribing(2, 9, [AnyTopic]))
  {
    FixedHeader.AsciiIsUtf8(Message.topic);
    FixedHeader.Utf8IsReadable(Message.topic);
    assert ValidFrom([PLUS], 0);
  }

  lemma PlusMatches()
    ensures Scan([PLUS], [0x74])
  {
    assert [PLUS][1..] == [] && [0x74][1..] == [];
  }

  /** The failure WillServesAllIff allows for, on a run from the start: "b" would be sent any PUBLISH to "t",
      but when the channel of "a" is lost nothing is written. */
  lemma WillMissesSubscriber(o: Orders)
    requires o == Orders([[PLUS]], [[0x62]], [[PLUS]])
    ensures PossibleRun(Start, WillRun(o))
    ensures var s := Run(Start, WillRun(o));
      && 1 in s.params && s.params[1].will == Some(Message)
      && Hit(s.tables, Message.topic, Target(true, [PLUS], [0x62]))
      && Step(s, Losing(1), o).core.log == s.core.log
  {
    WillRunGoes(o);
    OtherSubscribes(o);
    PlusMatches();
    LostInSilence(Run(Start, WillRun(o)), o);
  }

  lemma LostInSilence(s: Server, o: Orders)
    requires s.tables.exact == map[] && s.params == map[1 := ByWill, 2 := ByB] && !s.core.stuck
    ensures Step(s, Losing(1), o).core.log == s.core.log
  {
  }

  // ---------------------------------------------------------------- a report about a message that arrived

  const Admin := Client(1, [0x61], true, true, None, 1)
  const T: Str := [0x74]
  const ToT := Publish(1, false, 0, true, T, 0, [0x78])
  const Three := [Item([PLUS], 0, true), Item(T, 0, false), Item(TRASH, 0, false)]

  function AdminLogin(): Login {
    Login([0x61], true, None, true, 0, [])
  }

  /** The one client connects as administrator, subscribes to "+", "t" and "$sys/trash", publishes a retained
      message to "t", and unsubscribes from "+". */
  function ReportRun(o: Orders): seq<(Event, Orders)> {
    [(Connecting(1, AdminLogin()), o)] + ([(Subscribing(1, 7, Three), o)] + ([(Publishing(1, ToT), o)] +
      ([(Unsubscribing(1, 8, [Named([PLUS], true)]), o)] + [])))
  }

  function WithAdmin(): Server {
    Server(map[[0x61] := Admin], map[[0x61] := 1], map[1 := Admin], Tables(map[], map[]), NewTopic,
           Core(map[1 := NewSession], [Write(1, Connack(false, 0))], false), {1})
  }

  lemma AdminConnects(o: Orders)
    ensures Step(Start, Connecting(1, AdminLogin()), o) == WithAdmin()
  {
  }

  const ThreeSubs := map[[PLUS] := Sub(0, true), T := Sub(0, false)]

  /** What the tables, $sys/trash and the one session hold. */
  ghost predicate Shape(s: Server, plus: Topic, t: Topic) {
    && s.tables == Tables(map[T := t], map[[PLUS] := plus]) && s.trash == Topic(map[[0x61] := Entry(Admin, 2)], None)
    && s.params == map[1 := Admin] && !s.core.stuck && s.core.heap.Keys == {1} && s.core.heap[1].subs == ThreeSubs
  }

  function Held(kept: Option<Publish>): Topic {
    Topic(map[[0x61] := Entry(Admin, 0)], kept)
  }

  lemma ThreeItems(a: Progress, c: Client)
    ensures SubscribeItems(a, c, Three) ==
      SubscribeOne(SubscribeOne(SubscribeOne(a, c, Three[0]), c, Three[1]), c, Three[2])
  {
    var b := SubscribeOne(a, c, Three[0]);
    assert Three[1..] == [Three[1], Three[2]] && [Three[1], Three[2]][1..] == [Three[2]];
    OneItem(SubscribeOne(b, c, Three[1]), c, Three[2]);
  }

  lemma AdminSubscribes(o: Orders)
    ensures var s := Step(WithAdmin(), Subscribing(1, 7, Three), o);
      Shape(s, Held(None), Held(None)) && Used(s.core.heap[1]) == {}
  {
    var start := Progress(Tables(map[], map[]), NewTopic, map[], [], [], []);
    ThreeItems(start, Admin);
    var a := Subscribed(WithAdmin(), Admin, Three);
    assert a == Progress(Tables(map[T := Held(None)], map[[PLUS] := Held(None)]), Enter(NewTopic, Admin, 2), ThreeSubs,
      [0, 0, 0], [T], [[PLUS]]);
    NothingRetained(a.tables, Admin, [[PLUS]], o.filters);
    assert [T][1..] == [] && RetainedExact(a.tables, Admin, [T]) == [];
  }

  lemma AdminFans(t: Tables, o: Orders)
    requires t == Tables(map[T := Held(None)], map[[PLUS] := Held(None)]) && o.ids == [[0x61]]
      && o.filters == [T, [PLUS]]
    ensures |FanOut(t, ToT, o)| == 2 && Sent(t.wild, o.filters, ToT, true)
  {
    PlusMatches();
    assert o.ids[1..] == [] && o.filters[1..] == [[PLUS]] && [[PLUS]][1..] == [];
    assert |TopicDeliveries(Held(None), o.ids, ToT)| == 1;
    assert Scan([PLUS], ToT.topic) && t.wild[[PLUS]] == Held(None) && WildDeliveries(t.wild, [], o.ids, ToT) == [];
    assert |WildDeliveries(t.wild, [[PLUS]], o.ids, ToT)| == 1;
    SentIffLast(t.wild, o.filters, ToT, true);
  }

  lemma EmptyHasRoom(core: Core, ds: seq<Delivery>)
    requires core.heap.Keys == {1} && Used(core.heap[1]) == {} && |ds| < MAX_ID
    ensures Room(core, ds)
  {
    forall i | 0 <= i < |ds| ensures RoomAt(core, ds, i) {
      LoadBound(ds[..i], 1);
      assert Taken(core.heap[1]) == 0;
    }
  }

  lemma PlusLeft()
    ensures KeepMatching(map[[PLUS] := Held(None)], ToT) == map[[PLUS] := Held(Some(ToT))]
  {
    PlusMatches();
  }

  lemma AdminPublishes(s: Server, o: Orders)
    requires Shape(s, Held(None), Held(None)) && Used(s.core.heap[1]) == {} && o.ids == [[0x61]]
      && o.filters == [T, [PLUS]]
    ensures Shape(Step(s, Publishing(1, ToT), o), Held(Some(ToT)), Held(Some(ToT)))
  {
    AdminFans(s.tables, o);
    PlusLeft();
    EmptyHasRoom(s.core, FanOut(s.tables, ToT, o));
    assert Sends(s, Publishing(1, ToT), o) == FanOut(s.tables, ToT, o);
    StepEndsIff(s, Publishing(1, ToT), o);
    DeliverAllGrows(s.core, FanOut(s.tables, ToT, o));
    assert SessionGrows(s.core.heap[1], Step(s, Publishing(1, ToT), o).core.heap[1]);
  }

  lemma PlusDropped(t: Tables)
    requires t == Tables(map[T := Held(Some(ToT))], map[[PLUS] := Held(Some(ToT))])
    ensures Detach(t, [0x61], [PLUS], true) == t.(wild := map[[PLUS] := Topic(map[], Some(ToT))])
  {
    assert Leave(Held(Some(ToT)), [0x61]) == Topic(map[], Some(ToT));
  }

  lemma AdminUnsubscribes(s: Server, o: Orders)
    requires Shape(s, Held(Some(ToT)), Held(Some(ToT)))
    ensures var s' := Step(s, Unsubscribing(1, 8, [Named([PLUS], true)]), o);
      && s'.tables == Tables(map[T := Held(Some(ToT))], map[[PLUS] := Topic(map[], Some(ToT))]) && s'.trash == s.trash
      && s'.params == s.params && !s'.core.stuck
  {
    var a, n := Removal(s.tables, ThreeSubs), Named([PLUS], true);
    PlusDropped(s.tables);
    assert [n][1..] == [] && UnsubscribeNames(a, [0x61], [n]) == UnsubscribeOne(a, [0x61], n);
  }

  lemma ShapeTraverses(s: Server, kept: Option<Publish>, o: Orders)
    requires o == Orders([T, [PLUS]], [[0x61]], [T, [PLUS]]) && Shape(s, Held(kept), Held(kept))
    ensures Traverses(s, o)
  {
    assert forall f :: f in o.filters <==> f == T || f == [PLUS];
  }

  lemma AdminTraverses(s: Server, o: Orders)
    requires o == Orders([T, [PLUS]], [[0x61]], [T, [PLUS]]) && (s == Start || s == WithAdmin())
    ensures Traverses(s, o)
  {
  }

  lemma IsDecoded(f: Str)
    requires f == [PLUS] || f == T || f == TRASH
    ensures Decoded(Item(f, 0, f == [PLUS]))
  {
    ValidFromMeans(f, 0);
    HasWildcardMeans(f);
    if f == [PLUS] { assert IsWildcard(f[0]); }
  }

  lemma ThreePossible(s: Server)
    ensures Possible(s, Subscribing(1, 7, Three))
  {
    IsDecoded([PLUS]);
    IsDecoded(T);
    IsDecoded(TRASH);
    AllPossible(s, Three[0], Three[1], Three[2]);
  }

  lemma AllPossible(s: Server, a: Item, b: Item, c: Item)
    requires Decoded(a) && Decoded(b) && Decoded(c)
    ensures Possible(s, Subscribing(1, 7, [a, b, c]))
  {
  }

  lemma ReportRunPossible(s: Server)
    ensures Possible(Start, Connecting(1, AdminLogin())) && Possible(s, Publishing(1, ToT))
    ensures Possible(s, Unsubscribing(1, 8, [Named([PLUS], true)]))
  {
    FixedHeader.AsciiIsUtf8(ToT.topic);
    FixedHeader.Utf8IsReadable(ToT.topic);
  }

  lemma ReportRunGoes(o: Orders, s2: Server, s3: Server)
    requires o == Orders([T, [PLUS]], [[0x61]], [T, [PLUS]])
    requires s2 == Step(WithAdmin(), Subscribing(1, 7, Three), o) && Shape(s2, Held(None), Held(None))
    requires s3 == Step(s2, Publishing(1, ToT), o) && Shape(s3, Held(Some(ToT)), Held(Some(ToT)))
    ensures PossibleRun(Start, ReportRun(o))
    ensures Run(Start, ReportRun(o)) == Step(s3, Unsubscribing(1, 8, [Named([PLUS], true)]), o)
  {
    var e1, e2, e3, e4 := Connecting(1, AdminLogin()), Subscribing(1, 7, Three), Publishing(1, ToT),
      Unsubscribing(1, 8, [Named([PLUS], true)]);
    AdminConnects(o);
    AdminTraverses(Start, o);
    AdminTraverses(WithAdmin(), o);
    ShapeTraverses(s2, None, o);
    ShapeTraverses(s3, Some(ToT), o);
    ThreePossible(WithAdmin());
    ReportRunPossible(s2);
    ReportRunPossible(s3);
    ThreeSteps(WithAdmin(), e2, e3, e4, o, s2, s3);
    RunCons(Start, e1, o, [(e2, o)] + ([(e3, o)] + ([(e4, o)] + [])));
  }

  /** A message that reaches a subscriber may still be reported: at the end of this run client "a" would be
      sent a PUBLISH to "t", but the topic object of "+" is kept for its retained message, has no client, and
      is published to last; so by NotesAreExact the subscriber of $sys/trash gets a note too. */
  lemma ReportedThoughSent(o: Orders)
    requires o == Orders([T, [PLUS]], [[0x61]], [T, [PLUS]])
    ensures PossibleRun(Start, ReportRun(o))
    ensures var s := Run(Start, ReportRun(o));
      && Hit(s.tables, T, Target(false, T, [0x61])) && s.trash.entries.Keys == {[0x61]} && !s.core.stuck
      && !LastHasClient(s.tables, o.filters, T)
  {
    var s2 := Step(WithAdmin(), Subscribing(1, 7, Three), o);
    var s3 := Step(s2, Publishing(1, ToT), o);
    AdminSubscribes(o);
    AdminPublishes(s2, o);
    AdminUnsubscribes(s3, o);
    ReportRunGoes(o, s2, s3);
    PlusIsLast(Run(Start, ReportRun(o)), o);
  }

  lemma PlusIsLast(s: Server, o: Orders)
    requires s.tables == Tables(map[T := Held(Some(ToT))], map[[PLUS] := Topic(map[], Some(ToT))])
    requires o.filters == [T, [PLUS]]
    ensures Hit(s.tables, T, Target(false, T, [0x61])) && !LastHasClient(s.tables, o.filters, T)
  {
    PlusMatches();
    LiteralMatch(T, T);
    assert o.filters[1] == [PLUS];
    var last := LastMatch(s.tables.wild, o.filters, T);
    assert last == Some([PLUS]);
  }

  // ---------------------------------------------------------------- every identifier in flight

  /** PUBREC for the identifiers 1 to n: each is taken for the answer to a message, sent or not. */
  function Flood(ch: Channel, o: Orders, n: nat): seq<(Event, Orders)>
    requires n <= MAX_ID
  {
    if n == 0 then [] else Flood(ch, o, n - 1) + [(GotPubrec(ch, n), o)]
  }

  lemma {:induction false} RunAppend(s: Server, a: seq<(Event, Orders)>, b: seq<(Event, Orders)>)
    ensures Run(s, a + b) == Run(Run(s, a), b)
    ensures PossibleRun(s, a + b) <==> PossibleRun(s, a) && PossibleRun(Run(s, a), b)
    decreases a
  {
    if a == [] {
      assert a + b == b;
    } else {
      assert (a + b)[0] == a[0] && (a + b)[1..] == a[1..] + b;
      RunAppend(Step(s, a[0].0, a[0].1), a[1..], b);
    }
  }

  /** A run and one more step. */
  lemma RunMore(s: Server, es: seq<(Event, Orders)>, e: Event, o: Orders)
    ensures Run(s, es + [(e, o)]) == Step(Run(s, es), e, o)
    ensures PossibleRun(s, es + [(e, o)]) <==>
      PossibleRun(s, es) && Possible(Run(s, es), e) && Traverses(Run(s, es), o)
  {
    assert [(e, o)] + [] == [(e, o)];
    RunCons(Run(s, es), e, o, []);
    RunAppend(s, es, [(e, o)]);
  }

  /** From s to t, only one session object has changed, and it has the identifiers 1 to n in flight. */
  ghost predicate Flooded(s: Server, t: Server, ref: Channel, n: nat) {
    && t.(core := s.core) == s && !t.core.stuck && t.core.heap.Keys == s.core.heap.Keys && ref in s.core.heap
    && (forall r :: r in s.core.heap ==> t.core.heap[r].subs == s.core.heap[r].subs)
    && forall id: uint16 :: 1 <= id <= n ==> id in t.core.heap[ref].pubcomp
  }

  lemma FloodedTraverses(s: Server, t: Server, ref: Channel, n: nat, o: Orders)
    requires Flooded(s, t, ref, n) && Traverses(s, o)
    ensures Traverses(t, o)
  {
  }

  lemma FloodStep(s: Server, t: Server, ch: Channel, o: Orders, n: nat)
    requires 1 <= n <= MAX_ID && ch in s.params && Flooded(s, t, s.params[ch].session, n - 1)
    ensures Flooded(s, Step(t, GotPubrec(ch, n), o), s.params[ch].session, n)
  {
    var ref := s.params[ch].session;
    assert Step(t, GotPubrec(ch, n), o).core.heap == t.core.heap[ref := Received(t.core.heap[ref], n)];
  }

  lemma FloodMore(s: Server, es: seq<(Event, Orders)>, ch: Channel, o: Orders, n: nat)
    requires 1 <= n <= MAX_ID && ch in s.params && Traverses(s, o) && PossibleRun(s, es)
    requires Flooded(s, Run(s, es), s.params[ch].session, n - 1)
    ensures var all := es + [(GotPubrec(ch, n), o)];
      PossibleRun(s, all) && Flooded(s, Run(s, all), s.params[ch].session, n)
  {
    FloodedTraverses(s, Run(s, es), s.params[ch].session, n - 1, o);
    FloodStep(s, Run(s, es), ch, o, n);
    RunMore(s, es, GotPubrec(ch, n), o);
  }

  lemma {:induction false} FloodRun(s: Server, ch: Channel, o: Orders, n: nat)
    requires n <= MAX_ID && ch in s.params && s.params[ch].session in s.core.heap && !s.core.stuck && Traverses(s, o)
    ensures PossibleRun(s, Flood(ch, o, n)) && Flooded(s, Run(s, Flood(ch, o, n)), s.params[ch].session, n)
  {
    if n > 0 {
      FloodRun(s, ch, o, n - 1);
      FloodMore(s, Flood(ch, o, n - 1), ch, o, n);
    }
  }

  lemma FloodedIsFull(s: Server, t: Server, ref: Channel, n: nat)
    requires n == MAX_ID && Flooded(s, t, ref, n)
    ensures Taken(t.core.heap[ref]) >= MAX_ID
  {
    AllocatorCorrect(t.core.heap[ref]);
    AllocatorEndsIff(t.core.heap[ref]);
  }

  lemma NoRoomAt(core: Core, ds: seq<Delivery>, i: nat)
    requires i < |ds| && ds[i].client.session in core.heap && Taken(core.heap[ds[i].client.session]) >= MAX_ID
    ensures !Room(core, ds)
  {
    assert !RoomAt(core, ds, i);
  }

  /** Any client can bring this about, in any state: after its PUBREC for each identifier, no event that
      sends it a message ends, whoever the event comes from. */
  lemma FloodHangs(s: Server, ch: Channel, o: Orders, n: nat, e: Event, o': Orders)
    requires n == MAX_ID && ch in s.params && s.params[ch].session in s.core.heap && !s.core.stuck && Traverses(s, o)
    ensures PossibleRun(s, Flood(ch, o, n)) && !Run(s, Flood(ch, o, n)).core.stuck
    ensures var t := Run(s, Flood(ch, o, n));
      (exists i :: 0 <= i < |Sends(t, e, o')| && Sends(t, e, o')[i].client.session == s.params[ch].session) ==>
        Step(t, e, o').core.stuck
  {
    FloodRun(s, ch, o, n);
    var t, ref := Run(s, Flood(ch, o, n)), s.params[ch].session;
    FloodedIsFull(s, t, ref, n);
    StepEndsIff(t, e, o');
    if i :| 0 <= i < |Sends(t, e, o')| && Sends(t, e, o')[i].client.session == ref {
      NoRoomAt(t.core, Sends(t, e, o'), i);
    }
  }

  const ToF := Publish(0, false, 0, false, [0x66], 0, [0x78])

  /** Client "a" connects, subscribes to "f", sends n PUBRECs, and publishes to "f". */
  function FloodedRun(o: Orders, n: nat): seq<(Event, Orders)>
    requires n <= MAX_ID
  {
    [(Connecting(1, TakeoverLogin(false)), o)]
      + ([(Subscribing(1, 7, [Item([0x66], 1, false)]), o)] + (Flood(1, o, n) + [(Publishing(1, ToF), o)]))
  }

  lemma SendsToA(t: Server, o: Orders)
    requires t.tables == Tables(map[[0x66] := Topical()], map[]) && t.params == map[1 := ByA] && o.ids == [[0x61]]
    ensures |Sends(t, Publishing(1, ToF), o)| >= 1 && Sends(t, Publishing(1, ToF), o)[0].client == ByA
  {
    assert [[0x61]][1..] == [];
    assert TopicDeliveries(Topical(), o.ids, ToF) == [Delivery(ByA, 1, false, ToF)];
  }

  lemma FloodPossible(t: Server)
    ensures Possible(t, Publishing(1, ToF))
  {
    FixedHeader.AsciiIsUtf8(ToF.topic);
    FixedHeader.Utf8IsReadable(ToF.topic);
  }

  lemma FloodThenPublish(s: Server, o: Orders, n: nat)
    requires n == MAX_ID && o == Orders([[0x66]], [[0x61]], [[0x66]]) && Traverses(s, o) && !s.core.stuck
    requires s.tables == Tables(map[[0x66] := Topical()], map[]) && s.params == map[1 := ByA] && 1 in s.core.heap
    ensures var es := Flood(1, o, n) + [(Publishing(1, ToF), o)]; PossibleRun(s, es) && Run(s, es).core.stuck
  {
    var t := Run(s, Flood(1, o, n));
    FloodRun(s, 1, o, n);
    FloodHangs(s, 1, o, n, Publishing(1, ToF), o);
    SendsToA(t, o);
    FloodedTraverses(s, t, 1, n, o);
    FloodPossible(t);
    RunMore(s, Flood(1, o, n), Publishing(1, ToF), o);
  }

  /** So a handler that does not end is reached from the start. */
  lemma HangReached(o: Orders, n: nat)
    requires n == MAX_ID && o == Orders([[0x66]], [[0x61]], [[0x66]])
    ensures PossibleRun(Start, FloodedRun(o, n)) && Run(Start, FloodedRun(o, n)).core.stuck
  {
    var e1, e2 := Connecting(1, TakeoverLogin(false)), Subscribing(1, 7, [Item([0x66], 1, false)]);
    var s2, es := Step(Connected(), e2, o), Flood(1, o, n) + [(Publishing(1, ToF), o)];
    FirstConnects(o);
    ThenSubscribes(o);
    TakeoverRunTraverses(Start, o);
    TakeoverRunTraverses(Connected(), o);
    TakeoverRunTraverses(s2, o);
    TakeoverRunPossible(s2);
    FloodThenPublish(s2, o, n);
    RunCons(Connected(), e2, o, es);
    RunCons(Start, e1, o, [(e2, o)] + es);
  }
}
