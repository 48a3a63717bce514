/** The identifiers one session object hands out over a whole run, and when one of them can come back. */
module BrokerReuse {
  import opened Basics
  import opened Packets
  import opened Sessions
  import opened Broker
  import opened BrokerCore
  import opened BrokerEnds
  import opened BrokerInvariant

  // ---------------------------------------------------------------- calls, one after the other

  /** A call of `new_packet_id`: the identifiers in flight, and the one it returned. */
  datatype Allocation = Allocation(used: set<uint16>, id: uint16)

  function Useds(calls: seq<Allocation>): seq<set<uint16>> {
    seq(|calls|, i requires 0 <= i < |calls| => calls[i].used)
  }

  predicate IsCall(cursor: uint16, c: Allocation) {
    Call(cursor, c.used).found && Call(cursor, c.used).id == c.id
  }

  /** Each call starts where the one before left the cursor, which they move from a to b. */
  predicate Chained(a: uint16, calls: seq<Allocation>, b: uint16)
    decreases calls
  {
    if calls == [] then a == b else IsCall(a, calls[0]) && Chained(Call(a, calls[0].used).next, calls[1..], b)
  }

  lemma {:induction false} ChainAppend(a: uint16, xs: seq<Allocation>, b: uint16, ys: seq<Allocation>, c: uint16)
    requires Chained(a, xs, b) && Chained(b, ys, c)
    ensures Chained(a, xs + ys, c)
    decreases xs
  {
    if xs == [] {
      assert xs + ys == ys;
    } else {
      assert (xs + ys)[0] == xs[0] && (xs + ys)[1..] == xs[1..] + ys;
      ChainAppend(Call(a, xs[0].used).next, xs[1..], b, ys, c);
    }
  }

  lemma OneCall(a: uint16, used: set<uint16>)
    requires Call(a, used).found
    ensures Chained(a, [Allocation(used, Call(a, used).id)], Call(a, used).next)
  {
    var calls := [Allocation(used, Call(a, used).id)];
    assert calls[1..] == [] && Chained(Call(a, used).next, [], Call(a, used).next);
  }

  lemma NoCall(a: uint16)
    ensures Chained(a, [], a)
  {
  }

  lemma {:induction false} CursorShift(a: uint16, useds: seq<set<uint16>>, m: nat)
    requires 1 <= m <= |useds|
    ensures Cursor(a, useds, m) == Cursor(Call(a, useds[0]).next, useds[1..], m - 1)
  {
    if m > 1 { CursorShift(a, useds, m - 1); }
  }

  lemma {:induction false} ChainedCalls(a: uint16, calls: seq<Allocation>, b: uint16, m: nat)
    requires Chained(a, calls, b) && m < |calls|
    ensures IsCall(Cursor(a, Useds(calls), m), calls[m])
    decreases calls
  {
    if m > 0 {
      assert Useds(calls)[1..] == Useds(calls[1..]);
      CursorShift(a, Useds(calls), m);
      ChainedCalls(Call(a, calls[0].used).next, calls[1..], b, m - 1);
    }
  }

  // ---------------------------------------------------------------- the calls of a run

  /** The call a delivery makes on session object ref. */
  function CallOn(core: Core, ref: Channel): seq<Allocation>
    requires ref in core.heap
  {
    [Allocation(Used(core.heap[ref]), NewId(core.heap[ref]).id)]
  }

  function SendCalls(core: Core, ds: seq<Delivery>, ref: Channel): seq<Allocation>
    decreases ds
  {
    if ds == [] then []
    else
      (if ds[0].client.session == ref && ref in core.heap then CallOn(core, ref) else [])
        + SendCalls(Deliver(core, ds[0]), ds[1..], ref)
  }

  /** A will takes its identifier from the session of the client lost. */
  function WillCalls(s: Server, e: Event, ref: Channel): seq<Allocation> {
    if e.Losing? && e.ch in s.params && WillDue(s, s.params[e.ch]) && s.params[e.ch].session == ref
      then CallOn(s.core, ref) else []
  }

  /** The calls of `new_packet_id` on session object ref during one step, in order. */
  function StepCalls(s: Server, e: Event, o: Orders, ref: Channel): seq<Allocation> {
    if s.core.stuck then [] else WillCalls(s, e, ref) + SendCalls(Before(s, e, o), Sends(s, e, o), ref)
  }

  function RunCalls(s: Server, es: seq<(Event, Orders)>, ref: Channel): seq<Allocation>
    decreases es
  {
    if es == [] then []
    else StepCalls(s, es[0].0, es[0].1, ref) + RunCalls(Step(s, es[0].0, es[0].1), es[1..], ref)
  }

  /** From a to b the session object ref made the calls, and its cursor moved by them alone. */
  predicate Makes(a: Core, calls: seq<Allocation>, b: Core, ref: Channel) {
    ref in a.heap && ref in b.heap && Chained(a.heap[ref].next, calls, b.heap[ref].next)
  }

  lemma MakesAppend(a: Core, xs: seq<Allocation>, b: Core, ys: seq<Allocation>, c: Core, ref: Channel)
    requires Makes(a, xs, b, ref) && Makes(b, ys, c, ref)
    ensures Makes(a, xs + ys, c, ref)
  {
    ChainAppend(a.heap[ref].next, xs, b.heap[ref].next, ys, c.heap[ref].next);
  }

  lemma DeliverMakes(core: Core, d: Delivery, ref: Channel)
    requires ref in core.heap && !Deliver(core, d).stuck
    ensures Makes(core, if d.client.session == ref then CallOn(core, ref) else [], Deliver(core, d), ref)
  {
    NoCall(core.heap[ref].next);
    if d.client.session == ref { OneCall(core.heap[ref].next, Used(core.heap[ref])); }
  }

  lemma {:induction false} SendMakes(core: Core, ds: seq<Delivery>, ref: Channel)
    requires ref in core.heap && !DeliverAll(core, ds).stuck
    ensures Makes(core, SendCalls(core, ds, ref), DeliverAll(core, ds), ref)
    decreases ds
  {
    if ds == [] {
      NoCall(core.heap[ref].next);
    } else {
      var core1 := Deliver(core, ds[0]);
      if core1.stuck { DeliverAllStuck(core1, ds[1..]); }
      DeliverMakes(core, ds[0], ref);
      SendMakes(core1, ds[1..], ref);
      MakesAppend(core, if ds[0].client.session == ref then CallOn(core, ref) else [], core1,
        SendCalls(core1, ds[1..], ref), DeliverAll(core, ds), ref);
    }
  }

  predicate SameCursor(a: Core, b: Core, ref: Channel) {
    ref in a.heap && ref in b.heap && b.heap[ref].next == a.heap[ref].next
  }

  lemma ConnectCursor(s: Server, ch: Channel, l: Login, o: Orders, ref: Channel)
    requires ref in s.core.heap && ref != ch
    ensures SameCursor(s.core, Before(s, Connecting(ch, l), o), ref)
  {
  }

  lemma AckCursor(s: Server, e: Event, ref: Channel)
    requires IsAck(e) && ref in s.core.heap
    ensures SameCursor(s.core, HandleAck(s, e).core, ref)
  {
  }

  /** The bookkeeping of a step leaves every cursor alone, but for a will. */
  lemma BeforeCursor(s: Server, e: Event, o: Orders, ref: Channel)
    requires s.core.heap.Keys <= s.seen && Possible(s, e) && ref in s.core.heap && !e.Losing?
    ensures SameCursor(s.core, Before(s, e, o), ref)
  {
    match e
    case Connecting(ch, l) => ConnectCursor(s, ch, l, o, ref);
    case Subscribing(_, _, _) =>
    case Unsubscribing(_, _, _) =>
    case Publishing(_, _) =>
    case Disconnecting(_) =>
    case Losing(_) =>
    case _ => AckCursor(s, e, ref);
  }

  lemma WillMakes(core: Core, ref: Channel)
    requires ref in core.heap && !WillCore(core, ref).stuck
    ensures Makes(core, CallOn(core, ref), WillCore(core, ref), ref)
  {
    OneCall(core.heap[ref].next, Used(core.heap[ref]));
  }

  lemma BeforeMakes(s: Server, e: Event, o: Orders, ref: Channel)
    requires s.core.heap.Keys <= s.seen && Possible(s, e) && ref in s.core.heap && !Before(s, e, o).stuck
    ensures Makes(s.core, WillCalls(s, e, ref), Before(s, e, o), ref)
  {
    NoCall(s.core.heap[ref].next);
    if e.Losing? {
      if WillCalls(s, e, ref) != [] { WillMakes(s.core, ref); }
    } else {
      BeforeCursor(s, e, o, ref);
    }
  }

  lemma StepMakes(s: Server, e: Event, o: Orders, ref: Channel)
    requires Inv(s) && Possible(s, e) && ref in s.core.heap && !Step(s, e, o).core.stuck
    ensures Makes(s.core, StepCalls(s, e, o, ref), Step(s, e, o).core, ref)
  {
    var b := Before(s, e, o);
    StepSends(s, e, o);
    if b.stuck { DeliverAllStuck(b, Sends(s, e, o)); }
    BeforeMakes(s, e, o, ref);
    SendMakes(b, Sends(s, e, o), ref);
    MakesAppend(s.core, WillCalls(s, e, ref), b, SendCalls(b, Sends(s, e, o), ref), Step(s, e, o).core, ref);
  }

  lemma {:induction false} StuckRun(s: Server, es: seq<(Event, Orders)>)
    requires s.core.stuck
    ensures Run(s, es) == s
    decreases es
  {
    if es != [] { StuckRun(s, es[1..]); }
  }

  lemma {:induction false} RunMakes(s: Server, es: seq<(Event, Orders)>, ref: Channel)
    requires Inv(s) && PossibleRun(s, es) && ref in s.core.heap && !Run(s, es).core.stuck
    ensures Makes(s.core, RunCalls(s, es, ref), Run(s, es).core, ref)
    decreases es
  {
    if es == [] {
      NoCall(s.core.heap[ref].next);
    } else {
      var s1 := Step(s, es[0].0, es[0].1);
      if s1.core.stuck { StuckRun(s1, es[1..]); }
      StepInv(s, es[0].0, es[0].1);
      StepMakes(s, es[0].0, es[0].1, ref);
      RunMakes(s1, es[1..], ref);
      MakesAppend(s.core, StepCalls(s, es[0].0, es[0].1, ref), s1.core, RunCalls(s1, es[1..], ref), Run(s, es).core,
        ref);
    }
  }

  /** No identifier comes back early, in any run: between two calls on one session object that return the
      same identifier, every other one was in flight or returned. */
  lemma ReuseOverRun(s: Server, es: seq<(Event, Orders)>, ref: Channel, i: nat, j: nat, x: uint16) returns (m: nat)
    requires Inv(s) && PossibleRun(s, es) && ref in s.core.heap && !Run(s, es).core.stuck && x != 0
    requires i < j < |RunCalls(s, es, ref)| && RunCalls(s, es, ref)[i].id == RunCalls(s, es, ref)[j].id
    ensures i < m <= j && (x in RunCalls(s, es, ref)[m].used || x == RunCalls(s, es, ref)[m].id)
  {
    var calls, next := RunCalls(s, es, ref), s.core.heap[ref].next;
    RunMakes(s, es, ref);
    forall k | 0 <= k <= j
      ensures Returned(next, Useds(calls), k).found && Returned(next, Useds(calls), k).id == calls[k].id
    {
      ChainedCalls(next, calls, Run(s, es).core.heap[ref].next, k);
    }
    m := ReuseOnlyAfterFullCycle(next, Useds(calls), i, j, x);
  }
}
