/**
  Where packets leave: the session objects of the clients, updated in place, and the channels
  written to. `Value()` is the corresponding part of the state machine.
 */
module Outlets {
  import opened Basics
  import opened Packets
  import opened Sessions
  import B = Broker

  lemma DeliverShape(core: B.Core, d: B.Delivery, found: bool, p: Publish, ses: SessionState)
    requires !core.stuck && d.client.session in core.heap
    requires var was := core.heap[d.client.session];
      && found == NewId(was).found
      && (if found then p == B.Copy(d, NewId(was).id) && ses == Recorded(was, p, NewId(was).next) else ses == was)
    ensures B.Deliver(core, d) ==
      B.Core(core.heap[d.client.session := ses], if found then core.log + [B.Write(d.client.channel, B.Forward(p))]
        else core.log, !found)
  {
  }

  function WithSubs(ses: SessionState, subs: map<Str, Sub>): SessionState {
    ses.(subs := subs)
  }

  function WithPubrel(ses: SessionState, id: uint16): SessionState {
    ses.(pubrel := ses.pubrel + [id])
  }

  function Logged(core: B.Core, ws: seq<B.Write>): B.Core {
    core.(log := core.log + ws)
  }

  function WithNext(ses: SessionState, next: uint16): SessionState {
    ses.(next := next)
  }

  /** An identifier was drawn from a session, or its search does not end. */
  function DrewId(core: B.Core, ref: B.Channel): B.Core
    requires ref in core.heap
  {
    var r := NewId(core.heap[ref]);
    if r.found then B.MoveCursor(core, ref, r.next) else B.Core(core.heap, core.log, true)
  }

  lemma ReplayInParts(core: B.Core, c: B.Client)
    requires c.session in core.heap
    ensures var s := Replayed(core.heap[c.session]);
      B.ReplayCore(core, c) == Logged(Logged(Logged(B.Touch(core, c.session, s), B.Publishes(c.channel, s.forAck)),
        B.Publishes(c.channel, s.forRec)),
                                      B.Pubrels(c.channel, s.pubcomp))
  {
    var s := Replayed(core.heap[c.session]);
    Assoc(core.log, B.Publishes(c.channel, s.forAck), B.Publishes(c.channel, s.forRec));
    Assoc(core.log, B.Publishes(c.channel, s.forAck) + B.Publishes(c.channel, s.forRec),
      B.Pubrels(c.channel, s.pubcomp));
  }

  class Outlet {
    var heap: map<B.Channel, Session>
    var log: seq<B.Write>
    var stuck: bool
    ghost var objects: set<Session>

    /** No session object stands under two names. */
    ghost predicate Valid()
      reads this
    {
      (forall r :: r in heap ==> heap[r] in objects)
        && forall a, b :: a in heap && b in heap && a != b ==> heap[a] != heap[b]
    }

    ghost function Heap(): map<B.Channel, SessionState>
      reads this`heap, this`objects, objects
      requires forall r :: r in heap ==> heap[r] in objects
    {
      map r | r in heap :: heap[r].Value()
    }

    ghost function Value(): B.Core
      reads this, objects
      requires Valid()
    {
      B.Core(Heap(), log, stuck)
    }

    constructor ()
      ensures Valid() && heap == map[] && Value() == B.Core(map[], [], false)
    {
      heap, log, stuck, objects := map[], [], false, {};
    }

    method WriteChannel(ch: B.Channel, packet: B.Wire)
      requires Valid()
      modifies this`log
      ensures Valid() && heap == old(heap) && Value() == B.Wrote(old(Value()), B.Write(ch, packet))
    {
      log := log + [B.Write(ch, packet)];
    }

    /** The loop of `new_packet_id` does not end. */
    method Hang()
      requires Valid()
      modifies this`stuck
      ensures Valid() && heap == old(heap) && Value() == B.Core(old(Value()).heap, old(log), true)
    {
      stuck := true;
    }

    /** A new session object for a channel. */
    method Allocate(ch: B.Channel)
      requires Valid() && ch !in heap
      modifies this`heap, this`objects
      ensures Valid() && Value() == B.Touch(old(Value()), ch, NewSession)
      ensures heap.Keys == old(heap).Keys + {ch} && fresh(heap[ch]) && objects == old(objects) + {heap[ch]}
    {
      var s := new Session();
      heap, objects := heap[ch := s], objects + {s};
      forall r | r in old(heap) ensures heap[r].Value() == old(heap[r].Value()) {}
      assert Heap() == old(Heap())[ch := NewSession];
    }

    /** One session object changed and the others did not. */
    twostate lemma OneChanged(ref: B.Channel)
      requires heap == old(heap) && objects == old(objects) && old(Valid()) && ref in heap
      requires forall r :: r in heap && heap[r] != heap[ref] ==> heap[r].Value() == old(heap[r].Value())
      ensures Heap() == old(Heap())[ref := heap[ref].Value()]
    {
    }

    /** The session's part in sending: an identifier, and a record of what must be acknowledged. */
    method Prepare(s: Session, d: B.Delivery) returns (found: bool, p: Publish)
      modifies s
      ensures var r := NewId(old(s.Value()));
        && found == r.found
        && (found ==> p == B.Copy(d, r.id) && s.Value() == Recorded(old(s.Value()), p, r.next))
        && (!found ==> s.Value() == old(s.Value()))
    {
      var id;
      found, id := s.NewPacketId();
      p := B.Copy(d, id);
      if found && p.qos == 1 {
        s.AddPublishForAck(p);
      } else if found && p.qos == 2 {
        s.AddPublishForRec(p);
      }
    }

    /** The same on the heap of session objects. */
    method PrepareAt(d: B.Delivery) returns (found: bool, p: Publish)
      requires Valid() && d.client.session in heap
      modifies objects
      ensures Valid() && heap == old(heap) && Heap() == old(Heap())[d.client.session := Heap()[d.client.session]]
      ensures var was, r := old(Heap())[d.client.session], NewId(old(Heap())[d.client.session]);
        && found == r.found
        && (if found then p == B.Copy(d, r.id) && Heap()[d.client.session] == Recorded(was, p, r.next)
            else Heap()[d.client.session] == was)
    {
      found, p := Prepare(heap[d.client.session], d);
      OneChanged(d.client.session);
    }

    /** `mqtt_client::publish`. */
    method Publish(c: B.Client, maxQos: byte, retained: bool, packet: Publish)
      requires Valid()
      modifies this`log, this`stuck, objects
      ensures Valid() && heap == old(heap)
        && Value() == B.Deliver(old(Value()), B.Delivery(c, maxQos, retained, packet))
    {
      if stuck || c.session !in heap {
        return;
      }
      ghost var before := Value();
      var found, p := PrepareAt(B.Delivery(c, maxQos, retained, packet));
      DeliverShape(before, B.Delivery(c, maxQos, retained, packet), found, p, Heap()[c.session]);
      if found {
        WriteChannel(c.channel, B.Forward(p));
      } else {
        Hang();
      }
    }

    method AddSubscription(ref: B.Channel, f: Str, qos: byte, wild: bool)
      requires Valid() && ref in heap
      modifies objects
      ensures Valid() && heap == old(heap)
        && Value() == B.Touch(old(Value()), ref, WithSubs(old(Value()).heap[ref],
        old(Value()).heap[ref].subs[f := Sub(qos, wild)]))
    {
      var s := heap[ref];
      s.AddSubscription(f, qos, wild);
      OneChanged(ref);
    }

    method DeleteSubscription(ref: B.Channel, f: Str)
      requires Valid() && ref in heap
      modifies objects
      ensures Valid() && heap == old(heap)
        && Value() == B.Touch(old(Value()), ref, WithSubs(old(Value()).heap[ref], old(Value()).heap[ref].subs - {f}))
    {
      var s := heap[ref];
      s.DeleteSubscription(f);
      OneChanged(ref);
    }

    method AddPacketIdForPubrel(ref: B.Channel, id: uint16)
      requires Valid() && ref in heap
      modifies objects
      ensures Valid() && heap == old(heap)
        && Value() == B.Touch(old(Value()), ref, WithPubrel(old(Value()).heap[ref], id))
    {
      var s := heap[ref];
      s.AddPacketIdForPubrel(id);
      OneChanged(ref);
    }

    /** The receiver's part of `handle_publish`. */
    method Acknowledge(c: B.Client, p: Publish)
      requires Valid() && c.session in heap
      modifies this`log, objects
      ensures Valid() && heap == old(heap) && Value() == B.Acknowledge(old(Value()), c, p)
    {
      if p.qos == 1 {
        WriteChannel(c.channel, B.Puback(p.packetId));
      } else if p.qos == 2 {
        AddPacketIdForPubrel(c.session, p.packetId);
        WriteChannel(c.channel, B.Pubrec(p.packetId));
      }
    }

    /** What an acknowledgement does to the session. */
    method ReleaseIn(s: Session, e: B.Event)
      requires B.IsAck(e)
      modifies s
      ensures s.Value() == B.AckSession(old(s.Value()), e)
    {
      match e
      case Acked(_, id) => s.ReleasePublishForAck(id);
      case GotPubrec(_, id) =>
        s.ReleasePublishForRec(id);
        s.AddPacketIdForPubcomp(id);
      case Released(_, id) => s.ReleasePacketIdForPubrel(id);
      case Completed(_, id) => s.ReleasePacketIdForPubcomp(id);
    }

    method Release(ref: B.Channel, e: B.Event)
      requires Valid() && ref in heap && B.IsAck(e)
      modifies objects
      ensures Valid() && heap == old(heap)
        && Value() == B.Touch(old(Value()), ref, B.AckSession(old(Value()).heap[ref], e))
    {
      ReleaseIn(heap[ref], e);
      OneChanged(ref);
    }

    /** The handlers of PUBACK, PUBREC, PUBREL and PUBCOMP. */
    method HandleAck(ref: B.Channel, e: B.Event)
      requires Valid() && ref in heap && B.IsAck(e)
      modifies this`log, objects
      ensures Valid() && heap == old(heap)
      ensures Value() == B.Core(old(Value()).heap[ref := B.AckSession(old(Value()).heap[ref], e)],
        old(log) + B.AckReply(e), old(stuck))
    {
      Release(ref, e);
      if e.GotPubrec? {
        WriteChannel(e.ch, B.Pubrel(e.packetId));
      } else if e.Released? {
        WriteChannel(e.ch, B.Pubcomp(e.packetId));
      }
    }

    method SetDup(ref: B.Channel)
      requires Valid() && ref in heap
      modifies objects
      ensures Valid() && heap == old(heap) && Value() == B.Touch(old(Value()), ref, Replayed(old(Value()).heap[ref]))
    {
      var s := heap[ref];
      s.SetDup();
      OneChanged(ref);
    }

    method WritePublishes(ch: B.Channel, ps: seq<Publish>)
      requires Valid()
      modifies this`log
      ensures Valid() && heap == old(heap) && Value() == Logged(old(Value()), B.Publishes(ch, ps))
    {
      for n := 0 to |ps|
        invariant Valid() && heap == old(heap) && Value() == Logged(old(Value()), B.Publishes(ch, ps[..n]))
      {
        assert B.Publishes(ch, ps[..n + 1]) == B.Publishes(ch, ps[..n]) + [B.Write(ch, B.Forward(ps[n]))];
        WriteChannel(ch, B.Forward(ps[n]));
      }
      assert ps[..|ps|] == ps;
    }

    method WritePubrels(ch: B.Channel, ids: seq<uint16>)
      requires Valid()
      modifies this`log
      ensures Valid() && heap == old(heap) && Value() == Logged(old(Value()), B.Pubrels(ch, ids))
    {
      for n := 0 to |ids|
        invariant Valid() && heap == old(heap) && Value() == Logged(old(Value()), B.Pubrels(ch, ids[..n]))
      {
        assert B.Pubrels(ch, ids[..n + 1]) == B.Pubrels(ch, ids[..n]) + [B.Write(ch, B.Pubrel(ids[n]))];
        WriteChannel(ch, B.Pubrel(ids[n]));
      }
      assert ids[..|ids|] == ids;
    }

    /** Everything pending in a restored session, written again. */
    method Replay(c: B.Client)
      requires Valid() && c.session in heap
      modifies this`log, objects
      ensures Valid() && heap == old(heap) && Value() == B.ReplayCore(old(Value()), c)
    {
      ghost var before := Value();
      SetDup(c.session);
      var s := heap[c.session];
      assert Value().heap[c.session] == s.Value();
      ReplayInParts(before, c);
      WritePublishes(c.channel, s.forAck);
      WritePublishes(c.channel, s.forRec);
      WritePubrels(c.channel, s.pubcomp);
    }

    method NewPacketIdIn(ref: B.Channel) returns (found: bool, id: uint16)
      requires Valid() && ref in heap
      modifies objects
      ensures Valid() && heap == old(heap) && Value() == B.Touch(old(Value()), ref, Value().heap[ref])
      ensures var r, was := NewId(old(Value()).heap[ref]), old(Value()).heap[ref];
        found == r.found && id == r.id && Value().heap[ref] == WithNext(was, if found then r.next else was.next)
    {
      var s := heap[ref];
      found, id := s.NewPacketId();
      OneChanged(ref);
    }

    /** The identifier of a will message. */
    method NewPacketId(ref: B.Channel) returns (found: bool, id: uint16)
      requires Valid() && ref in heap
      modifies this`stuck, objects
      ensures Valid() && heap == old(heap) && Value() == DrewId(old(Value()), ref)
      ensures found == NewId(old(Value()).heap[ref]).found && id == NewId(old(Value()).heap[ref]).id
    {
      ghost var before := Value();
      found, id := NewPacketIdIn(ref);
      if !found {
        assert Value().heap == before.heap;
        Hang();
      }
    }
  }
}
