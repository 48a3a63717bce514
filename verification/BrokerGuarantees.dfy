/** Delivery end to end: a copy sent with QoS 1 or 2 is recorded, kept, and sent again on every reconnection. */
module BrokerGuarantees {
  import opened Basics
  import opened Packets
  import opened Sessions
  import opened Broker
  import opened BrokerCore
  import opened BrokerEnds
  import opened BrokerInvariant
  import opened BrokerDelivery
  import opened BrokerAnswers
  import opened BrokerHistory

  // ---------------------------------------------------------------- from sending to the session

  lemma {:induction false} RecordingsHas(ws: seq<Write>, ds: seq<Delivery>, i: nat, qos: byte)
    requires |ws| == |ds| && i < |ds| && ws[i].packet.Forward? && ws[i].packet.publish.qos == qos
    ensures ws[i].packet.publish in Recordings(ws, ds, ds[i].client.session, qos)
  {
    if i > 0 { RecordingsHas(ws[1..], ds[1..], i - 1, qos); }
  }

  /** The exchange of a written copy is open in its session. */
  ghost predicate IsRecorded(core: Core, ref: Channel, p: Publish) {
    ref in core.heap && (p.qos == 1 ==> Pending(core.heap[ref].forAck, p))
      && (p.qos == 2 ==> Pending(core.heap[ref].forRec, p))
  }

  lemma InIsPending(ps: seq<Publish>, p: Publish)
    requires p in ps
    ensures Pending(ps, p)
  {
    var i :| 0 <= i < |ps| && ps[i] == p;
    assert ps[i].(dup := p.dup) == p;
  }

  lemma BatchIsRecorded(core: Core, ds: seq<Delivery>, i: nat)
    requires !DeliverAll(core, ds).stuck && Reachable(core, ds) && i < |ds|
    ensures var b := DeliverAll(core, ds);
      && |b.log| == |core.log| + |ds| && b.log[|core.log| + i].packet.Forward?
      && IsRecorded(b, ds[i].client.session, b.log[|core.log| + i].packet.publish)
  {
    var b, ref := DeliverAll(core, ds), ds[i].client.session;
    SentBatch(core, ds);
    DeliverAllRecords(core, ds, ref);
    var ws := b.log[|core.log|..];
    assert ws[i] == b.log[|core.log| + i] && IsCopy(ws[i], ds[i]);
    var p := ws[i].packet.publish;
    RecordingsHas(ws, ds, i, p.qos);
    if p.qos == 1 { InIsPending(b.heap[ref].forAck, p); }
    if p.qos == 2 { InIsPending(b.heap[ref].forRec, p); }
  }

  lemma StaysRecorded(core: Core, ds: seq<Delivery>, ref: Channel, p: Publish)
    requires IsRecorded(core, ref, p)
    ensures IsRecorded(DeliverAll(core, ds), ref, p)
  {
    DeliverAllGrows(core, ds);
    assert SessionGrows(core.heap[ref], DeliverAll(core, ds).heap[ref]);
    GrowsEvolves(core.heap[ref], DeliverAll(core, ds).heap[ref]);
    if p.qos == 1 { ExtendsKeeps(core.heap[ref].forAck, DeliverAll(core, ds).heap[ref].forAck, p); }
    if p.qos == 2 { ExtendsKeeps(core.heap[ref].forRec, DeliverAll(core, ds).heap[ref].forRec, p); }
  }

  /** The writes from position `from` on are the copies ds, each with its exchange open in its session. */
  ghost predicate CopiesPending(core: Core, from: nat, ds: seq<Delivery>) {
    forall i :: 0 <= i < |ds| ==> PendingAt(core, from, ds, i)
  }

  ghost predicate PendingAt(core: Core, from: nat, ds: seq<Delivery>, i: nat)
    requires i < |ds|
  {
    from + i < |core.log| && CopyPending(core, core.log[from + i], ds[i])
  }

  ghost predicate CopyPending(core: Core, w: Write, d: Delivery) {
    w.packet.Forward? && IsRecorded(core, d.client.session, w.packet.publish)
  }

  lemma CopiesStayPending(core: Core, core1: Core, ds: seq<Delivery>, notes: seq<Delivery>)
    requires core1 == DeliverAll(core, ds) && !DeliverAll(core1, notes).stuck && Reachable(core, ds)
    ensures CopiesPending(DeliverAll(core1, notes), |core.log|, ds)
  {
    forall i | 0 <= i < |ds| ensures PendingAt(DeliverAll(core1, notes), |core.log|, ds, i) {
      CopyStaysRecorded(core, ds, notes, i);
    }
  }

  /** Each copy of a PUBLISH with QoS 1 or 2 is pending in the session of its client when the step is over. */
  lemma CopiesArePending(s: Server, ch: Channel, p: Publish, o: Orders)
    requires Inv(s) && Possible(s, Publishing(ch, p)) && ch in s.params
    requires !s.core.stuck && Ends(s, Publishing(ch, p), o)
    ensures CopiesPending(HandlePublish(s, ch, p, o).core, |s.core.log + AnswerTo(ch, p)|, FanOut(s.tables, p, o))
  {
    var core, ds := Acknowledge(s.core, s.params[ch], p), FanOut(s.tables, p, o);
    PublishEnds(s, ch, p, o);
    AcknowledgeAnswers(s, ch, p);
    AcknowledgeOk(s.core, s.params[ch], p, s.core.heap.Keys);
    FanOutReachable(s, p, o, core);
    CopiesStayPending(core, DeliverAll(core, ds), ds, Notes(s, p, o));
  }

  lemma CopyStaysRecorded(core: Core, ds: seq<Delivery>, notes: seq<Delivery>, i: nat)
    requires !DeliverAll(DeliverAll(core, ds), notes).stuck && Reachable(core, ds) && i < |ds|
    ensures PendingAt(DeliverAll(DeliverAll(core, ds), notes), |core.log|, ds, i)
  {
    var core1 := DeliverAll(core, ds);
    if core1.stuck { DeliverAllStuck(core1, notes); }
    BatchIsRecorded(core, ds, i);
    DeliverAllGrows(core1, notes);
    StaysRecorded(core1, notes, ds[i].client.session, core1.log[|core.log| + i].packet.publish);
  }

  // ---------------------------------------------------------------- from the session to the next connection

  /** From position `from` on, the packet was written to the channel, whatever its `dup`. */
  ghost predicate Resent(log: seq<Write>, from: nat, ch: Channel, p: Publish) {
    exists i :: from <= i < |log|
      && log[i].channel == ch && log[i].packet.Forward? && log[i].packet.publish.(dup := p.dup) == p
  }

  lemma RewrittenResends(log: seq<Write>, n: nat, ch: Channel, ses: SessionState, p: Publish)
    requires Rewritten(log, n, ch, ses) && (Pending(ses.forAck, p) || Pending(ses.forRec, p))
    ensures Resent(log, n, ch, p)
  {
    if Pending(ses.forAck, p) {
      var i :| 0 <= i < |ses.forAck| && ses.forAck[i].(dup := p.dup) == p;
      assert log[n + i] == Write(ch, Forward(ses.forAck[i].(dup := true)));
    } else {
      var i :| 0 <= i < |ses.forRec| && ses.forRec[i].(dup := p.dup) == p;
      assert log[n + |ses.forAck| + i] == Write(ch, Forward(ses.forRec[i].(dup := true)));
    }
  }

  lemma ReconnectResends(s: Server, ch: Channel, l: Login, o: Orders, p: Publish)
    requires !s.core.stuck && Possible(s, Connecting(ch, l))
    requires l.code == 0 && !l.clean && l.id in s.sessions && s.sessions[l.id] in s.core.heap
    requires Pending(s.core.heap[s.sessions[l.id]].forAck, p) || Pending(s.core.heap[s.sessions[l.id]].forRec, p)
    ensures Resent(Step(s, Connecting(ch, l), o).core.log, |s.core.log|, ch, p)
  {
    ReconnectRewrites(s, ch, l, o);
    RewrittenResends(Step(s, Connecting(ch, l), o).core.log, |s.core.log| + 1, ch, s.core.heap[s.sessions[l.id]], p);
  }

  /** At-least-once, end to end (sections 4.3.2 and 4.4 of MQTT 3.1.1): a message recorded with QoS 1, whatever
      happens afterwards short of its PUBACK, is sent again on every connection that restores its session. */
  lemma AtLeastOnce(s: Server, es: seq<(Event, Orders)>, ref: Channel, p: Publish, ch: Channel, l: Login, o: Orders)
    requires Inv(s) && PossibleRun(s, es) && ref in s.core.heap && Pending(s.core.heap[ref].forAck, p)
    requires !Heard(s, es, ref, Ack, p.packetId) && !Run(s, es).core.stuck
    requires Possible(Run(s, es), Connecting(ch, l)) && l.code == 0 && !l.clean
    requires l.id in Run(s, es).sessions && Run(s, es).sessions[l.id] == ref
    ensures Resent(Step(Run(s, es), Connecting(ch, l), o).core.log, |Run(s, es).core.log|, ch, p)
  {
    Qos1Conserved(s, es, ref, p);
    ReconnectResends(Run(s, es), ch, l, o, p);
  }

  /** The same for QoS 2 until PUBREC. */
  lemma AtLeastOnceUntilPubrec(s: Server, es: seq<(Event, Orders)>, ref: Channel, p: Publish, ch: Channel, l: Login,
      o: Orders)
    requires Inv(s) && PossibleRun(s, es) && ref in s.core.heap && Pending(s.core.heap[ref].forRec, p)
    requires !Heard(s, es, ref, Rec, p.packetId) && !Run(s, es).core.stuck
    requires Possible(Run(s, es), Connecting(ch, l)) && l.code == 0 && !l.clean
    requires l.id in Run(s, es).sessions && Run(s, es).sessions[l.id] == ref
    ensures Resent(Step(Run(s, es), Connecting(ch, l), o).core.log, |Run(s, es).core.log|, ch, p)
  {
    Qos2Conserved(s, es, ref, p);
    ReconnectResends(Run(s, es), ch, l, o, p);
  }
}
