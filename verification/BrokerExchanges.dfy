/**
  The acknowledged exchanges, packet by packet: what each acknowledgement is answered with and changes, the
  receiver's side of QoS 2 over a run, and PUBREL on every reconnection.
 */
module BrokerExchanges {
  import opened Basics
  import opened Packets
  import opened Sessions
  import opened Broker
  import opened BrokerCore
  import opened BrokerEnds
  import opened BrokerInvariant
  import opened BrokerDelivery
  import opened BrokerAnswers
  import opened BrokerHistory

  // ---------------------------------------------------------------- one acknowledgement

  /** A list without the first occurrence of an identifier. */
  function RemoveId(ids: seq<uint16>, id: uint16): seq<uint16> {
    if ids == [] then [] else if ids[0] == id then ids[1..] else [ids[0]] + RemoveId(ids[1..], id)
  }

  /** A list without the first publish that has an identifier. */
  function RemovePublish(ps: seq<Publish>, id: uint16): seq<Publish> {
    if ps == [] then [] else if ps[0].packetId == id then ps[1..] else [ps[0]] + RemovePublish(ps[1..], id)
  }

  lemma {:induction false} EraseIsRemoveId(ids: seq<uint16>, id: uint16)
    ensures EraseAt(ids, FindId(ids, id)) == RemoveId(ids, id)
  {
    if ids != [] && ids[0] != id { EraseIsRemoveId(ids[1..], id); }
  }

  lemma {:induction false} EraseIsRemovePublish(ps: seq<Publish>, id: uint16)
    ensures EraseAt(ps, FindPublish(ps, id)) == RemovePublish(ps, id)
  {
    if ps != [] && ps[0].packetId != id { EraseIsRemovePublish(ps[1..], id); }
  }

  /** The session after an acknowledgement. */
  predicate AckChanges(a: SessionState, b: SessionState, e: Event) {
    match e
    case Acked(_, id) => b == a.(forAck := RemovePublish(a.forAck, id))
    case GotPubrec(_, id) => b == a.(forRec := RemovePublish(a.forRec, id), pubcomp := a.pubcomp + [id])
    case Released(_, id) => b == a.(pubrel := RemoveId(a.pubrel, id))
    case Completed(_, id) => b == a.(pubcomp := RemoveId(a.pubcomp, id))
    case _ => false
  }

  /** What is written in answer to it, whatever the identifier. */
  predicate AckAnswered(before: seq<Write>, after: seq<Write>, e: Event) {
    match e
    case GotPubrec(ch, id) => after == before + [Write(ch, Pubrel(id))]
    case Released(ch, id) => after == before + [Write(ch, Pubcomp(id))]
    case _ => after == before
  }

  lemma AckSessionChanges(a: SessionState, e: Event)
    requires IsAck(e)
    ensures AckChanges(a, AckSession(a, e), e)
  {
    match e
    case Acked(_, id) => EraseIsRemovePublish(a.forAck, id);
    case GotPubrec(_, id) => EraseIsRemovePublish(a.forRec, id);
    case Released(_, id) => EraseIsRemoveId(a.pubrel, id);
    case Completed(_, id) => EraseIsRemoveId(a.pubcomp, id);
  }

  /** Main result on acknowledgements: each changes one session object as it should and is answered as it
      should, and does nothing else; without a connection it does nothing at all. */
  lemma AckIsExact(s: Server, e: Event, o: Orders)
    requires Connections(s) && !s.core.stuck && IsAck(e)
    ensures var s' := Step(s, e, o);
      if e.ch !in s.params then s' == s
      else
        var ref := s.params[e.ch].session;
        && ref in s.core.heap && ref in s'.core.heap && AckChanges(s.core.heap[ref], s'.core.heap[ref], e)
        && AckAnswered(s.core.log, s'.core.log, e)
        && s' == s.(core := Core(s.core.heap[ref := s'.core.heap[ref]], s'.core.log, false))
  {
    if e.ch in s.params {
      ClientOf(s, e.ch);
      AckSessionChanges(s.core.heap[s.params[e.ch].session], e);
      assert s.core.log + [] == s.core.log;
    }
  }

  // ---------------------------------------------------------------- the receiver's side of QoS 2

  /** The identifiers of inbound QoS 2 messages that a session notes: one more for each such PUBLISH on its
      connection, one fewer for each PUBREL. */
  function NotedAfter(s: Server, e: Event, ref: Channel, ids: seq<uint16>): seq<uint16> {
    if s.core.stuck || e.ch !in s.params || s.params[e.ch].session != ref then ids
    else match e
      case Publishing(_, p) => if p.qos == 2 then ids + [p.packetId] else ids
      case Released(_, id) => RemoveId(ids, id)
      case _ => ids
  }

  function RunNoted(s: Server, es: seq<(Event, Orders)>, ref: Channel, ids: seq<uint16>): seq<uint16>
    decreases es
  {
    if es == [] then ids
    else RunNoted(Step(s, es[0].0, es[0].1), es[1..], ref, NotedAfter(s, es[0].0, ref, ids))
  }

  predicate Noted(core: Core, ref: Channel, ids: seq<uint16>) {
    ref in core.heap && core.heap[ref].pubrel == ids
  }

  lemma AckNoted(s: Server, e: Event, ref: Channel)
    requires IsAck(e) && !s.core.stuck && ref in s.core.heap
    ensures Noted(HandleAck(s, e).core, ref, NotedAfter(s, e, ref, s.core.heap[ref].pubrel))
  {
    AckSessionChanges(s.core.heap[ref], e);
  }

  lemma ConnectNoted(s: Server, ch: Channel, l: Login, o: Orders, ref: Channel)
    requires ref in s.core.heap && ref != ch
    ensures Noted(Before(s, Connecting(ch, l), o), ref, s.core.heap[ref].pubrel)
  {
  }

  lemma BeforeNoted(s: Server, e: Event, o: Orders, ref: Channel)
    requires s.core.heap.Keys <= s.seen && Possible(s, e) && ref in s.core.heap && !s.core.stuck
    ensures Noted(Before(s, e, o), ref, NotedAfter(s, e, ref, s.core.heap[ref].pubrel))
  {
    match e
    case Connecting(ch, l) => ConnectNoted(s, ch, l, o, ref);
    case Subscribing(_, _, _) =>
    case Unsubscribing(_, _, _) =>
    case Publishing(_, _) =>
    case Disconnecting(_) =>
    case Losing(_) =>
    case _ => AckNoted(s, e, ref);
  }

  lemma StepNoted(s: Server, e: Event, o: Orders, ref: Channel)
    requires s.core.heap.Keys <= s.seen && Possible(s, e) && ref in s.core.heap
    ensures Noted(Step(s, e, o).core, ref, NotedAfter(s, e, ref, s.core.heap[ref].pubrel))
  {
    if !s.core.stuck {
      BeforeNoted(s, e, o, ref);
      StepSends(s, e, o);
      SendKeepsPubrel(Before(s, e, o), Sends(s, e, o), ref);
    }
  }

  /** What a session notes over a run, a reconnection or a hang notwithstanding. */
  lemma {:induction false} NotedOverRun(s: Server, es: seq<(Event, Orders)>, ref: Channel)
    requires Inv(s) && PossibleRun(s, es) && ref in s.core.heap
    ensures Noted(Run(s, es).core, ref, RunNoted(s, es, ref, s.core.heap[ref].pubrel))
    decreases es
  {
    if es != [] {
      StepInv(s, es[0].0, es[0].1);
      StepNoted(s, es[0].0, es[0].1, ref);
      NotedOverRun(Step(s, es[0].0, es[0].1), es[1..], ref);
    }
  }

  lemma RemoveOther(ids: seq<uint16>, id: uint16, other: uint16)
    requires id in ids && id != other
    ensures id in RemoveId(ids, other)
  {
    EraseIsRemoveId(ids, other);
    EraseOther(ids, id, other);
  }

  lemma NoteKept(s: Server, e: Event, ref: Channel, id: uint16, ids: seq<uint16>)
    requires id in ids && ref in s.core.heap && !(Hears(s, e, ref) && BrokerHistory.Names(e, Rel, id))
    ensures id in NotedAfter(s, e, ref, ids)
  {
    if Hears(s, e, ref) && e.Released? { RemoveOther(ids, id, e.packetId); }
  }

  lemma {:induction false} NotedStays(s: Server, es: seq<(Event, Orders)>, ref: Channel, id: uint16, ids: seq<uint16>)
    requires id in ids && ref in s.core.heap && !Heard(s, es, ref, Rel, id)
    requires Inv(s) && PossibleRun(s, es)
    ensures id in RunNoted(s, es, ref, ids)
    decreases es
  {
    if es != [] {
      var e := es[0].0;
      StepInv(s, e, es[0].1);
      StepNoted(s, e, es[0].1, ref);
      NoteKept(s, e, ref, id, ids);
      NotedStays(Step(s, e, es[0].1), es[1..], ref, id, NotedAfter(s, e, ref, ids));
    }
  }

  lemma PublishAnswered(s: Server, ch: Channel, p: Publish, o: Orders)
    requires Connections(s) && !s.core.stuck && ch in s.params
    ensures s.core.log + AnswerTo(ch, p) <= Step(s, Publishing(ch, p), o).core.log
  {
    AcknowledgeAnswers(s, ch, p);
    StepSends(s, Publishing(ch, p), o);
    DeliverAllGrows(Before(s, Publishing(ch, p), o), Sends(s, Publishing(ch, p), o));
  }

  /** The receiver's side of QoS 2, as one (section 4.3.3 of MQTT 3.1.1). A QoS 2 message is answered with
      PUBREC and its identifier noted; whatever happens until its PUBREL, on this connection or a later one
      of the session, it stays noted; and the PUBREL is answered with PUBCOMP, which takes the note away. */
  lemma Qos2Received(s: Server, ch: Channel, p: Publish, o: Orders, es: seq<(Event, Orders)>, ch': Channel, o': Orders)
    requires Inv(s) && !s.core.stuck && ch in s.params && Possible(s, Publishing(ch, p)) && Traverses(s, o)
    requires p.qos == 2
    requires var s1 := Step(s, Publishing(ch, p), o);
      && PossibleRun(s1, es) && !Heard(s1, es, s.params[ch].session, Rel, p.packetId)
      && !Run(s1, es).core.stuck && ch' in Run(s1, es).params
      && Run(s1, es).params[ch'].session == s.params[ch].session
    ensures var s1, ref := Step(s, Publishing(ch, p), o), s.params[ch].session;
      var s2 := Run(s1, es);
      var s3 := Step(s2, Released(ch', p.packetId), o');
      && s.core.log + [Write(ch, Pubrec(p.packetId))] <= s1.core.log
      && ref in s2.core.heap && p.packetId in s2.core.heap[ref].pubrel
      && s3.core.log == s2.core.log + [Write(ch', Pubcomp(p.packetId))]
      && Noted(s3.core, ref, RemoveId(s2.core.heap[ref].pubrel, p.packetId))
  {
    var s1, ref := Step(s, Publishing(ch, p), o), s.params[ch].session;
    ClientOf(s, ch);
    PublishAnswered(s, ch, p, o);
    StepInv(s, Publishing(ch, p), o);
    StepNoted(s, Publishing(ch, p), o, ref);
    NotedOverRun(s1, es, ref);
    NotedStays(s1, es, ref, p.packetId, s1.core.heap[ref].pubrel);
    RunInv(s1, es);
    AckIsExact(Run(s1, es), Released(ch', p.packetId), o');
  }

  // ---------------------------------------------------------------- the sender's side: PUBREL again

  lemma CompStep(s: Server, e: Event, o: Orders, ref: Channel, id: uint16)
    requires Connections(s) && Possible(s, e) && ref in s.core.heap && id in s.core.heap[ref].pubcomp
    requires !(Hears(s, e, ref) && BrokerHistory.Names(e, Comp, id))
    ensures ref in Step(s, e, o).core.heap && id in Step(s, e, o).core.heap[ref].pubcomp
  {
    StepEvolves(s, e, o, ref);
    if Hears(s, e, ref) && e.Completed? { EraseOther(s.core.heap[ref].pubcomp, id, e.packetId); }
  }

  /** An identifier awaits PUBCOMP until PUBCOMP comes. */
  lemma {:induction false} CompConserved(s: Server, es: seq<(Event, Orders)>, ref: Channel, id: uint16)
    requires Inv(s) && PossibleRun(s, es) && ref in s.core.heap && id in s.core.heap[ref].pubcomp
    requires !Heard(s, es, ref, Comp, id)
    ensures ref in Run(s, es).core.heap && id in Run(s, es).core.heap[ref].pubcomp
    decreases es
  {
    if es != [] {
      StepInv(s, es[0].0, es[0].1);
      CompStep(s, es[0].0, es[0].1, ref, id);
      CompConserved(Step(s, es[0].0, es[0].1), es[1..], ref, id);
    }
  }

  /** The second half of a QoS 2 exchange is resumed too: from its PUBREC on, whatever happens short of the
      PUBCOMP, every connection that restores the session is sent the PUBREL again. */
  lemma PubrelAgain(s: Server, es: seq<(Event, Orders)>, ref: Channel, id: uint16, ch: Channel, l: Login, o: Orders)
    requires Inv(s) && PossibleRun(s, es) && ref in s.core.heap && id in s.core.heap[ref].pubcomp
    requires !Heard(s, es, ref, Comp, id) && !Run(s, es).core.stuck
    requires Possible(Run(s, es), Connecting(ch, l)) && l.code == 0 && !l.clean
    requires l.id in Run(s, es).sessions && Run(s, es).sessions[l.id] == ref
    ensures var before, after := Run(s, es).core.log, Step(Run(s, es), Connecting(ch, l), o).core.log;
      exists i :: |before| <= i < |after| && after[i] == Write(ch, Pubrel(id))
  {
    CompConserved(s, es, ref, id);
    ReconnectRewrites(Run(s, es), ch, l, o);
    var log := Step(Run(s, es), Connecting(ch, l), o).core.log;
    var i := PubrelRewritten(log, |Run(s, es).core.log| + 1, ch, Run(s, es).core.heap[ref], id);
  }

  lemma PubrelRewritten(log: seq<Write>, n: nat, ch: Channel, ses: SessionState, id: uint16) returns (i: nat)
    requires Rewritten(log, n, ch, ses) && id in ses.pubcomp
    ensures n <= i < |log| && log[i] == Write(ch, Pubrel(id))
  {
    var j :| 0 <= j < |ses.pubcomp| && ses.pubcomp[j] == id;
    i := n + |ses.forAck| + |ses.forRec| + j;
    assert log[n + |ses.forAck| + |ses.forRec| + j] == Write(ch, Pubrel(ses.pubcomp[j]));
  }
}
