/** What the packets of a run look like as bytes. */
module BrokerWire {
  import opened Basics
  import opened FixedHeader
  import opened Packets
  import opened PacketLaws
  import opened Codec
  import opened Frames
  import opened Broker
  import opened BrokerCore
  import opened BrokerInvariant

  /** Every PUBLISH a run writes, forwarded, retained, will, note or replay, is within the size the decoder
      takes, and is built and serialized without an exception; DUP is 0 in its flags. */
  lemma WritesFit(es: seq<(Event, Orders)>, i: nat)
    requires PossibleRun(Start, es) && i < |Run(Start, es).core.log| && Run(Start, es).core.log[i].packet.Forward?
    ensures var p := Run(Start, es).core.log[i].packet.publish;
      p.qos <= 2 && |p.topic| < 0x1_0000 && PublishLength(p) <= 2_097_151 && p.flags == FlagBits(false, p.qos, p.retain)
  {
    StartInv();
    RunInv(Start, es);
    assert WriteFits(Run(Start, es).core.log[i]);
  }

  lemma TrashIsReadable(topic: Str)
    requires topic == TRASH
    ensures Readable(topic)
  {
    AsciiIsUtf8(topic);
    Utf8IsReadable(topic);
  }

  /** The decoder takes an outgoing PUBLISH back, but for the `dup` a replay sets, unless it is a note. */
  lemma OutgoingDecodes(p: Publish, rest: Str)
    requires Outgoing(p)
    ensures var r := PublishOf(PublishHeader(p), PublishBody(p) + rest);
      if p.topic == TRASH then r == Malformed else r == Ok(p.(dup := false), rest)
  {
    if p.topic == TRASH {
      TrashIsReadable(p.topic);
      FlagBitsRoundTrip(false, p.qos, p.retain);
      PublishTopicRoundTrip(p, rest);
    } else {
      DupIsNotSent(p, rest);
    }
  }

  /** Main result on what is sent: for any run, each PUBLISH written decodes, in front of any bytes, to
      exactly the packet recorded, with DUP = 0 on first delivery and on every redelivery; only notes for
      $sys/trash are refused, because a client may not publish to a '$' topic. */
  lemma WritesDecode(es: seq<(Event, Orders)>, i: nat, rest: Str)
    requires PossibleRun(Start, es) && i < |Run(Start, es).core.log| && Run(Start, es).core.log[i].packet.Forward?
    ensures var p := Run(Start, es).core.log[i].packet.publish;
      var r := PublishOf(PublishHeader(p), PublishBody(p) + rest);
      if p.topic == TRASH then r == Malformed else r == Ok(p.(dup := false), rest)
  {
    StartInv();
    RunInv(Start, es);
    assert WriteFits(Run(Start, es).core.log[i]);
    OutgoingDecodes(Run(Start, es).core.log[i].packet.publish, rest);
  }

  /** The packet a write puts on the wire. */
  function PacketFor(w: Wire): Packet {
    match w
    case Connack(present, code) => PConnack(present, code)
    case Forward(p) => PPublish(p.(dup := false))
    case Puback(id) => PAck(PUBACK, id)
    case Pubrec(id) => PAck(PUBREC, id)
    case Pubrel(id) => PAck(PUBREL, id)
    case Pubcomp(id) => PAck(PUBCOMP, id)
    case SubackPacket(id, codes) => PSuback(Suback(id, codes))
    case Unsuback(id) => PAck(UNSUBACK, id)
  }

  predicate IsNote(w: Wire) {
    w.Forward? && w.publish.topic == TRASH
  }

  lemma FittingIsLegal(w: Write)
    requires WriteFits(w) && !IsNote(w.packet)
    ensures Legal(PacketFor(w.packet)) && |Body(PacketFor(w.packet))| <= 2_097_151
  {
    if w.packet.Forward? { PublishBodyLength(w.packet.publish.(dup := false)); }
  }

  /** Everything a run writes, of whatever type, is a frame that a client with this decoder takes for that
      packet, but for the notes for $sys/trash. */
  lemma WritesAreFrames(es: seq<(Event, Orders)>, i: nat)
    requires PossibleRun(Start, es) && i < |Run(Start, es).core.log| && !IsNote(Run(Start, es).core.log[i].packet)
    ensures var p := PacketFor(Run(Start, es).core.log[i].packet);
      Legal(p) && IsFrame(Encode(p), p)
  {
    StartInv();
    RunInv(Start, es);
    var w := Run(Start, es).core.log[i];
    assert WriteFits(w);
    FittingIsLegal(w);
    EncodeIsFrame(PacketFor(w.packet));
  }
}
