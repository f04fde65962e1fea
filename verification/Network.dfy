/** The client together with a conforming broker, and the two FIFO channels between them. The
    client's own `outPacket` is the channel towards the broker, which takes packets only of a
    connection that a CONNECT has opened. */
module Network {
  import opened QosSession

  /** A broker of section 4.3.3 of MQTT 3.1.1. `store` holds the QoS 2 packet identifiers it
      has received and not yet released, with the message each stands for; `onward` lists the
      messages handed onward. The standard allows handing a message onward when it arrives
      (`early`) or when it is released; both are covered. A CONNECT for a clean session empties
      the store. */
  datatype Broker = Broker(early: bool, connected: bool, store: map<nat, nat>, onward: seq<nat>)

  datatype System = System(client: Session, broker: Broker, toClient: seq<Packet>)

  function Receive(b: Broker, p: Packet): (Broker, seq<Packet>) {
    match p
    case Connect(clean) => (b.(connected := true, store := if clean then map[] else b.store), [Connack])
    case Publish(mid, qos, _, body) =>
      if qos == 1 then (b.(onward := b.onward + [body]), [Puback(mid)])
      else if qos != 2 then (b, [])
      else if mid in b.store then (b, [Pubrec(mid)])
      else (b.(store := b.store[mid := body], onward := if b.early then b.onward + [body] else b.onward), [Pubrec(mid)])
    case Pubrel(mid) =>
      if mid in b.store then
        (b.(store := b.store - {mid}, onward := if b.early then b.onward else b.onward + [b.store[mid]]),
         [Pubcomp(mid)])
      else (b, [Pubcomp(mid)])
    case _ => (b, [])
  }

  /** One step of the whole system. `Grant` re-chooses how many of the coming socket writes
      succeed; `SubmitPlain` publishes with QoS 0; `OtherMid` is any other use of the identifier
      counter (subscribe, unsubscribe); `Ack` is a call of the application; `Reopen` keeps the
      session or starts a clean one, and with `Down` it is a reconnection attempt that fails. */
  datatype Step =
    | Submit(qos: nat)
    | SubmitPlain(body: nat)
    | OtherMid
    | Grant(writes: nat)
    | ClientReceive
    | BrokerReceive
    | BrokerSend(packet: Packet)
    | Drop
    | Ack(mid: nat, qos: nat)
    | Reopen(clean: bool, link: Link)

  /** A step that is not possible in a state leaves it as it is. */
  function Next(s: System, step: Step): (r: System)
    requires Keyed(s.client)
    ensures Keyed(r.client)
  {
    match step
    case Submit(qos) =>
      if qos == 1 || qos == 2 then s.(client := PublishMessage(s.client, qos).0) else s
    case SubmitPlain(body) => s.(client := PublishPlain(s.client, body).0)
    case OtherMid => s.(client := s.client.(lastMid := NextMid(s.client.lastMid)))
    case Grant(writes) => if s.client.link.Up? then s.(client := s.client.(link := Up(writes))) else s
    case ClientReceive =>
      if s.client.link.Up? && s.toClient != [] then
        s.(client := Process(s.client, s.toClient[0]), toClient := s.toClient[1..])
      else s
    case BrokerReceive =>
      if s.client.outPacket != [] && (s.broker.connected || s.client.outPacket[0].Connect?) then
        var (b, replies) := Receive(s.broker, s.client.outPacket[0]);
        System(s.client.(outPacket := s.client.outPacket[1..]), b, s.toClient + replies)
      else s
    case BrokerSend(p) =>
      if s.broker.connected && (p.Publish? || p.Pubrel?) then s.(toClient := s.toClient + [p]) else s
    case Drop => s.(client := s.client.(link := Down))
    case Ack(mid, qos) => s.(client := QosSession.Ack(s.client, mid, qos).0)
    case Reopen(clean, link) =>
      System(Reconnect(s.client, clean, link), s.broker.(connected := false), [])
  }

  /** Handle one packet; an error closes the socket. */
  function Process(c: Session, p: Packet): (r: Session)
    requires Keyed(c)
    ensures Keyed(r)
  {
    var (c1, rc) := HandlePacket(c, p);
    if rc.Success? then c1 else c1.(link := Down)
  }

  function Initial(config: Config, early: bool): System {
    System(Fresh(config), Broker(early, false, map[], []), [])
  }

  function Run(s: System, steps: seq<Step>): (r: System)
    requires Keyed(s.client)
    ensures Keyed(r.client)
    decreases |steps|
  {
    if steps == [] then s else Run(Next(s, steps[0]), steps[1..])
  }

  lemma {:induction false} RunConcat(s: System, a: seq<Step>, b: seq<Step>)
    requires Keyed(s.client)
    ensures Run(s, a + b) == Run(Run(s, a), b)
    decreases |a|
  {
    if a == [] {
      assert a + b == b;
    } else {
      assert (a + b)[1..] == a[1..] + b;
      RunConcat(Next(s, a[0]), a[1..], b);
    }
  }

  lemma RunSnoc(s: System, steps: seq<Step>, step: Step)
    requires Keyed(s.client)
    ensures Run(s, steps + [step]) == Next(Run(s, steps), step)
  {
    RunConcat(s, steps, [step]);
    var s1 := Run(s, steps);
    assert [step][1..] == [];
    assert Run(s1, [step]) == Run(Next(s1, step), []);
  }
}
