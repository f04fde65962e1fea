/** What an application can go by when it resets the connection: for which states of the client a reset
    cannot make the broker hand a QoS 2 message onward twice, whatever the broker has done. */
module SafeResets {
  import opened QosSession
  import opened Network
  import opened Wire
  import opened Conservation
  import opened ExactlyOnce
  import opened Rounds
  import Demotion
  import Loops

  /** A PUBLISH of the message was put on a connection. */
  ghost predicate WasSent(sent: seq<Packet>, body: nat) {
    exists p :: p in sent && p.Publish? && IsSend(p) && p.body == body
  }

  /** No message waits to resend its PUBREL when the session is kept; none of QoS 2 was ever sent when a
      clean one starts. */
  ghost predicate ClientSafe(c: Session, clean: bool) {
    forall k :: k in c.table && c.table[k].qos == 2 ==>
      if clean then !WasSent(c.sent, c.table[k].body) else !c.table[k].state.ResendPubrel?
  }

  ghost predicate AllSafe(s: System, steps: seq<Step>)
    requires Keyed(s.client)
    decreases |steps|
  {
    steps != [] ==>
      && (steps[0].Reopen? ==> ClientSafe(s.client, steps[0].clean))
      && AllSafe(Next(s, steps[0]), steps[1..])
  }

  // ---------- what the client puts on a connection ----------

  /** Between `c` and `c1` every PUBLISH sent was queued and conversely, and a message came to wait for its
      PUBCOMP only with a PUBREL queued. */
  ghost predicate Tells(c: Session, c1: Session) {
    && c.outPacket <= c1.outPacket && c.sent <= c1.sent
    && (forall p :: p in c1.sent && p !in c.sent ==> p in c1.outPacket)
    && (forall p :: p in c1.outPacket && p !in c.outPacket && p.Publish? && IsSend(p) ==> p in c1.sent)
    && (forall k :: k in c1.table && c1.table[k].state.WaitForPubcomp? ==>
          (k in c.table && c.table[k].state.WaitForPubcomp?) || Pubrel(k) in c1.outPacket)
    && (forall k :: k in c1.table && c1.table[k].state.ResendPubrel? ==> k in c.table && c.table[k].state.ResendPubrel?)
  }

  lemma TellsNothing(c: Session, c1: Session)
    requires c1.outPacket == c.outPacket && c1.sent == c.sent && c1.table == c.table
    ensures Tells(c, c1)
  {
  }

  /** The message goes out, or the channel and the log stay. */
  lemma StartTells(c: Session, c1: Session, mid: nat, inCallback: bool)
    requires Tells(c, c1) && mid in c1.table
    ensures Tells(c, Start(c1, mid, inCallback).0)
  {
    var m := c1.table[mid].(state := FirstState(c1.table[mid].qos));
    var c2 := Start(c1, mid, inCallback).0;
    var d := c1.(table := c1.table[mid := m]);
    var e := d.(outPacket := d.outPacket + [PublishOf(mid, m)], sent := d.sent + [PublishOf(mid, m)]);
    SentTells(c, c1, mid, m);
    hide Tells;
    if c1.link.Up? {
      TellsTo(c, e, c2);
    } else {
      TellsTo(c, d, c2);
    }
  }

  lemma SentTells(c: Session, c1: Session, mid: nat, m: Msg)
    requires Tells(c, c1) && mid in c1.table && !m.state.WaitForPubcomp? && !m.state.ResendPubrel?
    ensures Tells(c, c1.(table := c1.table[mid := m]))
    ensures Tells(c, c1.(table := c1.table[mid := m], outPacket := c1.outPacket + [PublishOf(mid, m)],
                         sent := c1.sent + [PublishOf(mid, m)]))
  {
  }

  lemma TellsTo(c: Session, c1: Session, c2: Session)
    requires c2.outPacket == c1.outPacket && c2.sent == c1.sent && c2.table == c1.table
    ensures Tells(c, c1) ==> Tells(c, c2)
  {
  }

  lemma ResumeTells(c: Session, c1: Session, mid: nat)
    requires Tells(c, c1) && mid in c1.table
    ensures Tells(c, ResumePubrel(c1, mid))
  {
  }

  /** The table, the log and the channel are those of `c1`, but for a packet that is not about a message sent. */
  lemma RestTells(c: Session, c1: Session, c2: Session, packets: seq<Packet>)
    requires Tells(c, c1) && c2.table == c1.table && c2.sent == c1.sent && c2.outPacket == c1.outPacket + packets
    requires forall p :: p in packets ==> !IsSend(p)
    ensures Tells(c, c2)
  {
  }

  lemma RefillTells(c: Session, c1: Session)
    requires Tells(c, c1) && Keyed(c1)
    ensures Tells(c, Refill(c1).0)
  {
    hide UpdateInflight, Start, Tells;
    var P := (c1: Session) => Tells(c, c1);
    assert Loops.KeptByStart(P, false) by {
      forall c1: Session, mid |
        P(c1) && mid in c1.table && (c1.table[mid].state.Queued? || c1.table[mid].state.ReadyToPublish?)
        ensures P(Start(c1, mid, false).0)
      {
        StartTells(c, c1, mid, false);
      }
    }
    if c1.config.maxInflight > 0 {
      Loops.UpdateInflightKeeps(P, c1, 0);
    }
  }

  lemma ConnackTells(c: Session)
    requires Keyed(c)
    ensures Tells(c, HandleConnack(c, 0).0)
  {
    hide HandleConnack, Start, ResumePubrel, Tells;
    TellsNothing(c, c);
    var P := (c1: Session) => Tells(c, c1);
    assert Loops.KeptByStart(P, true) by {
      forall c1: Session, mid |
        P(c1) && mid in c1.table && (c1.table[mid].state.Queued? || c1.table[mid].state.ReadyToPublish?)
        ensures P(Start(c1, mid, true).0)
      {
        StartTells(c, c1, mid, true);
      }
    }
    assert Loops.KeptByResume(P) by {
      forall c1: Session, mid | P(c1) && mid in c1.table && c1.table[mid].qos == 2 && c1.table[mid].state.ResendPubrel?
        ensures P(ResumePubrel(c1, mid))
      {
        ResumeTells(c, c1, mid);
      }
    }
    assert Loops.KeptByWrite(P) by {
      forall c1: Session | P(c1) ensures P(LoopWrite(c1).0) {
        RestTells(c, c1, LoopWrite(c1).0, []);
      }
    }
    Loops.ConnackKeeps(P, c, 0);
  }

  lemma CompleteTells(c: Session, mid: nat)
    requires Keyed(c) && mid in c.table
    ensures Tells(c, Complete(c, mid))
  {
  }

  lemma PubrecTells(c: Session, mid: nat)
    ensures Tells(c, HandlePubrec(c, mid).0)
  {
    if mid in c.table {
      assert HandlePubrec(c, mid).0.outPacket == c.outPacket + [Pubrel(mid)];
    }
  }

  lemma PubrelTells(c: Session, mid: nat)
    requires Keyed(c)
    ensures Tells(c, HandlePubrel(c, mid).0)
  {
    hide Refill, Tells;
    var c1 := c;
    TellsNothing(c, c);
    if mid in c.inbox {
      TellsNothing(c, Release(c, mid));
      RefillTells(c, Release(c, mid));
      c1 := Refill(Release(c, mid)).0;
    }
    var c2 := HandlePubrel(c, mid).0;
    if c2 == c1 {
    } else {
      RestTells(c, c1, c2, [Pubcomp(mid)]);
    }
  }

  lemma DeliveryTells(c: Session, mid: nat, qos: nat, body: nat)
    ensures Tells(c, HandlePublish(c, mid, qos, body).0)
  {
    hide Tells;
    var c1 := HandlePublish(c, mid, qos, body).0;
    TellsNothing(c, c);
    var answer := if qos == 1 && !c.config.manualAck then [Puback(mid)] else if qos == 2 then [Pubrec(mid)] else [];
    RestTells(c, c, c1, answer);
  }

  lemma HandleTells(c: Session, p: Packet)
    requires Keyed(c)
    ensures Tells(c, HandlePacket(c, p).0)
  {
    hide Tells, HandleConnack, Refill, HandlePubrec, HandlePubrel, HandlePublish, Complete;
    TellsNothing(c, c);
    match p
    case Connack => ConnackTells(c);
    case Puback(mid) => if mid in c.table { CompleteTells(c, mid); RefillTells(c, Complete(c, mid)); }
    case Pubcomp(mid) => if mid in c.table { CompleteTells(c, mid); RefillTells(c, Complete(c, mid)); }
    case Pubrec(mid) => PubrecTells(c, mid);
    case Pubrel(mid) => PubrelTells(c, mid);
    case Publish(mid, qos, _, body) => DeliveryTells(c, mid, qos, body);
    case Connect(_) =>
  }

  lemma ProcessTells(c: Session, p: Packet)
    requires Keyed(c)
    ensures Tells(c, Process(c, p))
  {
    hide Tells, HandlePacket;
    HandleTells(c, p);
    RestTells(c, HandlePacket(c, p).0, Process(c, p), []);
  }

  lemma AcceptTells(c: Session, mid: nat, qos: nat, state: MessageState)
    requires state == Queued || state == ReadyToPublish
    ensures Tells(c, Accept(c, mid, qos, state))
  {
  }

  lemma PublishTells(c: Session, qos: nat)
    ensures Tells(c, PublishMessage(c, qos).0)
  {
    hide Tells, Start, Accept;
    var mid := NextMid(c.lastMid);
    var c1 := c.(lastMid := mid);
    TellsNothing(c, c1);
    AcceptTells(c1, mid, qos, Queued);
    AcceptTells(c1, mid, qos, ReadyToPublish);
    TellsSame(c, c1, Accept(c1, mid, qos, Queued));
    TellsSame(c, c1, Accept(c1, mid, qos, ReadyToPublish));
    Accepted(c1, mid, qos);
    StartTells(c, Accept(c1, mid, qos, Queued), mid, false);
  }

  lemma Accepted(c: Session, mid: nat, qos: nat)
    ensures mid in Accept(c, mid, qos, Queued).table
  {
  }

  lemma TellsSame(c: Session, c1: Session, c2: Session)
    requires Tells(c1, c2) && c1.outPacket == c.outPacket && c1.sent == c.sent && c1.table == c.table
    ensures Tells(c, c2)
  {
  }

  lemma AsideTells(c: Session, c1: Session)
    requires Aside(c, c1)
    ensures Tells(c, c1)
  {
    if c1.outPacket != c.outPacket {
      var p :| !IsSend(p) && !p.Connect? && c1.outPacket == c.outPacket + [p];
    }
  }

  /** Every step but a reset and a delivery to the broker. */
  lemma StepTells(s: System, step: Step)
    requires Keyed(s.client) && !step.Reopen? && !step.BrokerReceive?
    ensures Tells(s.client, Next(s, step).client) && Next(s, step).broker == s.broker
  {
    hide Tells, Process, PublishMessage, PublishPlain, QosSession.Ack, Aside;
    TellsNothing(s.client, s.client);
    if IsAside(step) {
      StepAside(s, step);
      AsideTells(s.client, Next(s, step).client);
    } else if step.Submit? {
      PublishTells(s.client, step.qos);
    } else if step.ClientReceive? {
      if s.client.link.Up? && s.toClient != [] {
        ProcessTells(s.client, s.toClient[0]);
      }
    } else {
      TellsNothing(s.client, Next(s, step).client);
    }
  }

  // ---------- the broker knows only what was sent ----------

  ghost predicate Known(c: Session, b: Broker) {
    && (forall x :: x in b.onward ==> WasSent(c.sent, x))
    && (forall k :: k in b.store ==> WasSent(c.sent, b.store[k]))
    && (forall p :: p in c.outPacket && p.Publish? && IsSend(p) ==> WasSent(c.sent, p.body))
  }

  lemma KnownMore(c: Session, c1: Session, b: Broker)
    requires Known(c, b) && Tells(c, c1)
    ensures Known(c1, b)
  {
    forall x | WasSent(c.sent, x) ensures WasSent(c1.sent, x) {
      var p :| p in c.sent && p.Publish? && IsSend(p) && p.body == x;
      assert p in c1.sent;
    }
  }

  lemma KnownReceived(c: Session, b: Broker)
    requires Known(c, b) && c.outPacket != []
    ensures Known(c.(outPacket := c.outPacket[1..]), Receive(b, c.outPacket[0]).0)
  {
    hide WasSent;
    var p := c.outPacket[0];
    assert p in c.outPacket;
  }

  lemma KnownReset(c: Session, b: Broker, clean: bool, link: Link)
    requires Known(c, b)
    ensures Known(Reconnect(c, clean, link), b.(connected := false))
  {
    hide WasSent, ResetTable;
  }

  lemma KnownNext(s: System, step: Step)
    requires Keyed(s.client) && Known(s.client, s.broker)
    ensures Known(Next(s, step).client, Next(s, step).broker)
  {
    hide Known, Tells, Reconnect, Receive;
    if step.Reopen? {
      KnownReset(s.client, s.broker, step.clean, step.link);
    } else if step.BrokerReceive? {
      if s.client.outPacket != [] {
        KnownReceived(s.client, s.broker);
      }
    } else {
      hide Next;
      StepTells(s, step);
      KnownMore(s.client, Next(s, step).client, s.broker);
    }
  }

  lemma SafeForgetsNothing(s: System, clean: bool, link: Link)
    requires Known(s.client, s.broker) && ClientSafe(s.client, clean)
    ensures !Forgets(s, Reopen(clean, link))
  {
    hide WasSent;
    forall k ensures !Loses(s, clean, k) {
      if k in s.client.table && s.client.table[k].qos == 2 && clean {
        assert s.client.table[k].body !in s.broker.onward;
      }
    }
  }

  /** What the client can see of a state, and the accounts that it cannot. */
  ghost predicate Sound(s: System) {
    Demotion.Good(s) && Known(s.client, s.broker)
  }

  lemma SoundKeyed(s: System)
    requires Sound(s)
    ensures Ok(s) && Keyed(s.client) && Known(s.client, s.broker) && Consistent(s) && WithinLimit(s.client)
  {
  }

  lemma SoundNext(s: System, step: Step)
    requires Sound(s) && (step.Reopen? ==> ClientSafe(s.client, step.clean))
    ensures Keyed(s.client) && Sound(Next(s, step)) && !Forgets(s, step)
  {
    SoundKeyed(s);
    hide Demotion.Good, Known, ClientSafe, Next, Ok, Loses;
    if step.Reopen? {
      SafeForgetsNothing(s, step.clean, step.link);
    }
    KnownNext(s, step);
    Demotion.GoodNext(s, step);
  }

  lemma InitialSound(config: Config, early: bool)
    ensures Sound(Initial(config, early))
  {
    Demotion.InitialGood(config, early);
    hide Demotion.Good;
  }

  lemma {:induction false} RunSound(s: System, steps: seq<Step>)
    requires Sound(s) && Keyed(s.client) && AllSafe(s, steps)
    ensures Sound(Run(s, steps)) && NeverForgets(s, steps)
    decreases |steps|
  {
    hide Sound, Next, ClientSafe, Forgets;
    if steps != [] {
      SoundNext(s, steps[0]);
      RunSound(Next(s, steps[0]), steps[1..]);
    }
  }

  /** An application that resets only where the client's own state says so gets exactly-once hand-over,
      whatever the network and a conforming broker do. */
  lemma SafeRunsHandOverOnce(config: Config, early: bool, steps: seq<Step>)
    requires AllSafe(Initial(config, early), steps)
    ensures HandedRight(Run(Initial(config, early), steps))
  {
    hide AllSafe, HandedRight, Run, NeverForgets, Sound;
    InitialSound(config, early);
    RunSound(Initial(config, early), steps);
    ExactlyOnceHandover(config, early, steps);
  }

  // ---------- a broker that is as far ahead as the client allows ----------

  /** All that the client sees of the broker. */
  ghost predicate SameSight(s: System, t: System) {
    t.client == s.client && t.toClient == s.toClient && t.broker.connected == s.broker.connected
  }

  /** The client's part of a step does not depend on what the broker knows. */
  lemma NextSight(s: System, t: System, step: Step)
    requires Keyed(s.client) && SameSight(s, t)
    ensures SameSight(Next(s, step), Next(t, step))
  {
    hide Process, PublishMessage, PublishPlain, QosSession.Ack, Reconnect;
  }

  /** Every PUBLISH sent is still in the channel or was handed onward; a message waits for its PUBCOMP only
      with its PUBREL in the channel or released, and to resend its PUBREL only when it is released. */
  ghost predicate Ahead(c: Session, b: Broker) {
    && b.early
    && (forall p :: p in c.sent && p.Publish? && IsSend(p) ==> p in c.outPacket || p.body in b.onward)
    && (forall k :: k in c.table && c.table[k].state.WaitForPubcomp? ==> Pubrel(k) in c.outPacket || k !in b.store)
    && (forall k :: k in c.table && c.table[k].state.ResendPubrel? ==> k !in b.store)
  }

  /** The broker can take the packets that are about messages. */
  ghost predicate Deliverable(s: System) {
    s.broker.connected || (s.client.outPacket != [] && s.client.outPacket[0].Connect?)
    || forall p :: p in s.client.outPacket ==> !IsSend(p)
  }

  lemma AheadMore(c: Session, c1: Session, b: Broker)
    requires Ahead(c, b) && Tells(c, c1)
    ensures Ahead(c1, b)
  {
  }

  /** The broker takes a PUBLISH or a PUBREL. */
  lemma AheadTaken(c: Session, b: Broker)
    requires Ahead(c, b) && Stored(c.table, b) && Counts(c.table, b) && c.outPacket != [] && IsSend(c.outPacket[0])
    requires SendFits(c.table, c.outPacket[0]) && StateFits(c.table[c.outPacket[0].mid])
    ensures Ahead(c.(outPacket := c.outPacket[1..]), Receive(b, c.outPacket[0]).0)
  {
    var p, rest, b1 := c.outPacket[0], c.outPacket[1..], Receive(b, c.outPacket[0]).0;
    assert c.outPacket == [p] + rest;
    if p.Publish? {
      TakenIsHanded(c, b, p);
    }
  }

  lemma TakenIsHanded(c: Session, b: Broker, p: Packet)
    requires b.early && Stored(c.table, b) && Counts(c.table, b) && p.Publish? && IsSend(p)
    requires SendFits(c.table, p) && StateFits(c.table[p.mid])
    ensures p.body in Receive(b, p).0.onward && b.onward <= Receive(b, p).0.onward
    ensures forall k :: k in Receive(b, p).0.store ==> k in b.store || k == p.mid
  {
    if p.qos == 2 && p.mid in b.store {
      assert Handed(b, p.body) == 1;
    }
  }

  lemma AheadOther(c: Session, b: Broker)
    requires Ahead(c, b) && c.outPacket != [] && !IsSend(c.outPacket[0])
    ensures Ahead(c.(outPacket := c.outPacket[1..]), Receive(b, c.outPacket[0]).0)
  {
    var p, rest := c.outPacket[0], c.outPacket[1..];
    assert c.outPacket == [p] + rest;
    OtherReceive(b, p);
  }

  lemma AheadReset(c: Session, b: Broker, clean: bool, link: Link)
    requires Ahead(c, b) && (forall p :: p in c.outPacket ==> !IsSend(p)) && ClientSafe(c, clean)
    requires forall k :: k in c.table ==> StateFits(c.table[k])
    ensures Ahead(Reconnect(c, clean, link), b.(connected := false))
  {
    var c1 := Reconnect(c, clean, link);
    ReopenTable(c, clean, link);
    assert c1.sent == c.sent;
    hide Reconnect, ResetMsg, StateFits;
    forall k | k in c1.table
      ensures !c1.table[k].state.WaitForPubcomp?
      ensures c1.table[k].state.ResendPubrel? ==> c.table[k].state.WaitForPubcomp?
    {
      ResetWaits(c.table[k], clean);
    }
  }

  lemma ResetWaits(m: Msg, clean: bool)
    requires StateFits(m)
    ensures !ResetMsg(m, clean).state.WaitForPubcomp?
    ensures ResetMsg(m, clean).state.ResendPubrel? ==> m.state.WaitForPubcomp?
  {
  }

  ghost predicate Eagerly(s: System) {
    Sound(s) && Ahead(s.client, s.broker) && Deliverable(s)
  }

  lemma TakenAhead(s: System)
    requires Sound(s) && Ahead(s.client, s.broker)
    ensures Keyed(s.client) && Ahead(Next(s, BrokerReceive).client, Next(s, BrokerReceive).broker)
  {
    SoundKeyed(s);
    if s.client.outPacket != [] && (s.broker.connected || s.client.outPacket[0].Connect?) {
      var p := s.client.outPacket[0];
      if IsSend(p) {
        assert SendFits(s.client.table, p) && StateFits(s.client.table[p.mid]);
        hide Sound, Ahead, Receive, Ok, Partition;
        AheadTaken(s.client, s.broker);
      } else {
        hide Sound, Ahead, Receive, Consistent, Ok;
        AheadOther(s.client, s.broker);
      }
    }
  }

  lemma DeliverableNext(s: System, step: Step)
    requires Ok(s) && Keyed(s.client) && Deliverable(s)
    ensures Deliverable(Next(s, step))
  {
    hide Process, PublishMessage, Reconnect, Receive, Wired, Aside, PublishPlain, QosSession.Ack;
    if s.broker.connected {
      StillConnected(s, step);
    } else if step.Reopen? {
      ReopenChannel(s.client, step.clean, step.link);
    } else if step.Submit? {
      PublishGrows(s.client, step.qos);
    } else if IsAside(step) {
      StepAside(s, step);
      AsideDeliverable(s, Next(s, step).client);
    } else if step.BrokerReceive? && s.client.outPacket != [] {
      DrainStep(s);
    }
  }

  lemma StillConnected(s: System, step: Step)
    requires Keyed(s.client) && s.broker.connected
    ensures Deliverable(Next(s, step))
  {
    hide Process, PublishMessage, Reconnect, PublishPlain, QosSession.Ack;
    if step.Reopen? {
      ReopenChannel(s.client, step.clean, step.link);
    }
  }

  lemma AsideDeliverable(s: System, c1: Session)
    requires Deliverable(s) && Aside(s.client, c1)
    ensures Deliverable(s.(client := c1))
  {
    if c1.outPacket != s.client.outPacket {
      var p :| !IsSend(p) && !p.Connect? && c1.outPacket == s.client.outPacket + [p];
    }
  }

  /** A step that is no reset keeps the broker ahead. */
  lemma EagerlyNext(s: System, step: Step)
    requires Eagerly(s) && !step.Reopen?
    ensures Keyed(s.client) && Eagerly(Next(s, step))
  {
    SoundKeyed(s);
    hide Sound, Ahead, Deliverable, Next, Tells, Ok, Known, Consistent;
    SoundNext(s, step);
    DeliverableNext(s, step);
    if step.BrokerReceive? {
      TakenAhead(s);
    } else {
      StepTells(s, step);
      AheadMore(s.client, Next(s, step).client, s.broker);
    }
  }

  // ---------- draining the channel ----------

  function Drains(n: nat): seq<Step> {
    if n == 0 then [] else [BrokerReceive] + Drains(n - 1)
  }

  lemma DrainStep(s: System)
    requires Keyed(s.client) && s.client.outPacket != []
    ensures var s1 := Next(s, BrokerReceive);
      && s1.client == s.client.(outPacket := s1.client.outPacket)
      && if s.broker.connected || s.client.outPacket[0].Connect? then
           s1.client.outPacket == s.client.outPacket[1..] && s1.broker.connected
         else s1 == s
  {
  }

  /** Every packet is taken, or the broker takes none and none is about a message. */
  lemma {:induction false} Drained(s: System, n: nat)
    requires Eagerly(s) && Keyed(s.client) && n == |s.client.outPacket|
    ensures var s1 := Run(s, Drains(n));
      && Eagerly(s1) && s1.client == s.client.(outPacket := s1.client.outPacket)
      && forall p :: p in s1.client.outPacket ==> !IsSend(p)
    decreases n
  {
    hide Eagerly, Next, Keyed;
    if n > 0 {
      assert Drains(n)[0] == BrokerReceive && Drains(n)[1..] == Drains(n - 1);
      DrainStep(s);
      EagerlyNext(s, BrokerReceive);
      if s.broker.connected || s.client.outPacket[0].Connect? {
        Drained(Next(s, BrokerReceive), n - 1);
      } else {
        Blocked(s, n);
      }
    }
  }

  lemma {:induction false} Blocked(s: System, n: nat)
    requires Eagerly(s) && Keyed(s.client) && s.client.outPacket != []
    requires !s.broker.connected && !s.client.outPacket[0].Connect?
    ensures Run(s, Drains(n)) == s && forall p :: p in s.client.outPacket ==> !IsSend(p)
    decreases n
  {
    DrainStep(s);
    hide Sound, Ahead, Next, Keyed;
    if n > 0 {
      assert Drains(n)[0] == BrokerReceive && Drains(n)[1..] == Drains(n - 1);
      Blocked(s, n - 1);
    }
  }

  // ---------- the run with the eager broker ----------

  /** The same steps, with the broker taking all that it can before each reset. */
  ghost function Eager(s: System, steps: seq<Step>): seq<Step>
    requires Keyed(s.client)
    decreases |steps|
  {
    if steps == [] then []
    else
      var before := if steps[0].Reopen? then Drains(|s.client.outPacket|) else [];
      before + ([steps[0]] + Eager(Next(Run(s, before), steps[0]), steps[1..]))
  }

  lemma {:induction false} SafeConcat(s: System, a: seq<Step>, b: seq<Step>)
    requires Keyed(s.client)
    ensures AllSafe(s, a + b) <==> AllSafe(s, a) && AllSafe(Run(s, a), b)
    decreases |a|
  {
    hide Next, ClientSafe;
    if a == [] {
      assert a + b == b;
    } else {
      assert (a + b)[1..] == a[1..] + b;
      SafeConcat(Next(s, a[0]), a[1..], b);
    }
  }

  lemma {:induction false} DrainsSafe(s: System, n: nat)
    requires Keyed(s.client)
    ensures AllSafe(s, Drains(n))
    decreases n
  {
    hide Next, ClientSafe;
    if n > 0 {
      assert Drains(n)[0] == BrokerReceive && Drains(n)[1..] == Drains(n - 1);
      DrainsSafe(Next(s, BrokerReceive), n - 1);
    }
  }

  lemma SafeLooks(c: Session, c1: Session, clean: bool)
    requires c1 == c.(outPacket := c1.outPacket)
    ensures ClientSafe(c1, clean) <==> ClientSafe(c, clean)
    ensures forall link :: Reconnect(c1, clean, link) == Reconnect(c, clean, link)
  {
    hide WasSent, ResetTable;
  }

  lemma ReopenSight(s: System, t: System, clean: bool, link: Link)
    requires Keyed(s.client) && Keyed(t.client) && t.client == s.client.(outPacket := t.client.outPacket)
    ensures SameSight(Next(s, Reopen(clean, link)), Next(t, Reopen(clean, link)))
  {
    SafeLooks(s.client, t.client, clean);
    hide Reconnect;
  }

  lemma ReopenAhead(t: System, clean: bool, link: Link)
    requires Eagerly(t) && Keyed(t.client) && ClientSafe(t.client, clean)
    requires forall p :: p in t.client.outPacket ==> !IsSend(p)
    ensures Eagerly(Next(t, Reopen(clean, link)))
  {
    SoundKeyed(t);
    FitsStates(t);
    ReopenClient(t, clean, link);
    hide Sound, Ahead, Deliverable, ClientSafe, Ok, Known, Consistent, Reconnect, Next;
    SoundNext(t, Reopen(clean, link));
    DeliverableNext(t, Reopen(clean, link));
    AheadReset(t.client, t.broker, clean, link);
  }

  /** A reset behind a drained channel looks the same and leaves the broker ahead. */
  lemma DrainedReset(s: System, t: System, clean: bool, link: Link)
    requires SameSight(s, t) && Eagerly(t) && Keyed(t.client) && ClientSafe(s.client, clean)
    ensures var t1 := Run(t, Drains(|t.client.outPacket|));
      && ClientSafe(t1.client, clean)
      && SameSight(Next(s, Reopen(clean, link)), Next(t1, Reopen(clean, link)))
      && Eagerly(Next(t1, Reopen(clean, link)))
  {
    var t1 := Run(t, Drains(|t.client.outPacket|));
    Drained(t, |t.client.outPacket|);
    SafeLooks(t.client, t1.client, clean);
    hide Run, Eagerly, ClientSafe, Reconnect, Next;
    ReopenSight(s, t1, clean, link);
    ReopenAhead(t1, clean, link);
  }

  lemma FitsStates(s: System)
    requires Ok(s)
    ensures forall k :: k in s.client.table ==> StateFits(s.client.table[k])
  {
  }

  lemma RunOne(s: System, step: Step)
    requires Keyed(s.client)
    ensures Run(s, [step]) == Next(s, step)
    ensures AllSafe(s, [step]) <==> (step.Reopen? ==> ClientSafe(s.client, step.clean))
  {
    RunSnoc(s, [], step);
    Demotion.RunEmpty(s);
    assert [] + [step] == [step];
    assert [step][1..] == [];
  }

  lemma {:induction false} EagerRuns(s: System, t: System, steps: seq<Step>)
    requires Keyed(s.client) && SameSight(s, t) && Eagerly(t) && AllSafe(s, steps)
    ensures var more := Eager(t, steps);
      AllSafe(t, more) && Eagerly(Run(t, more)) && SameSight(Run(s, steps), Run(t, more))
    decreases |steps|
  {
    hide Eagerly, Next, ClientSafe, Drains;
    if steps != [] {
      var before := if steps[0].Reopen? then Drains(|t.client.outPacket|) else [];
      var t1 := Run(t, before);
      if steps[0].Reopen? {
        DrainedReset(s, t, steps[0].clean, steps[0].link);
        DrainsSafe(t, |t.client.outPacket|);
      } else {
        NextSight(s, t, steps[0]);
        EagerlyNext(t, steps[0]);
      }
      var rest := Eager(Next(t1, steps[0]), steps[1..]);
      EagerRuns(Next(s, steps[0]), Next(t1, steps[0]), steps[1..]);
      hide Run, SameSight, AllSafe, Keyed;
      Behind(t, before, steps[0], rest);
    }
  }

  lemma Behind(t: System, before: seq<Step>, step: Step, rest: seq<Step>)
    requires Keyed(t.client) && AllSafe(t, before)
    requires step.Reopen? ==> ClientSafe(Run(t, before).client, step.clean)
    requires AllSafe(Next(Run(t, before), step), rest)
    ensures Run(t, before + ([step] + rest)) == Run(Next(Run(t, before), step), rest)
    ensures AllSafe(t, before + ([step] + rest))
  {
    hide AllSafe, Next, ClientSafe, Run;
    var t1 := Run(t, before);
    RunConcat(t, before, [step] + rest);
    RunConcat(t1, [step], rest);
    RunOne(t1, step);
    SafeConcat(t, before, [step] + rest);
    SafeConcat(t1, [step], rest);
  }

  lemma AheadLoses(s: System, clean: bool)
    requires Ahead(s.client, s.broker) && (forall p :: p in s.client.outPacket ==> !IsSend(p))
    requires !ClientSafe(s.client, clean) && forall k :: k in s.client.table ==> StateFits(s.client.table[k])
    ensures exists k :: Loses(s, clean, k)
  {
    var k :| k in s.client.table && s.client.table[k].qos == 2
      && !(if clean then !WasSent(s.client.sent, s.client.table[k].body) else !s.client.table[k].state.ResendPubrel?);
    if clean {
      var p :| p in s.client.sent && p.Publish? && IsSend(p) && p.body == s.client.table[k].body;
      assert p.body in s.broker.onward;
    }
    assert Loses(s, clean, k);
  }

  lemma InitialEagerly(config: Config, early: bool)
    ensures SameSight(Initial(config, early), Initial(config, true)) && Eagerly(Initial(config, true))
    ensures Keyed(Initial(config, early).client)
  {
    InitialSound(config, true);
    hide Sound;
  }

  /** The same client, but for what is still in its channel. */
  predicate Looks(c: Session, c1: Session) {
    c1 == c.(outPacket := c1.outPacket)
  }

  /** Where the client's state does not allow a reset, another run that looks the same to the client, and
      whose resets were allowed, ends in a state in which the reset forgets. */
  lemma UnsafeShown(config: Config, early: bool, steps: seq<Step>, clean: bool) returns (other: seq<Step>)
    requires AllSafe(Initial(config, early), steps)
    requires !ClientSafe(Run(Initial(config, early), steps).client, clean)
    ensures var t := Run(Initial(config, true), other);
      && AllSafe(Initial(config, true), other) && Looks(Run(Initial(config, early), steps).client, t.client)
      && Sound(t) && exists k :: Loses(t, clean, k)
  {
    var s0, t0 := Initial(config, early), Initial(config, true);
    InitialEagerly(config, early);
    EagerRuns(s0, t0, steps);
    var t := Run(t0, Eager(t0, steps));
    var n := |t.client.outPacket|;
    Drained(t, n);
    var t1 := Run(t, Drains(n));
    SafeLooks(t.client, t1.client, clean);
    SoundKeyed(t1);
    FitsStates(t1);
    hide Run, ClientSafe, AllSafe, Sound, Initial, Ok, Known, Consistent, Loses;
    AheadLoses(t1, clean);
    DrainsSafe(t, n);
    SafeConcat(t0, Eager(t0, steps), Drains(n));
    RunConcat(t0, Eager(t0, steps), Drains(n));
    other := Eager(t0, steps) + Drains(n);
  }

  /** A reset that can be followed, without another one, by a second hand-over. */
  ghost predicate Harmful(s: System, clean: bool)
    requires Keyed(s.client)
  {
    exists more :: NoReset(more) && HandedTwiceAfter(s, clean, more)
  }

  ghost predicate HandedTwiceAfter(s: System, clean: bool, more: seq<Step>)
    requires Keyed(s.client)
  {
    Demotion.HandedTwice(Run(s, [Reopen(clean, Up(1))] + more))
  }

  lemma HarmfulExactly(s: System, clean: bool)
    requires Sound(s) && Keyed(s.client)
    ensures Harmful(s, clean) <==> exists k :: Loses(s, clean, k)
  {
    SoundKeyed(s);
    hide Loses, Consistent, Ok, Known, WithinLimit, Sound, Run, Demotion.HandedTwice;
    Demotion.ResetUnsafeExactly(s, clean);
    assert (exists more :: NoReset(more) && Demotion.HandedTwice(Run(s, [Reopen(clean, Up(1))] + more)))
      <==> (exists more :: NoReset(more) && HandedTwiceAfter(s, clean, more)) by {
      if more :| NoReset(more) && Demotion.HandedTwice(Run(s, [Reopen(clean, Up(1))] + more)) {
        assert HandedTwiceAfter(s, clean, more);
      }
    }
  }

  /** After no run that the client cannot tell from this one, and whose resets were allowed, is the reset
      harmful, whichever of the two ways the broker works. */
  ghost predicate SafeWhatever(config: Config, c: Session, clean: bool) {
    forall early, steps :: AllSafe(Initial(config, early), steps) && Looks(c, Run(Initial(config, early), steps).client)
      ==> !Harmful(Run(Initial(config, early), steps), clean)
  }

  /** The client's own state decides, for every run whose resets it allowed: it allows the next reset exactly
      when this is harmless whatever the broker has done unseen. */
  lemma ClientSafeExactly(config: Config, early: bool, steps: seq<Step>, clean: bool)
    requires AllSafe(Initial(config, early), steps)
    ensures var c := Run(Initial(config, early), steps).client;
      SafeWhatever(config, c, clean) <==> ClientSafe(c, clean)
  {
    hide AllSafe, Run, ClientSafe, Sound, Harmful, Loses;
    var c := Run(Initial(config, early), steps).client;
    if ClientSafe(c, clean) {
      forall early1, steps1 |
        AllSafe(Initial(config, early1), steps1) && Looks(c, Run(Initial(config, early1), steps1).client)
        ensures !Harmful(Run(Initial(config, early1), steps1), clean)
      {
        SafeLooks(c, Run(Initial(config, early1), steps1).client, clean);
        AllowedHarmless(config, early1, steps1, clean);
      }
    } else {
      var other := UnsafeShown(config, early, steps, clean);
      HarmfulExactly(Run(Initial(config, true), other), clean);
    }
  }

  lemma AllowedHarmless(config: Config, early: bool, steps: seq<Step>, clean: bool)
    requires AllSafe(Initial(config, early), steps) && ClientSafe(Run(Initial(config, early), steps).client, clean)
    ensures !Harmful(Run(Initial(config, early), steps), clean)
  {
    hide AllSafe, Run, ClientSafe, Sound, Harmful, Loses, Consistent, Known, Ok, WithinLimit;
    InitialSound(config, early);
    RunSound(Initial(config, early), steps);
    var s := Run(Initial(config, early), steps);
    SoundKeyed(s);
    SafeForgetsNothing(s, clean, Up(1));
    HarmfulExactly(s, clean);
  }
}
