/** Messages of QoS 0: they are kept in no table, so that all there is of one is its place in the channel. */
module Plain {
  import opened QosSession
  import opened Network
  import opened Wire
  import Loops

  predicate IsPlain(p: Packet) {
    p.Publish? && p.qos == 0
  }

  /** The QoS 0 message that a packet carries. */
  function PlainOf(p: Packet): seq<nat> {
    if IsPlain(p) then [p.body] else []
  }

  /** The QoS 0 messages of a channel. */
  function PlainIn(q: seq<Packet>): seq<nat> {
    if q == [] then [] else PlainOf(q[0]) + PlainIn(q[1..])
  }

  /** The broker can take the first packet. */
  predicate Takes(s: System) {
    s.client.outPacket != [] && (s.broker.connected || s.client.outPacket[0].Connect?)
  }

  /** The message that is submitted to a connection. */
  function OfferedBy(s: System, step: Step): seq<nat> {
    if step.SubmitPlain? && s.client.link.Up? then [step.body] else []
  }

  /** The message that the broker takes. */
  function TakenBy(s: System, step: Step): seq<nat> {
    if step.BrokerReceive? && Takes(s) then PlainIn(s.client.outPacket[..1]) else []
  }

  /** The messages that leave the channel: one that the broker takes, or all that are left when the connection
      is given up. */
  function LeavingBy(s: System, step: Step): seq<nat> {
    if step.Reopen? then PlainIn(s.client.outPacket) else TakenBy(s, step)
  }

  function Offered(s: System, steps: seq<Step>): seq<nat>
    requires Keyed(s.client)
    decreases |steps|
  {
    if steps == [] then [] else OfferedBy(s, steps[0]) + Offered(Next(s, steps[0]), steps[1..])
  }

  function Taken(s: System, steps: seq<Step>): seq<nat>
    requires Keyed(s.client)
    decreases |steps|
  {
    if steps == [] then [] else TakenBy(s, steps[0]) + Taken(Next(s, steps[0]), steps[1..])
  }

  function Leaving(s: System, steps: seq<Step>): seq<nat>
    requires Keyed(s.client)
    decreases |steps|
  {
    if steps == [] then [] else LeavingBy(s, steps[0]) + Leaving(Next(s, steps[0]), steps[1..])
  }

  predicate OneConnection(steps: seq<Step>) {
    forall step :: step in steps ==> !step.Reopen?
  }

  /** No message of the table is one of QoS 0. */
  ghost predicate NonePlain(table: map<nat, Msg>) {
    forall k :: k in table ==> table[k].qos > 0
  }

  lemma {:induction false} PlainConcat(a: seq<Packet>, b: seq<Packet>)
    ensures PlainIn(a + b) == PlainIn(a) + PlainIn(b)
  {
    hide PlainOf;
    if a == [] {
      assert a + b == b;
      assert [] + PlainIn(b) == PlainIn(b);
    } else {
      assert (a + b)[1..] == a[1..] + b && (a + b)[0] == a[0];
      PlainConcat(a[1..], b);
      Brackets(PlainOf(a[0]), PlainIn(a[1..]), PlainIn(b));
    }
  }

  lemma Brackets(a: seq<nat>, b: seq<nat>, c: seq<nat>)
    ensures a + (b + c) == a + b + c
  {
  }

  lemma PlainSnoc(q: seq<Packet>, p: Packet)
    ensures PlainIn(q + [p]) == PlainIn(q) + PlainOf(p)
  {
    PlainConcat(q, [p]);
    assert [p][1..] == [];
  }

  // ---------- what the client does by itself ----------

  /** No QoS 0 message has come into the channel. */
  ghost predicate SamePlain(c: Session, c1: Session) {
    PlainIn(c1.outPacket) == PlainIn(c.outPacket) && NonePlain(c1.table)
  }

  lemma QueueSame(c: Session, c1: Session, p: Packet, inCallback: bool)
    requires SamePlain(c, c1) && !IsPlain(p)
    ensures SamePlain(c, PacketQueue(c1, p, inCallback).0)
  {
    PlainSnoc(c1.outPacket, p);
  }

  lemma StartSame(c: Session, c1: Session, mid: nat, inCallback: bool)
    requires SamePlain(c, c1) && mid in c1.table
    ensures SamePlain(c, Start(c1, mid, inCallback).0)
  {
    var c2 := SetState(Count(c1, 1), mid, FirstState(c1.table[mid].qos));
    var p := PublishOf(mid, c2.table[mid]);
    QueueSame(c, c2.(sent := c2.sent + [p]), p, inCallback);
    hide PlainIn, PacketQueue;
  }

  lemma RefillSame(c: Session, c1: Session)
    requires SamePlain(c, c1) && Keyed(c1)
    ensures SamePlain(c, Refill(c1).0)
  {
    hide UpdateInflight, Start, SamePlain;
    var P := (c1: Session) => SamePlain(c, c1);
    assert Loops.KeptByStart(P, false) by {
      forall c1: Session, mid |
        P(c1) && mid in c1.table && (c1.table[mid].state.Queued? || c1.table[mid].state.ReadyToPublish?)
        ensures P(Start(c1, mid, false).0)
      {
        StartSame(c, c1, mid, false);
      }
    }
    if c1.config.maxInflight > 0 {
      Loops.UpdateInflightKeeps(P, c1, 0);
    }
  }

  lemma ResumeSame(c: Session, c1: Session, mid: nat)
    requires SamePlain(c, c1) && mid in c1.table
    ensures SamePlain(c, ResumePubrel(c1, mid))
  {
    QueueSame(c, SetState(Count(c1, 1), mid, WaitForPubcomp), Pubrel(mid), true);
    hide PlainIn, PacketQueue;
  }

  lemma ConnackSame(c: Session)
    requires NonePlain(c.table) && Keyed(c)
    ensures SamePlain(c, HandleConnack(c, 0).0)
  {
    hide HandleConnack, Start, ResumePubrel, PlainIn;
    var P := (c1: Session) => SamePlain(c, c1);
    assert Loops.KeptByWrite(P);
    hide SamePlain;
    assert Loops.KeptByStart(P, true) by {
      forall c1: Session, mid |
        P(c1) && mid in c1.table && (c1.table[mid].state.Queued? || c1.table[mid].state.ReadyToPublish?)
        ensures P(Start(c1, mid, true).0)
      {
        StartSame(c, c1, mid, true);
      }
    }
    assert Loops.KeptByResume(P) by {
      forall c1: Session, mid | P(c1) && mid in c1.table && c1.table[mid].qos == 2 && c1.table[mid].state.ResendPubrel?
        ensures P(ResumePubrel(c1, mid))
      {
        ResumeSame(c, c1, mid);
      }
    }
    Loops.ConnackKeeps(P, c, 0);
  }

  lemma AcknowledgeSame(c: Session, mid: nat)
    requires NonePlain(c.table) && Keyed(c)
    ensures SamePlain(c, HandlePubackcomp(c, mid).0)
  {
    hide Refill, Without, PlainIn;
    if mid in c.table {
      RefillSame(c, Complete(c, mid));
    }
  }

  lemma PubrelSame(c: Session, mid: nat)
    requires NonePlain(c.table) && Keyed(c)
    ensures SamePlain(c, HandlePubrel(c, mid).0)
  {
    hide Refill, PlainIn, PacketQueue;
    var c1 := if mid in c.inbox then Refill(Release(c, mid)).0 else c;
    if mid in c.inbox {
      RefillSame(c, Release(c, mid));
    }
    QueueSame(c, c1, Pubcomp(mid), false);
  }

  lemma ProcessSame(c: Session, p: Packet)
    requires NonePlain(c.table) && Keyed(c)
    ensures SamePlain(c, Process(c, p))
  {
    hide HandleConnack, HandlePubackcomp, HandlePubrel, PlainIn, PacketQueue;
    match p
    case Connack => ConnackSame(c);
    case Publish(mid, qos, _, body) =>
      QueueSame(c, Deliver(c, InMsg(mid, qos, body)), Puback(mid), false);
      QueueSame(c, c, Pubrec(mid), false);
    case Puback(mid) => AcknowledgeSame(c, mid);
    case Pubrec(mid) =>
      if mid in c.table {
        QueueSame(c, SetState(c, mid, WaitForPubcomp), Pubrel(mid), false);
      }
    case Pubrel(mid) => PubrelSame(c, mid);
    case Pubcomp(mid) => AcknowledgeSame(c, mid);
    case Connect(_) =>
  }

  lemma PublishSame(c: Session, qos: nat)
    requires NonePlain(c.table) && qos > 0
    ensures SamePlain(c, PublishMessage(c, qos).0)
  {
    hide Start, PlainIn;
    var mid := NextMid(c.lastMid);
    StartSame(c, Accept(c.(lastMid := mid), mid, qos, Queued), mid, false);
  }

  // ---------- runs ----------

  /** A step brings a message into the channel at its end or takes one from its beginning. */
  lemma NextPlain(s: System, step: Step)
    requires Keyed(s.client) && NonePlain(s.client.table)
    ensures NonePlain(Next(s, step).client.table)
    ensures PlainIn(s.client.outPacket) + OfferedBy(s, step)
         == LeavingBy(s, step) + PlainIn(Next(s, step).client.outPacket)
  {
    hide PlainIn, Process, PacketQueue, PublishMessage;
    var c := s.client;
    match step
    case Submit(qos) => if qos > 0 { PublishSame(c, qos); }
    case SubmitPlain(body) => PlainSubmitted(c, body);
    case ClientReceive => if s.toClient != [] { ProcessSame(c, s.toClient[0]); }
    case BrokerReceive => if Takes(s) { FirstTaken(c.outPacket); }
    case Ack(mid, _) =>
      QueueSame(c, c, Puback(mid), false);
      QueueSame(c, c, Pubcomp(mid), false);
    case Reopen(clean, link) => ReopenPlain(c, clean, link);
    case _ =>
  }

  lemma PlainSubmitted(c: Session, body: nat)
    ensures var c1 := PublishPlain(c, body).0;
      PlainIn(c1.outPacket) == PlainIn(c.outPacket) + (if c.link.Up? then [body] else []) && c1.table == c.table
  {
    PlainSnoc(c.outPacket, Publish(NextMid(c.lastMid), 0, false, body));
  }

  lemma FirstTaken(q: seq<Packet>)
    requires q != []
    ensures PlainIn(q) == PlainIn(q[..1]) + PlainIn(q[1..])
  {
    assert q == q[..1] + q[1..];
    PlainConcat(q[..1], q[1..]);
  }

  lemma ReopenPlain(c: Session, clean: bool, link: Link)
    requires NonePlain(c.table)
    ensures PlainIn(Reconnect(c, clean, link).outPacket) == [] && NonePlain(Reconnect(c, clean, link).table)
  {
    assert [Connect(clean)][1..] == [];
  }

  /** In every run the messages submitted to a connection leave the channel in this order and once each, or are
      still in it. */
  lemma {:induction false} RunPlain(s: System, steps: seq<Step>)
    requires Keyed(s.client) && NonePlain(s.client.table)
    ensures NonePlain(Run(s, steps).client.table)
    ensures PlainIn(s.client.outPacket) + Offered(s, steps)
         == Leaving(s, steps) + PlainIn(Run(s, steps).client.outPacket)
    decreases |steps|
  {
    hide PlainIn, Next, NonePlain, OfferedBy, LeavingBy;
    var p := PlainIn(s.client.outPacket);
    if steps == [] {
      Chain(p, [], [], [], p, p);
    } else {
      var s1 := Next(s, steps[0]);
      NextPlain(s, steps[0]);
      RunPlain(s1, steps[1..]);
      Chain(p, OfferedBy(s, steps[0]), Offered(s1, steps[1..]), LeavingBy(s, steps[0]), PlainIn(s1.client.outPacket),
            Leaving(s1, steps[1..]) + PlainIn(Run(s, steps).client.outPacket));
      Brackets(LeavingBy(s, steps[0]), Leaving(s1, steps[1..]), PlainIn(Run(s, steps).client.outPacket));
    }
  }

  lemma Chain(p: seq<nat>, o: seq<nat>, os: seq<nat>, l: seq<nat>, p1: seq<nat>, end: seq<nat>)
    requires p + o == l + p1 && p1 + os == end
    ensures p + (o + os) == l + end && p + [] == [] + p
  {
    assert p + (o + os) == p + o + os;
    assert l + p1 + os == l + (p1 + os);
  }

  lemma {:induction false} TakenOnly(s: System, steps: seq<Step>)
    requires Keyed(s.client) && OneConnection(steps)
    ensures Leaving(s, steps) == Taken(s, steps)
    decreases |steps|
  {
    if steps != [] {
      assert forall step :: step in steps[1..] ==> step in steps;
      TakenOnly(Next(s, steps[0]), steps[1..]);
    }
  }

  /** As long as the connection lasts, the broker takes every message submitted to it, in this order and once
      each, up to those that are still in the channel. */
  lemma PlainReaches(s: System, steps: seq<Step>)
    requires Ok(s) && OneConnection(steps)
    ensures Keyed(s.client)
    ensures PlainIn(s.client.outPacket) + Offered(s, steps)
         == Taken(s, steps) + PlainIn(Run(s, steps).client.outPacket)
  {
    assert Keyed(s.client) && NonePlain(s.client.table);
    hide Ok;
    RunPlain(s, steps);
    TakenOnly(s, steps);
  }

  function Receives(n: nat): seq<Step> {
    seq(n, _ => BrokerReceive)
  }

  /** Nothing but the broker has to move for the channel to become empty. */
  lemma {:induction false} ChannelEmpties(s: System)
    requires Keyed(s.client) && (s.client.outPacket == [] || Takes(s))
    ensures Run(s, Receives(|s.client.outPacket|)).client.outPacket == []
    decreases |s.client.outPacket|
  {
    var q, steps := s.client.outPacket, Receives(|s.client.outPacket|);
    if q != [] {
      assert steps[0] == BrokerReceive && steps[1..] == Receives(|q| - 1);
      ChannelEmpties(Next(s, BrokerReceive));
    }
  }

  /** And then it has taken all of them. */
  lemma AllTaken(s: System, steps: seq<Step>)
    requires Ok(s) && OneConnection(steps) && Keyed(s.client)
    requires var t := Run(s, steps); t.client.outPacket == [] || Takes(t)
    ensures var more := steps + Receives(|Run(s, steps).client.outPacket|);
      Taken(s, more) == PlainIn(s.client.outPacket) + Offered(s, steps)
  {
    hide PlainIn, Next, Ok;
    var t := Run(s, steps);
    var rest := Receives(|t.client.outPacket|);
    RunConcat(s, steps, rest);
    ChannelEmpties(t);
    PlainReaches(s, steps + rest);
    NoneOffered(s, steps, rest);
    NothingPlain();
  }

  lemma NothingPlain()
    ensures PlainIn([]) == []
  {
  }

  lemma {:induction false} NothingOffered(s: System, rest: seq<Step>)
    requires Keyed(s.client) && forall step :: step in rest ==> step == BrokerReceive
    ensures Offered(s, rest) == []
    decreases |rest|
  {
    hide Next;
    if rest != [] {
      assert rest[0] in rest && forall step :: step in rest[1..] ==> step in rest;
      NothingOffered(Next(s, rest[0]), rest[1..]);
    }
  }

  lemma {:induction false} NoneOffered(s: System, steps: seq<Step>, rest: seq<Step>)
    requires Keyed(s.client) && forall step :: step in rest ==> step == BrokerReceive
    ensures Offered(s, steps + rest) == Offered(s, steps)
    decreases |steps|
  {
    hide Next;
    if steps == [] {
      assert steps + rest == rest;
      NothingOffered(s, rest);
    } else {
      assert (steps + rest)[1..] == steps[1..] + rest;
      NoneOffered(Next(s, steps[0]), steps[1..], rest);
    }
  }
}
