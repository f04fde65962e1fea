/** Incoming QoS 2 messages reach the application once per handshake. */
module Inbound {
  import opened QosSession
  import opened Network
  import opened Wire
  import Loops

  // ---------- the reference: what the arriving packets ask for ----------

  /** What a packet, or the start of a clean session, means for one packet identifier. */
  datatype Mark = Opened(body: nat) | Released | Forgotten

  function MarksOf(p: Packet, mid: nat): seq<Mark> {
    if p.Publish? && p.qos == 2 && p.mid == mid then [Opened(p.body)]
    else if p.Pubrel? && p.mid == mid then [Released]
    else []
  }

  function StepMarks(s: System, step: Step, mid: nat): seq<Mark> {
    if step.ClientReceive? && s.client.link.Up? && s.toClient != [] then MarksOf(s.toClient[0], mid)
    else if step.Reopen? && step.clean then [Forgotten]
    else []
  }

  /** The packets the client handles in a run and the clean sessions it starts, in order, as seen
      by one identifier. */
  function History(s: System, steps: seq<Step>, mid: nat): seq<Mark>
    requires Keyed(s.client)
    decreases |steps|
  {
    if steps == [] then []
    else StepMarks(s, steps[0], mid) + History(Next(s, steps[0]), steps[1..], mid)
  }

  /** One delivery for each PUBREL that directly follows a PUBLISH of its identifier; further
      PUBLISHes before it are duplicates, further PUBRELs release nothing, and nor does a PUBREL
      whose PUBLISH belongs to an earlier, forgotten session. */
  function Handshakes(marks: seq<Mark>): seq<nat> {
    if |marks| < 2 then []
    else
      var n := |marks|;
      Handshakes(marks[..n - 1])
      + (if marks[n - 1].Released? && marks[n - 2].Opened? then [marks[n - 2].body] else [])
  }

  // ---------- what the application got ----------

  function DeliveredFor(log: seq<InMsg>, mid: nat): seq<nat> {
    if log == [] then []
    else
      var n := |log|;
      DeliveredFor(log[..n - 1], mid)
      + (if log[n - 1].qos == 2 && log[n - 1].mid == mid then [log[n - 1].body] else [])
  }

  ghost predicate InboxOk(c: Session) {
    forall k :: k in c.inbox ==> c.inbox[k].qos == 2 && c.inbox[k].mid == k
  }

  /** The table of half-received messages and the deliveries agree with the history. */
  ghost predicate Agrees(c: Session, marks: seq<Mark>, mid: nat) {
    && InboxOk(c)
    && (mid in c.inbox <==> marks != [] && marks[|marks| - 1].Opened?)
    && (mid in c.inbox ==> c.inbox[mid].body == marks[|marks| - 1].body)
    && DeliveredFor(c.delivered, mid) == Handshakes(marks)
  }

  ghost predicate SameInbound(c: Session, c1: Session) {
    c1.inbox == c.inbox && c1.delivered == c.delivered && c1.config == c.config
  }

  lemma StartSame(c: Session, c1: Session, mid: nat)
    requires SameInbound(c, c1) && mid in c1.table
    ensures SameInbound(c, Start(c1, mid, false).0)
  {
  }

  lemma RefillSame(c: Session)
    requires Keyed(c)
    ensures SameInbound(c, Refill(c).0)
  {
    hide UpdateInflight, Start;
    var P := (c1: Session) => SameInbound(c, c1);
    assert Loops.KeptByStart(P, false) by {
      forall c1: Session, mid |
        P(c1) && mid in c1.table && (c1.table[mid].state.Queued? || c1.table[mid].state.ReadyToPublish?)
        ensures P(Start(c1, mid, false).0)
      {
        StartSame(c, c1, mid);
      }
    }
    Loops.UpdateInflightKeeps(P, c, 0);
  }

  lemma ConnackSame(c: Session)
    requires Keyed(c)
    ensures SameInbound(c, HandleConnack(c, 0).0)
  {
    hide HandleConnack;
    Loops.ConnackKeeps((c1: Session) => SameInbound(c, c1), c, 0);
  }

  lemma OtherPacketSame(c: Session, p: Packet)
    requires Keyed(c) && !p.Publish? && !p.Pubrel?
    ensures SameInbound(c, Process(c, p))
  {
    hide HandleConnack, Refill;
    match p
    case Connack => ConnackSame(c);
    case Puback(mid) => if mid in c.table { RefillSame(Complete(c, mid)); }
    case Pubcomp(mid) => if mid in c.table { RefillSame(Complete(c, mid)); }
    case _ =>
  }

  // ---------- one packet ----------

  lemma PublishIs(c: Session, p: Packet)
    requires Keyed(c) && p.Publish?
    ensures var c1 := Process(c, p); var m := InMsg(p.mid, p.qos, p.body);
      && c1.inbox == (if p.qos == 2 then c.inbox[p.mid := m] else c.inbox)
      && c1.delivered == if p.qos < 2 then c.delivered + [m] else c.delivered
  {
    hide HandleConnack, HandlePubackcomp, HandlePubrel, HandlePubrec, HandlePublish;
    PublishHandled(c, p.mid, p.qos, p.body);
  }

  lemma PublishHandled(c: Session, mid: nat, qos: nat, body: nat)
    ensures var c1 := HandlePublish(c, mid, qos, body).0; var m := InMsg(mid, qos, body);
      && c1.inbox == (if qos == 2 then c.inbox[mid := m] else c.inbox)
      && c1.delivered == if qos < 2 then c.delivered + [m] else c.delivered
  {
  }

  lemma HandshakesMore(marks: seq<Mark>, m: Mark)
    ensures Handshakes(marks + [m]) == Handshakes(marks)
      + if marks != [] && m.Released? && marks[|marks| - 1].Opened? then [marks[|marks| - 1].body] else []
  {
    assert (marks + [m])[..|marks|] == marks;
  }

  lemma DeliveredMore(log: seq<InMsg>, m: InMsg, mid: nat)
    ensures DeliveredFor(log + [m], mid) == DeliveredFor(log, mid) + if m.qos == 2 && m.mid == mid then [m.body] else []
  {
    assert (log + [m])[..|log|] == log;
  }

  lemma PublishAgrees(c: Session, p: Packet, marks: seq<Mark>, mid: nat)
    requires Keyed(c) && p.Publish? && Agrees(c, marks, mid)
    ensures Agrees(Process(c, p), marks + MarksOf(p, mid), mid)
  {
    hide Process, Handshakes, DeliveredFor, Keyed;
    PublishIs(c, p);
    if p.qos == 2 && p.mid == mid {
      HandshakesMore(marks, Opened(p.body));
    } else {
      assert marks + MarksOf(p, mid) == marks;
    }
    if p.qos < 2 {
      DeliveredMore(c.delivered, InMsg(p.mid, p.qos, p.body), mid);
    }
  }

  lemma PubrelIs(c: Session, mid: nat)
    requires Keyed(c)
    ensures var c1 := Process(c, Pubrel(mid));
      && c1.inbox == c.inbox - {mid}
      && c1.delivered == if mid in c.inbox then c.delivered + [c.inbox[mid]] else c.delivered
  {
    hide Refill;
    if mid in c.inbox {
      RefillSame(Release(c, mid));
    } else {
      assert c.inbox - {mid} == c.inbox;
    }
  }

  lemma PubrelAgrees(c: Session, p: Packet, marks: seq<Mark>, mid: nat)
    requires Keyed(c) && p.Pubrel? && Agrees(c, marks, mid)
    ensures Agrees(Process(c, p), marks + MarksOf(p, mid), mid)
  {
    hide Process, Handshakes, DeliveredFor, Keyed;
    PubrelIs(c, p.mid);
    if p.mid == mid {
      HandshakesMore(marks, Released);
    } else {
      assert marks + MarksOf(p, mid) == marks;
    }
    if p.mid in c.inbox {
      DeliveredMore(c.delivered, c.inbox[p.mid], mid);
    }
  }

  lemma ProcessAgrees(c: Session, p: Packet, marks: seq<Mark>, mid: nat)
    requires Keyed(c) && Agrees(c, marks, mid)
    ensures Agrees(Process(c, p), marks + MarksOf(p, mid), mid)
  {
    hide Process;
    if p.Publish? {
      PublishAgrees(c, p, marks, mid);
    } else if p.Pubrel? {
      PubrelAgrees(c, p, marks, mid);
    } else {
      OtherPacketSame(c, p);
      assert marks + MarksOf(p, mid) == marks;
    }
  }

  /** A kept session: the reset finds nothing to drop among the half-received messages. */
  lemma ResetKeepsInbox(c: Session)
    requires InboxOk(c)
    ensures ResetIn(c, false) == c
  {
    assert ResetIn(c, false).inbox == c.inbox;
  }

  lemma ReopenSame(c: Session, link: Link)
    requires InboxOk(c)
    ensures SameInbound(c, Reconnect(c, false, link))
  {
    hide ResetIn;
    ResetKeepsInbox(ResetOut(c.(link := Down, outPacket := []), false));
  }

  /** A clean session forgets every half-received message and delivers none of them. */
  lemma ReopenForgets(c: Session, link: Link)
    ensures SameInbound(c.(inbox := map[]), Reconnect(c, true, link))
  {
  }

  lemma OtherStepSame(s: System, step: Step)
    requires Keyed(s.client) && InboxOk(s.client) && !step.ClientReceive? && !(step.Reopen? && step.clean)
    ensures SameInbound(s.client, Next(s, step).client)
  {
    hide Reconnect, Start, Aside, PublishPlain, QosSession.Ack, PublishMessage;
    if step.Reopen? {
      ReopenSame(s.client, step.link);
    } else if IsAside(step) {
      hide Next;
      StepAside(s, step);
      AsideInbound(s.client, Next(s, step).client);
    } else if step.Submit? {
      PublishInbound(s.client, step.qos);
    }
  }

  lemma AsideInbound(c: Session, c1: Session)
    requires Aside(c, c1)
    ensures SameInbound(c, c1)
  {
  }

  lemma PublishInbound(c: Session, qos: nat)
    ensures SameInbound(c, PublishMessage(c, qos).0)
  {
  }

  // ---------- what is answered ----------

  predicate IsAnswer(p: Packet) {
    p.Puback? || p.Pubrec? || p.Pubcomp?
  }

  function AnswersIn(q: seq<Packet>): seq<Packet> {
    if q == [] then [] else AnswersIn(q[..|q| - 1]) + if IsAnswer(q[|q| - 1]) then [q[|q| - 1]] else []
  }

  /** Sections 4.3.2 and 4.3.3 of MQTT 3.1.1, unless the application acknowledges by itself. */
  function AnswersTo(p: Packet, manualAck: bool): seq<Packet> {
    match p
    case Publish(mid, qos, _, _) =>
      if qos == 2 then [Pubrec(mid)] else if qos == 1 && !manualAck then [Puback(mid)] else []
    case Pubrel(mid) => if manualAck then [] else [Pubcomp(mid)]
    case _ => []
  }

  /** `c1` has queued more packets than `c`, and of these `answers` are answers. */
  ghost predicate Enqueues(c: Session, c1: Session, answers: seq<Packet>) {
    c.outPacket <= c1.outPacket && AnswersIn(c1.outPacket[|c.outPacket|..]) == answers
  }

  lemma QueuedNothing(c: Session, c1: Session)
    requires c1.outPacket == c.outPacket
    ensures Enqueues(c, c1, [])
  {
  }

  lemma QueuedMore(c: Session, c1: Session, c2: Session, p: Packet)
    requires Enqueues(c, c1, []) && c2.outPacket == c1.outPacket + [p]
    ensures Enqueues(c, c2, if IsAnswer(p) then [p] else [])
  {
    var more := c2.outPacket[|c.outPacket|..];
    assert more == c1.outPacket[|c.outPacket|..] + [p];
    assert more[..|more| - 1] == c1.outPacket[|c.outPacket|..];
  }

  lemma QueuedSame(c: Session, c1: Session, c2: Session, answers: seq<Packet>)
    requires Enqueues(c, c1, answers) && c2.outPacket == c1.outPacket
    ensures Enqueues(c, c2, answers)
  {
  }

  lemma StartQueues(c: Session, c1: Session, mid: nat, inCallback: bool)
    requires Enqueues(c, c1, []) && mid in c1.table
    ensures Enqueues(c, Start(c1, mid, inCallback).0, [])
  {
    hide Enqueues;
    var m := c1.table[mid].(state := FirstState(c1.table[mid].qos));
    var c2 := Start(c1, mid, inCallback).0;
    if c1.link.Down? {
      QueuedSame(c, c1, c2, []);
    } else {
      QueuedMore(c, c1, c2, PublishOf(mid, m));
    }
  }

  lemma RefillQueues(c: Session, c1: Session)
    requires Keyed(c1) && Enqueues(c, c1, [])
    ensures Enqueues(c, Refill(c1).0, [])
  {
    hide UpdateInflight, Start, Enqueues;
    var P := (c2: Session) => Enqueues(c, c2, []);
    assert Loops.KeptByStart(P, false) by {
      forall c2: Session, mid |
        P(c2) && mid in c2.table && (c2.table[mid].state.Queued? || c2.table[mid].state.ReadyToPublish?)
        ensures P(Start(c2, mid, false).0)
      {
        StartQueues(c, c2, mid, false);
      }
    }
    if c1.config.maxInflight > 0 {
      Loops.UpdateInflightKeeps(P, c1, 0);
    }
  }

  lemma ConnackQueues(c: Session)
    requires Keyed(c)
    ensures Enqueues(c, HandleConnack(c, 0).0, [])
  {
    hide HandleConnack, Start, Enqueues;
    QueuedNothing(c, c);
    var P := (c2: Session) => Enqueues(c, c2, []);
    assert Loops.KeptByStart(P, true) by {
      forall c2: Session, mid |
        P(c2) && mid in c2.table && (c2.table[mid].state.Queued? || c2.table[mid].state.ReadyToPublish?)
        ensures P(Start(c2, mid, true).0)
      {
        StartQueues(c, c2, mid, true);
      }
    }
    assert Loops.KeptByResume(P) by {
      forall c2: Session, mid | P(c2) && mid in c2.table && c2.table[mid].qos == 2 && c2.table[mid].state.ResendPubrel?
        ensures P(ResumePubrel(c2, mid))
      {
        QueuedMore(c, c2, ResumePubrel(c2, mid), Pubrel(mid));
      }
    }
    assert Loops.KeptByWrite(P) by {
      forall c2: Session | P(c2) ensures P(LoopWrite(c2).0) {
        QueuedSame(c, c2, LoopWrite(c2).0, []);
      }
    }
    Loops.ConnackKeeps(P, c, 0);
  }

  /** The refill behind a released message fails to write. */
  predicate RefillFails(c: Session, p: Packet)
    requires Keyed(c)
  {
    p.Pubrel? && p.mid in c.inbox && !Refill(Release(c, p.mid)).1.Success?
  }

  lemma PubrelAnswered(c: Session, mid: nat)
    requires Keyed(c)
    ensures Enqueues(c, Process(c, Pubrel(mid)),
        if RefillFails(c, Pubrel(mid)) then [] else AnswersTo(Pubrel(mid), c.config.manualAck))
  {
    hide Refill, Enqueues;
    var c1 := Process(c, Pubrel(mid));
    QueuedNothing(c, c);
    var c2 := if mid in c.inbox then Refill(Release(c, mid)).0 else c;
    if mid in c.inbox {
      QueuedSame(c, c, Release(c, mid), []);
      RefillQueues(c, Release(c, mid));
      RefillSame(Release(c, mid));
    }
    if RefillFails(c, Pubrel(mid)) || c.config.manualAck {
      QueuedSame(c, c2, c1, []);
    } else {
      QueuedMore(c, c2, c1, Pubcomp(mid));
    }
  }

  lemma PublishAnswered(c: Session, p: Packet)
    requires Keyed(c) && p.Publish?
    ensures Enqueues(c, Process(c, p), AnswersTo(p, c.config.manualAck))
  {
    hide Enqueues;
    QueuedNothing(c, c);
    var c1 := Process(c, p);
    if p.qos == 2 {
      QueuedMore(c, c, c1, Pubrec(p.mid));
    } else if p.qos == 1 && !c.config.manualAck {
      QueuedMore(c, c, c1, Puback(p.mid));
    } else {
      QueuedSame(c, c, c1, []);
    }
  }

  lemma CompletionAnswered(c: Session, p: Packet)
    requires Keyed(c) && (p.Puback? || p.Pubcomp?)
    ensures Enqueues(c, Process(c, p), [])
  {
    hide Enqueues, Refill;
    QueuedNothing(c, c);
    if p.mid in c.table {
      QueuedSame(c, c, Complete(c, p.mid), []);
      RefillQueues(c, Complete(c, p.mid));
      QueuedSame(c, Refill(Complete(c, p.mid)).0, Process(c, p), []);
    }
  }

  lemma PubrecAnswered(c: Session, mid: nat)
    requires Keyed(c)
    ensures Enqueues(c, Process(c, Pubrec(mid)), [])
  {
    hide Enqueues;
    QueuedNothing(c, c);
    if mid in c.table {
      QueuedMore(c, c, Process(c, Pubrec(mid)), Pubrel(mid));
    }
  }

  lemma ConnackAnswered(c: Session)
    requires Keyed(c)
    ensures Enqueues(c, Process(c, Connack), [])
  {
    hide Enqueues, HandleConnack;
    ConnackQueues(c);
    QueuedSame(c, HandleConnack(c, 0).0, Process(c, Connack), []);
  }

  lemma ConnectAnswered(c: Session, clean: bool)
    requires Keyed(c)
    ensures Enqueues(c, Process(c, Connect(clean)), [])
  {
  }

  /** A PUBLISH of QoS 3 and a CONNECT change nothing and close the connection. */
  lemma BadPacketCloses(c: Session, p: Packet)
    requires Keyed(c) && (p.Connect? || (p.Publish? && p.qos > 2))
    ensures Process(c, p) == c.(link := Down)
  {
  }

  /** Each packet handled is answered by exactly the acknowledgement that it calls for, none other
      is sent, and the only one omitted is the PUBCOMP behind a refill that closes the socket. */
  lemma AnsweredExactly(c: Session, p: Packet)
    requires Keyed(c)
    ensures Enqueues(c, Process(c, p), if RefillFails(c, p) then [] else AnswersTo(p, c.config.manualAck))
  {
    hide Enqueues, Process, Refill;
    if p.Publish? {
      PublishAnswered(c, p);
    } else if p.Pubrel? {
      PubrelAnswered(c, p.mid);
    } else if p.Pubrec? {
      PubrecAnswered(c, p.mid);
    } else if p.Puback? || p.Pubcomp? {
      CompletionAnswered(c, p);
    } else if p.Connack? {
      ConnackAnswered(c);
    } else {
      ConnectAnswered(c, p.clean);
    }
  }

  // ---------- the whole run ----------

  lemma {:induction false} RunAgrees(s: System, steps: seq<Step>, marks: seq<Mark>, mid: nat)
    requires Keyed(s.client) && Agrees(s.client, marks, mid)
    ensures Agrees(Run(s, steps).client, marks + History(s, steps, mid), mid)
    decreases |steps|
  {
    hide Agrees, Process;
    if steps == [] {
      assert marks + History(s, steps, mid) == marks;
    } else {
      var s1, now := Next(s, steps[0]), StepMarks(s, steps[0], mid);
      StepAgrees(s, steps[0], marks, mid);
      RunAgrees(s1, steps[1..], marks + now, mid);
      assert marks + now + History(s1, steps[1..], mid) == marks + History(s, steps, mid);
    }
  }

  lemma StepAgrees(s: System, step: Step, marks: seq<Mark>, mid: nat)
    requires Keyed(s.client) && Agrees(s.client, marks, mid)
    ensures Agrees(Next(s, step).client, marks + StepMarks(s, step, mid), mid)
  {
    hide Agrees, Process;
    if step.ClientReceive? && s.client.link.Up? && s.toClient != [] {
      ProcessAgrees(s.client, s.toClient[0], marks, mid);
    } else if step.Reopen? && step.clean {
      ForgetAgrees(s.client, step.link, marks, mid);
    } else {
      assert marks + [] == marks;
      SameAgrees(s, step, marks, mid);
    }
  }

  lemma ForgetAgrees(c: Session, link: Link, marks: seq<Mark>, mid: nat)
    requires Agrees(c, marks, mid)
    ensures Agrees(Reconnect(c, true, link), marks + [Forgotten], mid)
  {
    hide Reconnect, Handshakes;
    ReopenForgets(c, link);
    HandshakesMore(marks, Forgotten);
  }

  lemma SameAgrees(s: System, step: Step, marks: seq<Mark>, mid: nat)
    requires Keyed(s.client) && Agrees(s.client, marks, mid)
    requires !(step.ClientReceive? && s.client.link.Up? && s.toClient != []) && !(step.Reopen? && step.clean)
    ensures Agrees(Next(s, step).client, marks, mid)
  {
    if !step.ClientReceive? {
      hide Next;
      OtherStepSame(s, step);
    }
  }

  /** In every run, whatever the broker sends, however often the connection is lost and whether a
      reconnection keeps the session or starts a clean one, the application gets one message for
      each handshake that was opened and released within one session, in the order of the
      releases; and the table holds QoS 2 messages only, under their own identifiers, so that no
      reset removes an entry while iterating. */
  lemma OncePerHandshake(config: Config, early: bool, steps: seq<Step>, mid: nat)
    ensures var s0 := Initial(config, early);
      && DeliveredFor(Run(s0, steps).client.delivered, mid) == Handshakes(History(s0, steps, mid))
      && InboxOk(Run(s0, steps).client)
  {
    var s0 := Initial(config, early);
    RunAgrees(s0, steps, [], mid);
    assert [] + History(s0, steps, mid) == History(s0, steps, mid);
  }
}
