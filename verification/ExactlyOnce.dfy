/** Exactly-once hand-over of QoS 2 messages, end to end (section 4.3.3 of MQTT 3.1.1). */
module ExactlyOnce {
  import opened QosSession
  import opened Network
  import opened Wire
  import opened Conservation

  /** How often the broker has handed a message onward. */
  function Handed(b: Broker, body: nat): nat {
    multiset(b.onward)[body]
  }

  /** How often the broker must have handed on a QoS 2 message of the table. */
  function Due(b: Broker, k: nat, m: Msg): nat {
    if k in b.store then (if b.early then 1 else 0) else (if Received(m) then 1 else 0)
  }

  ghost predicate Counts(table: map<nat, Msg>, b: Broker) {
    forall k :: k in table && table[k].qos == 2 ==> Handed(b, table[k].body) == Due(b, k, table[k])
  }

  ghost predicate Stored(table: map<nat, Msg>, b: Broker) {
    forall k :: k in b.store ==> k in table && table[k].qos == 2 && b.store[k] == table[k].body
  }

  ghost predicate Finished(completed: seq<Msg>, b: Broker) {
    forall m :: m in completed ==>
      1 <= m.qos <= 2 && (m.qos == 2 ==> Handed(b, m.body) == 1) && (m.qos == 1 ==> Handed(b, m.body) >= 1)
  }

  /** What the broker has done agrees with what the client believes. */
  ghost predicate Account(c: Session, b: Broker) {
    && (forall x :: x in b.onward ==> x < c.accepted)
    && Stored(c.table, b)
    && Counts(c.table, b)
    && Finished(c.completed, b)
  }

  /** An acknowledgement under way tells the truth about the broker. */
  ghost predicate Truthful(c: Session, b: Broker, acks: seq<Packet>) {
    && (forall p :: p in acks && p.Puback? && p.mid in c.table ==> Handed(b, c.table[p.mid].body) >= 1)
    && (forall p :: p in acks && p.Pubrec? ==> p.mid in b.store)
    && (forall p :: p in acks && p.Pubcomp? ==> p.mid !in b.store)
  }

  ghost predicate Consistent(s: System) {
    && Ok(s) && Partition(s.client)
    && Account(s.client, s.broker)
    && Truthful(s.client, s.broker, s.toClient)
    && CleanStart(s.client, s.broker)
  }

  /** The broker has not begun with any message of a session that is about to start clean. */
  ghost predicate CleanStart(c: Session, b: Broker) {
    Connect(true) in c.outPacket ==>
      forall k :: k in c.table && c.table[k].qos == 2 ==> Handed(b, c.table[k].body) == 0 && !Received(c.table[k])
  }

  /** A reset forgets what the broker has done about message `k`. Starting a clean session does so
      when the message was handed onward; keeping the session does so when the message waits to
      resend its PUBREL while the broker, done with it, no longer knows its identifier. */
  ghost predicate Loses(s: System, clean: bool, k: nat) {
    k in s.client.table && s.client.table[k].qos == 2 &&
    if clean then Handed(s.broker, s.client.table[k].body) >= 1
    else s.client.table[k].state.ResendPubrel? && k !in s.broker.store
  }

  ghost predicate Forgets(s: System, step: Step) {
    step.Reopen? && exists k :: Loses(s, step.clean, k)
  }

  // ---------- the client's moves ----------

  lemma SameAccount(c: Session, c1: Session, b: Broker, acks: seq<Packet>)
    requires Account(c, b) && Truthful(c, b, acks) && SameStage(c, c1)
    ensures Account(c1, b) && Truthful(c1, b, acks)
  {
  }

  lemma AcceptAccount(c: Session, b: Broker, acks: seq<Packet>, mid: nat, qos: nat, state: MessageState)
    requires Account(c, b) && Truthful(c, b, acks) && mid !in c.table && AckCount(acks, mid) == 0
    requires state.Queued? || state.ReadyToPublish?
    ensures Account(Accept(c, mid, qos, state), b) && Truthful(Accept(c, mid, qos, state), b, acks)
  {
    assert c.accepted !in b.onward;
    AckCounts(acks, mid);
  }

  lemma Renumbered(c: Session, b: Broker, acks: seq<Packet>, mid: nat)
    requires Account(c, b) && Truthful(c, b, acks)
    ensures Account(c.(lastMid := mid), b) && Truthful(c.(lastMid := mid), b, acks)
  {
  }

  lemma SubmitAccount(c: Session, b: Broker, acks: seq<Packet>, qos: nat)
    requires Account(c, b) && Truthful(c, b, acks) && 1 <= qos <= 2
    requires var mid := NextMid(c.lastMid); mid in c.table || AckCount(acks, mid) == 0
    ensures Account(PublishMessage(c, qos).0, b) && Truthful(PublishMessage(c, qos).0, b, acks)
  {
    hide Start, Account, Truthful;
    var mid := NextMid(c.lastMid);
    var c1 := c.(lastMid := mid);
    Renumbered(c, b, acks, mid);
    if mid !in c.table {
      AcceptAccount(c1, b, acks, mid, qos, Queued);
      AcceptAccount(c1, b, acks, mid, qos, ReadyToPublish);
      var c2 := Accept(c1, mid, qos, Queued);
      Same(c2);
      StartSame(c2, c2, mid, false);
      SameAccount(c2, Start(c2, mid, false).0, b, acks);
    }
  }

  lemma CompleteAccount(c: Session, b: Broker, acks: seq<Packet>, mid: nat)
    requires Wired(c, acks) && Account(c, b) && Truthful(c, b, acks) && mid in c.table && mid !in b.store
    requires c.table[mid].qos == 2 ==> Received(c.table[mid])
    requires c.table[mid].qos == 1 ==> Handed(b, c.table[mid].body) >= 1
    ensures Account(Complete(c, mid), b) && Truthful(Complete(c, mid), b, acks)
  {
    var c1 := Complete(c, mid);
    assert StateFits(c.table[mid]);
    forall m | m in c1.completed ensures m in c.completed || m == c.table[mid] {
    }
  }

  /** While the broker holds a message, its stage at the client does not matter. */
  lemma HeldAccount(c: Session, c1: Session, b: Broker, acks: seq<Packet>, mid: nat)
    requires Account(c, b) && Truthful(c, b, acks) && mid in b.store && SameMessages(c, c1)
    requires forall k :: k in c.table && k != mid ==> Received(c1.table[k]) == Received(c.table[k])
    ensures Account(c1, b) && Truthful(c1, b, acks)
  {
  }

  lemma PubrecChanges(c: Session, mid: nat)
    requires Keyed(c)
    ensures var c1 := Process(c, Pubrec(mid));
      SameMessages(c, c1) && (forall k :: k in c.table && k != mid ==> c1.table[k] == c.table[k])
  {
  }

  lemma ProcessAccount(c: Session, b: Broker, acks: seq<Packet>)
    requires Wired(c, acks) && acks != [] && Account(c, b) && Truthful(c, b, acks)
    ensures Account(Process(c, acks[0]), b) && Truthful(Process(c, acks[0]), b, acks[1..])
  {
    hide Process, Wired, Account;
    var p := acks[0];
    TruthfulTail(c, b, acks);
    HeadOfAcks(c, acks);
    WiredKeyed(c, acks);
    if Completes(c, p) {
      CompletesTruly(c, b, acks);
      CompleteAccount(c, b, acks[1..], p.mid);
      CompletesThenSame(c, p);
      SameAccount(Complete(c, p.mid), Process(c, p), b, acks[1..]);
    } else if p.Pubrec? {
      PubrecChanges(c, p.mid);
      HeldAccount(c, Process(c, p), b, acks[1..], p.mid);
    } else {
      OthersSame(c, p);
      SameAccount(c, Process(c, p), b, acks[1..]);
    }
  }

  lemma TruthfulTail(c: Session, b: Broker, acks: seq<Packet>)
    requires Truthful(c, b, acks) && acks != []
    ensures Truthful(c, b, acks[1..])
  {
  }

  lemma CompletesTruly(c: Session, b: Broker, acks: seq<Packet>)
    requires Wired(c, acks) && acks != [] && Account(c, b) && Truthful(c, b, acks) && Completes(c, acks[0])
    ensures var mid := acks[0].mid;
      && mid !in b.store
      && (c.table[mid].qos == 2 ==> Received(c.table[mid]))
      && (c.table[mid].qos == 1 ==> Handed(b, c.table[mid].body) >= 1)
  {
    hide Sorted, Single, SendsFit, Counts, Finished;
    assert AckFits(c.table, acks[0]) && StateFits(c.table[acks[0].mid]);
  }

  // ---------- the broker's moves ----------

  lemma HandOn(b: Broker, body: nat, x: nat)
    ensures Handed(b.(onward := b.onward + [body]), x) == Handed(b, x) + if x == body then 1 else 0
  {
  }

  ghost predicate Apart(c: Session) {
    forall k, m :: k in c.table && m in c.completed ==> c.table[k].body != m.body
  }

  lemma PartitionApart(c: Session)
    requires Partition(c)
    ensures Apart(c)
  {
    forall k, m | k in c.table && m in c.completed ensures c.table[k].body != m.body {
      assert InTable(c, c.table[k].body);
      var i :| 0 <= i < |c.completed| && c.completed[i] == m;
      assert InCompleted(c.completed, m.body);
    }
  }

  /** The broker's store and list differ at most about message `k` of the table. */
  ghost predicate Moves(table: map<nat, Msg>, b: Broker, b1: Broker, k: nat)
    requires k in table
  {
    && b1.early == b.early
    && (b1.onward == b.onward || b1.onward == b.onward + [table[k].body])
    && (forall l :: l != k ==> (l in b1.store <==> l in b.store) && (l in b.store ==> b1.store[l] == b.store[l]))
    && (k in b1.store ==> table[k].qos == 2 && b1.store[k] == table[k].body)
    && (table[k].qos == 2 ==> Handed(b1, table[k].body) == Due(b1, k, table[k]))
  }

  lemma MoveHands(table: map<nat, Msg>, b: Broker, b1: Broker, k: nat, x: nat)
    requires k in table && Moves(table, b, b1, k)
    ensures Handed(b, x) <= Handed(b1, x)
    ensures x != table[k].body ==> Handed(b1, x) == Handed(b, x)
  {
    HandOn(b, table[k].body, x);
  }

  lemma MoveCounts(table: map<nat, Msg>, accepted: nat, b: Broker, b1: Broker, k: nat)
    requires Rows(table, accepted) && k in table && Moves(table, b, b1, k) && Counts(table, b)
    ensures Counts(table, b1)
  {
    forall l | l in table && table[l].qos == 2 ensures Handed(b1, table[l].body) == Due(b1, l, table[l]) {
      MoveHands(table, b, b1, k, table[l].body);
    }
  }

  lemma MoveFinished(c: Session, b: Broker, b1: Broker, k: nat)
    requires Apart(c) && k in c.table && Moves(c.table, b, b1, k) && Finished(c.completed, b)
    ensures Finished(c.completed, b1)
  {
    forall m | m in c.completed ensures Handed(b1, m.body) == Handed(b, m.body) {
      MoveHands(c.table, b, b1, k, m.body);
    }
  }

  lemma MoveStored(c: Session, b: Broker, b1: Broker, k: nat)
    requires Rows(c.table, c.accepted) && k in c.table && Moves(c.table, b, b1, k)
    requires Stored(c.table, b) && forall x :: x in b.onward ==> x < c.accepted
    ensures Stored(c.table, b1) && forall x :: x in b1.onward ==> x < c.accepted
  {
  }

  /** A move of the broker that concerns one message of the table only. */
  lemma MoveOne(c: Session, b: Broker, b1: Broker, k: nat)
    requires Rows(c.table, c.accepted) && Apart(c) && Account(c, b) && k in c.table && Moves(c.table, b, b1, k)
    ensures Account(c, b1)
    ensures forall l :: l in c.table ==> Handed(b, c.table[l].body) <= Handed(b1, c.table[l].body)
  {
    hide Rows, Apart, Moves, Counts, Finished, Stored, Handed;
    MoveStored(c, b, b1, k);
    MoveCounts(c.table, c.accepted, b, b1, k);
    MoveFinished(c, b, b1, k);
    forall l | l in c.table ensures Handed(b, c.table[l].body) <= Handed(b1, c.table[l].body) {
      MoveHands(c.table, b, b1, k, c.table[l].body);
    }
  }

  /** A move about one identifier leaves the acknowledgements of the others true. */
  lemma StillTruthful(c: Session, b: Broker, b1: Broker, acks: seq<Packet>, mid: nat, reply: Packet)
    requires Truthful(c, b, acks) && AckCount(acks, mid) == 0
    requires forall l :: l in c.table ==> Handed(b, c.table[l].body) <= Handed(b1, c.table[l].body)
    requires forall l :: l != mid ==> (l in b1.store <==> l in b.store)
    requires Truthful(c, b1, [reply])
    ensures Truthful(c, b1, acks + [reply])
  {
    AckCounts(acks, mid);
    forall p | p in acks && IsAck(p) ensures p.mid != mid {
    }
    assert reply in [reply];
  }

  lemma Qos1Moves(c: Session, b: Broker, p: Packet)
    requires Stored(c.table, b) && Counts(c.table, b) && p.Publish? && p.qos == 1 && SendFits(c.table, p)
    ensures Moves(c.table, b, Receive(b, p).0, p.mid)
  {
    HandOn(b, c.table[p.mid].body, c.table[p.mid].body);
  }

  lemma Qos2Moves(c: Session, b: Broker, p: Packet)
    requires Stored(c.table, b) && Counts(c.table, b) && p.Publish? && p.qos == 2 && SendFits(c.table, p)
    ensures Moves(c.table, b, Receive(b, p).0, p.mid)
  {
    HandOn(b, c.table[p.mid].body, c.table[p.mid].body);
  }

  lemma PubrelMoves(c: Session, b: Broker, p: Packet)
    requires Stored(c.table, b) && Counts(c.table, b) && p.Pubrel? && SendFits(c.table, p) && StateFits(c.table[p.mid])
    ensures Moves(c.table, b, Receive(b, p).0, p.mid)
  {
    HandOn(b, c.table[p.mid].body, c.table[p.mid].body);
  }

  /** A packet that carries a message forward keeps the accounts, and the reply is true. */
  lemma ReceiveSend(c: Session, b: Broker, acks: seq<Packet>, p: Packet)
    requires Rows(c.table, c.accepted) && Apart(c) && Account(c, b) && Truthful(c, b, acks)
    requires IsSend(p) && SendFits(c.table, p) && StateFits(c.table[p.mid]) && AckCount(acks, p.mid) == 0
    ensures Account(c, Receive(b, p).0) && Truthful(c, Receive(b, p).0, acks + Receive(b, p).1)
  {
    hide Rows, Apart, Counts, Finished, Moves;
    if p.Pubrel? {
      PubrelMoves(c, b, p);
    } else if p.qos == 1 {
      Qos1Moves(c, b, p);
    } else {
      Qos2Moves(c, b, p);
    }
    MoveOne(c, b, Receive(b, p).0, p.mid);
    ReplyTrue(c, b, acks, p);
  }

  lemma ReplyTrue(c: Session, b: Broker, acks: seq<Packet>, p: Packet)
    requires Truthful(c, b, acks) && IsSend(p) && SendFits(c.table, p) && StateFits(c.table[p.mid])
    requires AckCount(acks, p.mid) == 0
    requires forall l :: l in c.table ==> Handed(b, c.table[l].body) <= Handed(Receive(b, p).0, c.table[l].body)
    ensures Truthful(c, Receive(b, p).0, acks + Receive(b, p).1)
  {
    hide Truthful;
    ReplyAlone(c, b, p);
    StillTruthful(c, b, Receive(b, p).0, acks, p.mid, Receive(b, p).1[0]);
    assert Receive(b, p).1 == [Receive(b, p).1[0]];
  }

  lemma ReplyAlone(c: Session, b: Broker, p: Packet)
    requires IsSend(p) && SendFits(c.table, p) && StateFits(c.table[p.mid])
    ensures var replies := Receive(b, p).1;
      |replies| == 1 && Truthful(c, Receive(b, p).0, [replies[0]])
  {
    if p.Publish? && p.qos == 1 {
      HandOn(b, p.body, p.body);
    }
  }

  lemma BrokerReceiveConsistent(s: System)
    requires Consistent(s) && s.client.outPacket != [] && IsSend(s.client.outPacket[0])
    ensures var (b1, replies) := Receive(s.broker, s.client.outPacket[0]);
      Account(s.client, b1) && Truthful(s.client, b1, s.toClient + replies)
  {
    hide Account, Truthful, Partition, Sorted, ConnectionOk, Receive;
    var p := s.client.outPacket[0];
    assert Load(s.client.outPacket, s.toClient, p.mid) <= 1;
    PartitionApart(s.client);
    assert SendFits(s.client.table, p) && StateFits(s.client.table[p.mid]);
    ReceiveSend(s.client, s.broker, s.toClient, p);
  }

  lemma ResetStage(m: Msg)
    requires StateFits(m)
    ensures var r := ResetMsg(m, false);
      r.body == m.body && r.qos == m.qos && (Received(r) == Received(m) || m.state.ResendPubrel?)
  {
  }

  lemma ResetCounts(table: map<nat, Msg>, t: map<nat, Msg>, b: Broker)
    requires Counts(table, b) && Stored(table, b) && t.Keys == table.Keys
    requires forall k :: k in table ==> StateFits(table[k]) && t[k] == ResetMsg(table[k], false)
    requires forall k :: k in table && table[k].qos == 2 && table[k].state.ResendPubrel? ==> k in b.store
    ensures Counts(t, b) && Stored(t, b)
  {
    hide ResetMsg;
    forall k | k in table
      ensures t[k].body == table[k].body && t[k].qos == table[k].qos && Due(b, k, t[k]) == Due(b, k, table[k])
    {
      ResetStage(table[k]);
    }
  }

  /** A clean session starts over with messages of which none was handed onward. */
  lemma CleanCounts(table: map<nat, Msg>, t: map<nat, Msg>, b: Broker)
    requires Counts(table, b) && Stored(table, b) && t.Keys == table.Keys
    requires forall k :: k in table ==> StateFits(table[k]) && t[k] == ResetMsg(table[k], true)
    requires forall k :: k in table && table[k].qos == 2 ==> Handed(b, table[k].body) == 0
    ensures Counts(t, b) && Stored(t, b)
    ensures forall k :: k in t && t[k].qos == 2 ==> Handed(b, t[k].body) == 0 && !Received(t[k])
  {
  }

  /** The table after a reset that does not forget. */
  lemma ReopenCounts(s: System, clean: bool, link: Link)
    requires Account(s.client, s.broker) && Rows(s.client.table, s.client.accepted) && !Forgets(s, Reopen(clean, link))
    ensures var t := Reconnect(s.client, clean, link).table;
      && Counts(t, s.broker) && Stored(t, s.broker)
      && (clean ==> forall k :: k in t && t[k].qos == 2 ==> Handed(s.broker, t[k].body) == 0 && !Received(t[k]))
  {
    hide Finished, Reconnect, Counts, Stored, ResetMsg, Rows, Handed, Forgets, StateFits, Received;
    var c, b, t := s.client, s.broker, Reconnect(s.client, clean, link).table;
    ReopenTable(c, clean, link);
    NothingForgotten(s, clean, link);
    RowsFit(c);
    if clean {
      CleanCounts(c.table, t, b);
    } else {
      ResetCounts(c.table, t, b);
    }
  }

  /** Losing the connection changes none of the accounts. */
  lemma OfflineAccount(c: Session, b: Broker)
    requires Account(c, b)
    ensures Account(c, b.(connected := false))
    ensures forall body :: Handed(b.(connected := false), body) == Handed(b, body)
  {
    hide Finished, Counts, Handed;
    SameKnowledge(c, b, b.(connected := false));
    HandedFrame(b, b.(connected := false));
  }

  lemma ReopenAccount(s: System, clean: bool, link: Link)
    requires Account(s.client, s.broker) && Rows(s.client.table, s.client.accepted) && !Forgets(s, Reopen(clean, link))
    ensures Account(Reconnect(s.client, clean, link), s.broker.(connected := false))
    ensures CleanStart(Reconnect(s.client, clean, link), s.broker.(connected := false))
  {
    hide Finished, Reconnect, Counts, Stored, Rows, Handed, Forgets, Received;
    ReopenCounts(s, clean, link);
    ReopenTable(s.client, clean, link);
    OfflineAccount(Reconnect(s.client, clean, link), s.broker);
    hide Account;
  }

  lemma NothingForgotten(s: System, clean: bool, link: Link)
    requires !Forgets(s, Reopen(clean, link))
    ensures forall k :: k in s.client.table && s.client.table[k].qos == 2 ==>
      if clean then Handed(s.broker, s.client.table[k].body) == 0
      else s.client.table[k].state.ResendPubrel? ==> k in s.broker.store
  {
    forall k | k in s.client.table && s.client.table[k].qos == 2 ensures !Loses(s, clean, k) {
    }
  }

  lemma RowsFit(c: Session)
    requires Rows(c.table, c.accepted)
    ensures forall k :: k in c.table ==> StateFits(c.table[k])
  {
  }

  lemma HandedFrame(b: Broker, b1: Broker)
    requires b1.onward == b.onward
    ensures forall x :: Handed(b1, x) == Handed(b, x)
  {
  }

  lemma FinishedFrame(completed: seq<Msg>, b: Broker, b1: Broker)
    requires Finished(completed, b) && b1.onward == b.onward
    ensures Finished(completed, b1)
  {
  }

  lemma ReopenTable(c: Session, clean: bool, link: Link)
    ensures var r := Reconnect(c, clean, link);
      && r.table.Keys == c.table.Keys && (forall k :: k in c.table ==> r.table[k] == ResetMsg(c.table[k], clean))
      && r.completed == c.completed && r.accepted == c.accepted
      && (Connect(true) in r.outPacket ==> clean)
  {
  }

  // ---------- the theorem ----------

  lemma SubmitConsistent(s: System, qos: nat)
    requires Consistent(s) && 1 <= qos <= 2
    ensures var c1 := PublishMessage(s.client, qos).0; Account(c1, s.broker) && Truthful(c1, s.broker, s.toClient)
  {
    hide Account, Truthful, Partition, PublishMessage, Sorted, Rows, Single, ConnectionOk;
    if NextMid(s.client.lastMid) !in s.client.table {
      NoLoad(s.client.table, s.client.outPacket, s.toClient, NextMid(s.client.lastMid));
    }
    SubmitAccount(s.client, s.broker, s.toClient, qos);
  }

  lemma NextAccount(s: System, step: Step)
    requires Consistent(s) && !Forgets(s, step)
    ensures var s1 := Next(s, step); Account(s1.client, s1.broker) && Truthful(s1.client, s1.broker, s1.toClient)
  {
    hide Process, PublishMessage, Reconnect, Receive, Partition, Sorted, Single, SendsFit, AcksFit, Counts, Finished;
    hide CleanStart, Forgets;
    match step
    case Submit(qos) =>
      if qos == 1 || qos == 2 {
        SubmitConsistent(s, qos);
      }
    case ClientReceive =>
      if s.client.link.Up? && s.toClient != [] {
        ProcessAccount(s.client, s.broker, s.toClient);
      }
    case BrokerReceive =>
      if s.client.outPacket != [] && (s.broker.connected || s.client.outPacket[0].Connect?) {
        if IsSend(s.client.outPacket[0]) {
          BrokerReceiveConsistent(s);
        } else {
          OtherReceiveConsistent(s);
        }
      }
    case SubmitPlain(_) => AsideStep(s, step);
    case Ack(_, _) => AsideStep(s, step);
    case OtherMid => AsideStep(s, step);
    case Reopen(clean, link) => ReopenAccount(s, clean, link);
    case BrokerSend(_) =>
    case Grant(_) =>
    case Drop =>
  }

  lemma OtherReceive(b: Broker, p: Packet)
    requires !IsSend(p)
    ensures Receive(b, p).0 == b.(connected := b.connected || p.Connect?,
                                  store := if p == Connect(true) then map[] else b.store)
    ensures Receive(b, p).1 == if p.Connect? then [Connack] else []
  {
  }

  lemma OtherReceiveConsistent(s: System)
    requires Consistent(s) && s.client.outPacket != [] && !IsSend(s.client.outPacket[0])
    requires s.broker.connected || s.client.outPacket[0].Connect?
    ensures var (b1, replies) := Receive(s.broker, s.client.outPacket[0]);
      Account(s.client, b1) && Truthful(s.client, b1, s.toClient + replies)
  {
    var p, b1 := s.client.outPacket[0], Receive(s.broker, s.client.outPacket[0]).0;
    OtherReceive(s.broker, p);
    if p == Connect(true) {
      assert p in s.client.outPacket;
      StartsClean(s);
      hide Receive, Partition, Ok, Account, Truthful;
      EmptiedAccount(s.client, s.broker, b1);
    } else {
      hide Receive, Partition, Ok, Account, CleanStart;
      SameKnowledge(s.client, s.broker, b1);
      KnowsNoMore(s.client, s.broker, b1, s.toClient, Receive(s.broker, p).1);
    }
  }

  /** A clean session of which the broker has nothing begins with an empty store. */
  lemma EmptiedAccount(c: Session, b: Broker, b1: Broker)
    requires Account(c, b) && CleanStart(c, b) && Connect(true) in c.outPacket
    requires b1 == b.(connected := true, store := map[])
    ensures Account(c, b1) && Truthful(c, b1, [] + [Connack])
  {
    HandedFrame(b, b1);
    hide Handed;
    FinishedFrame(c.completed, b, b1);
    hide Finished;
  }

  lemma SameKnowledge(c: Session, b: Broker, b1: Broker)
    requires Account(c, b) && b1 == b.(connected := b1.connected)
    ensures Account(c, b1)
  {
    hide Counts, Finished;
    FinishedFrame(c.completed, b, b1);
    CountsFrame(c.table, b, b1);
  }

  lemma KnowsNoMore(c: Session, b: Broker, b1: Broker, acks: seq<Packet>, more: seq<Packet>)
    requires Truthful(c, b, acks) && b1 == b.(connected := b1.connected)
    requires more == [] || more == [Connack]
    ensures Truthful(c, b1, acks + more)
  {
    HandedFrame(b, b1);
    hide Handed;
  }

  lemma AsideStep(s: System, step: Step)
    requires Consistent(s) && IsAside(step)
    ensures var s1 := Next(s, step); Account(s1.client, s1.broker) && Truthful(s1.client, s1.broker, s1.toClient)
  {
    OkKeyed(s);
    hide Next, Aside, Account, Truthful;
    StepAside(s, step);
    AsideAccount(s, Next(s, step).client);
  }

  lemma AsideAccount(s: System, c1: Session)
    requires Account(s.client, s.broker) && Truthful(s.client, s.broker, s.toClient) && Aside(s.client, c1)
    ensures Account(c1, s.broker) && Truthful(c1, s.broker, s.toClient)
  {
    hide Counts, Finished, Stored;
  }

  // ---------- a clean start ----------

  lemma StartsClean(s: System)
    requires Ok(s) && Connect(true) in s.client.outPacket
    ensures !s.broker.connected && s.toClient == [] && s.client.outPacket[0] == Connect(true)
    ensures Connect(true) !in s.client.outPacket[1..]
  {
    var i :| 0 <= i < |s.client.outPacket| && s.client.outPacket[i] == Connect(true);
  }

  lemma GrownConnect(c: Session, c1: Session)
    requires Grown(c, c1)
    ensures Connect(true) in c1.outPacket ==> Connect(true) in c.outPacket
  {
    if Connect(true) in c1.outPacket {
      var i :| 0 <= i < |c1.outPacket| && c1.outPacket[i] == Connect(true);
      assert c.outPacket[i] == c1.outPacket[i];
    }
  }

  lemma SubmitTable(c: Session, qos: nat)
    ensures var c1 := PublishMessage(c, qos).0;
      forall k :: k in c1.table && (k !in c.table || c1.table[k] != c.table[k]) ==>
        c1.table[k].body == c.accepted && !Received(c1.table[k])
  {
    var mid := NextMid(c.lastMid);
    var c2 := Accept(c.(lastMid := mid), mid, qos, Queued);
    StartsOne(c2, mid);
    hide Start;
  }

  lemma StartsOne(c: Session, mid: nat)
    requires mid in c.table
    ensures var t := Start(c, mid, false).0.table;
      t == c.table[mid := t[mid]] && t[mid].body == c.table[mid].body && !Received(t[mid])
  {
  }

  lemma NextCleanStart(s: System, step: Step)
    requires Consistent(s) && !Forgets(s, step)
    ensures CleanStart(Next(s, step).client, Next(s, step).broker)
  {
    hide Process, PublishMessage, Reconnect, Receive, Partition, Wired, Counts, Finished, Stored, Grown;
    if Connect(true) in s.client.outPacket {
      StartsClean(s);
    }
    match step
    case Submit(qos) => SubmitStarts(s, qos);
    case ClientReceive =>
      if s.client.link.Up? && s.toClient != [] {
        OkKeyed(s);
        ProcessGrows(s.client, s.toClient[0]);
        GrownConnect(s.client, Process(s.client, s.toClient[0]));
      }
    case BrokerReceive => BrokerStarts(s);
    case SubmitPlain(_) => AsideStarts(s, step);
    case Ack(_, _) => AsideStarts(s, step);
    case Reopen(clean, link) => ReopenStarts(s, clean, link);
    case OtherMid => AsideStarts(s, step);
    case BrokerSend(_) =>
    case Grant(_) =>
    case Drop =>
  }

  lemma SubmitStarts(s: System, qos: nat)
    requires Account(s.client, s.broker) && CleanStart(s.client, s.broker)
    ensures CleanStart(PublishMessage(s.client, qos).0, s.broker)
  {
    hide PublishMessage, Counts, Finished, Stored, Grown;
    PublishGrows(s.client, qos);
    GrownConnect(s.client, PublishMessage(s.client, qos).0);
    SubmitTable(s.client, qos);
    assert s.client.accepted !in s.broker.onward;
  }

  lemma OkKeyed(s: System)
    requires Ok(s)
    ensures Keyed(s.client)
  {
  }

  lemma AsideStarts(s: System, step: Step)
    requires Consistent(s) && IsAside(step)
    ensures CleanStart(Next(s, step).client, Next(s, step).broker)
  {
    OkKeyed(s);
    hide Next, Grown, Ok, Partition, Account, Truthful;
    StepAside(s, step);
    AsideGrown(s.client, Next(s, step).client);
    GrownConnect(s.client, Next(s, step).client);
  }

  lemma BrokerStarts(s: System)
    requires Consistent(s)
    ensures CleanStart(Next(s, BrokerReceive).client, Next(s, BrokerReceive).broker)
  {
    hide Receive, Partition, Wired, Account, Truthful;
    if s.client.outPacket != [] {
      var tail := s.client.outPacket[1..];
      assert forall i :: 0 <= i < |tail| ==> !tail[i].Connect?;
    }
  }

  lemma ReopenStarts(s: System, clean: bool, link: Link)
    requires Consistent(s) && !Forgets(s, Reopen(clean, link))
    ensures CleanStart(Next(s, Reopen(clean, link)).client, Next(s, Reopen(clean, link)).broker)
  {
    hide Reconnect, Partition, Account, Truthful, CleanStart, Forgets, ConnectionOk, Sorted, SendsFit, AcksFit, Single;
    ReopenAccount(s, clean, link);
  }

  lemma CountsFrame(table: map<nat, Msg>, b: Broker, b1: Broker)
    requires Counts(table, b) && b1.onward == b.onward && b1.store == b.store && b1.early == b.early
    ensures Counts(table, b1)
  {
  }

  lemma NextConsistent(s: System, step: Step)
    requires Consistent(s) && !Forgets(s, step) && WithinLimit(s.client)
    ensures Consistent(Next(s, step))
  {
    NextCleanStart(s, step);
    hide Ok, Partition, Account, Truthful, CleanStart, Next, Forgets, WithinLimit;
    NextKeeps(s, step);
    NextConserves(s, step);
    NextAccount(s, step);
  }

  /** No reset of the run forgets what the broker has done. */
  ghost predicate NeverForgets(s: System, steps: seq<Step>)
    requires Keyed(s.client)
    decreases |steps|
  {
    steps == [] || (!Forgets(s, steps[0]) && NeverForgets(Next(s, steps[0]), steps[1..]))
  }

  lemma {:induction false} RunConsistent(s: System, steps: seq<Step>)
    requires Consistent(s) && WithinLimit(s.client) && NeverForgets(s, steps)
    ensures Consistent(Run(s, steps)) && WithinLimit(Run(s, steps).client)
    decreases |steps|
  {
    if steps != [] {
      NextConsistent(s, steps[0]);
      NextConserves(s, steps[0]);
      RunConsistent(Next(s, steps[0]), steps[1..]);
    }
  }

  /** No accepted QoS 2 message was handed onward twice, and those that an acknowledgement
      has removed were handed onward exactly once; a completed QoS 1 message at least once. */
  ghost predicate HandedRight(s: System) {
    && (forall k :: k in s.client.table && s.client.table[k].qos == 2 ==> Handed(s.broker, s.client.table[k].body) <= 1)
    && (forall m :: m in s.client.completed && m.qos == 2 ==> Handed(s.broker, m.body) == 1)
    && (forall m :: m in s.client.completed && m.qos != 2 ==> Handed(s.broker, m.body) >= 1)
  }

  /** In every run in which no reset forgets what the broker has done, with clean sessions and kept
      ones, the QoS 2 messages are handed onward exactly once. */
  lemma ExactlyOnceHandover(config: Config, early: bool, steps: seq<Step>)
    requires NeverForgets(Initial(config, early), steps)
    ensures HandedRight(Run(Initial(config, early), steps))
  {
    InitialOk(config, early);
    RunConsistent(Initial(config, early), steps);
  }
}
