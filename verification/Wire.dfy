/** What every step of the system keeps, whatever the network does: the table is well formed
    and in order of acceptance, and every packet under way for an outgoing message is the only
    one for its identifier and fits the state its message is in. */
module Wire {
  import opened QosSession
  import opened Network
  import Loops

  predicate StateFits(m: Msg) {
    && 1 <= m.qos <= 2
    && (m.qos == 1 ==> m.state.ReadyToPublish? || m.state.WaitForPuback? || m.state.Queued?)
    && (m.qos == 2 ==> !m.state.WaitForPuback?)
  }

  /** Keys and order agree, and messages stand in the order in which they were accepted. */
  ghost predicate Sorted(order: seq<nat>, table: map<nat, Msg>) {
    && (forall k :: k in order <==> k in table)
    && (forall i, j :: 0 <= i < j < |order| ==> table[order[i]].body < table[order[j]].body)
  }

  ghost predicate Rows(table: map<nat, Msg>, accepted: nat) {
    && (forall k :: k in table ==> 1 <= k < 65536 && StateFits(table[k]) && table[k].body < accepted)
    && (forall k, l :: k in table && l in table && k != l ==> table[k].body != table[l].body)
  }

  // ---------- packets under way ----------

  /** A packet from the client that carries an outgoing message forward. */
  predicate IsSend(p: Packet) {
    (p.Publish? && p.qos > 0) || p.Pubrel?
  }

  /** A packet to the client that acknowledges an outgoing message. */
  predicate IsAck(p: Packet) {
    p.Puback? || p.Pubrec? || p.Pubcomp?
  }

  predicate SendFits(table: map<nat, Msg>, p: Packet)
    requires IsSend(p)
  {
    p.mid in table &&
    var m := table[p.mid];
    match p
    case Publish(_, qos, _, body) => body == m.body && qos == m.qos && m.state == FirstState(m.qos)
    case Pubrel(_) => m.state.WaitForPubcomp?
  }

  predicate AckFits(table: map<nat, Msg>, p: Packet)
    requires IsAck(p)
  {
    p.mid in table &&
    var m := table[p.mid];
    match p
    case Puback(_) => m.state.WaitForPuback?
    case Pubrec(_) => m.state.WaitForPubrec?
    case Pubcomp(_) => m.state.WaitForPubcomp?
  }

  ghost predicate SendsFit(table: map<nat, Msg>, sends: seq<Packet>) {
    forall p :: p in sends && IsSend(p) ==> SendFits(table, p)
  }

  ghost predicate AcksFit(table: map<nat, Msg>, acks: seq<Packet>) {
    forall p :: p in acks && IsAck(p) ==> AckFits(table, p)
  }

  /** How many packets of a channel are about `mid`. */
  function SendCount(q: seq<Packet>, mid: nat): nat {
    if q == [] then 0 else SendCount(q[1..], mid) + if IsSend(q[0]) && q[0].mid == mid then 1 else 0
  }

  function AckCount(q: seq<Packet>, mid: nat): nat {
    if q == [] then 0 else AckCount(q[1..], mid) + if IsAck(q[0]) && q[0].mid == mid then 1 else 0
  }

  function Load(sends: seq<Packet>, acks: seq<Packet>, mid: nat): nat {
    SendCount(sends, mid) + AckCount(acks, mid)
  }

  ghost predicate Single(sends: seq<Packet>, acks: seq<Packet>) {
    forall mid :: Load(sends, acks, mid) <= 1
  }

  ghost predicate Wired(c: Session, acks: seq<Packet>) {
    && Sorted(c.order, c.table)
    && Rows(c.table, c.accepted)
    && SendsFit(c.table, c.outPacket)
    && AcksFit(c.table, acks)
    && Single(c.outPacket, acks)
    && c.lastMid < 65536
  }

  /** CONNECT opens every connection and CONNACK is the first packet the client reads. */
  ghost predicate ConnectionOk(s: System) {
    && (forall i :: 0 < i < |s.client.outPacket| ==> !s.client.outPacket[i].Connect?)
    && (forall i :: 0 < i < |s.toClient| ==> !s.toClient[i].Connack?)
    && (!s.broker.connected ==> s.toClient == [])
    && (s.broker.connected && s.client.outPacket != [] ==> !s.client.outPacket[0].Connect?)
    && (!s.broker.connected && s.client.link.Up? ==> s.client.outPacket != [] && s.client.outPacket[0].Connect?)
  }

  ghost predicate Ok(s: System) {
    Wired(s.client, s.toClient) && ConnectionOk(s)
  }

  // ---------- counting ----------

  lemma {:induction false} SendCountAppend(q: seq<Packet>, p: Packet, mid: nat)
    ensures SendCount(q + [p], mid) == SendCount(q, mid) + if IsSend(p) && p.mid == mid then 1 else 0
  {
    if q == [] {
      assert q + [p] == [p];
    } else {
      assert (q + [p])[1..] == q[1..] + [p];
      SendCountAppend(q[1..], p, mid);
    }
  }

  lemma {:induction false} AckCountAppend(q: seq<Packet>, p: Packet, mid: nat)
    ensures AckCount(q + [p], mid) == AckCount(q, mid) + if IsAck(p) && p.mid == mid then 1 else 0
  {
    if q == [] {
      assert q + [p] == [p];
    } else {
      assert (q + [p])[1..] == q[1..] + [p];
      AckCountAppend(q[1..], p, mid);
    }
  }

  lemma {:induction false} SendCounts(q: seq<Packet>, mid: nat)
    ensures SendCount(q, mid) > 0 <==> exists p :: p in q && IsSend(p) && p.mid == mid
  {
    if q != [] {
      SendCounts(q[1..], mid);
      assert q == [q[0]] + q[1..];
    }
  }

  lemma {:induction false} AckCounts(q: seq<Packet>, mid: nat)
    ensures AckCount(q, mid) > 0 <==> exists p :: p in q && IsAck(p) && p.mid == mid
  {
    if q != [] {
      AckCounts(q[1..], mid);
      assert q == [q[0]] + q[1..];
    }
  }

  lemma SingleAfterSend(sends: seq<Packet>, acks: seq<Packet>, p: Packet)
    requires Single(sends, acks)
    requires IsSend(p) ==> Load(sends, acks, p.mid) == 0
    ensures Single(sends + [p], acks)
  {
    forall mid ensures Load(sends + [p], acks, mid) <= 1 {
      SendCountAppend(sends, p, mid);
      assert Load(sends, acks, mid) <= 1;
    }
  }

  // ---------- the client's own moves ----------

  lemma QueueKeeps(c: Session, acks: seq<Packet>, p: Packet, inCallback: bool)
    requires Wired(c, acks)
    requires IsSend(p) ==> SendFits(c.table, p) && Load(c.outPacket, acks, p.mid) == 0
    ensures Wired(PacketQueue(c, p, inCallback).0, acks)
  {
    SingleAfterSend(c.outPacket, acks, p);
  }

  lemma ChangeTable(order: seq<nat>, table: map<nat, Msg>, accepted: nat, mid: nat, m: Msg)
    requires Sorted(order, table) && Rows(table, accepted) && mid in table
    requires StateFits(m) && m.body == table[mid].body
    ensures Sorted(order, table[mid := m]) && Rows(table[mid := m], accepted)
  {
  }

  lemma ChangeFits(table: map<nat, Msg>, sends: seq<Packet>, acks: seq<Packet>, mid: nat, m: Msg)
    requires SendsFit(table, sends) && AcksFit(table, acks) && Load(sends, acks, mid) == 0
    ensures SendsFit(table[mid := m], sends) && AcksFit(table[mid := m], acks)
  {
    SendCounts(sends, mid);
    AckCounts(acks, mid);
  }

  /** A message may change state while nothing is under way for it. */
  lemma ChangeKeeps(c: Session, acks: seq<Packet>, mid: nat, state: MessageState)
    requires Wired(c, acks) && mid in c.table && Load(c.outPacket, acks, mid) == 0
    requires StateFits(c.table[mid].(state := state))
    ensures Wired(SetState(c, mid, state), acks)
  {
    hide Sorted, Rows, SendsFit, AcksFit, Single, StateFits;
    ChangeTable(c.order, c.table, c.accepted, mid, c.table[mid].(state := state));
    ChangeFits(c.table, c.outPacket, acks, mid, c.table[mid].(state := state));
  }

  lemma Unstarted(c: Session, acks: seq<Packet>, mid: nat)
    requires Wired(c, acks)
    requires mid !in c.table || c.table[mid].state.ReadyToPublish? || c.table[mid].state.Queued?
             || c.table[mid].state.ResendPubrel?
    ensures Load(c.outPacket, acks, mid) == 0
  {
    hide Sorted, Rows, SendsFit, AcksFit, Single;
    NoLoad(c.table, c.outPacket, acks, mid);
  }

  lemma HistoryKeeps(c: Session, acks: seq<Packet>, sent: seq<Packet>)
    requires Wired(c, acks)
    ensures Wired(c.(sent := sent), acks)
  {
    hide Sorted, Rows, SendsFit, AcksFit, Single;
  }

  lemma SendKeeps(c: Session, acks: seq<Packet>, mid: nat, inCallback: bool)
    requires Wired(c, acks) && mid in c.table && Load(c.outPacket, acks, mid) == 0
    requires 1 <= c.table[mid].qos <= 2 && c.table[mid].state == FirstState(c.table[mid].qos)
    ensures Wired(SendPublish(c, mid, c.table[mid], inCallback).0, acks)
  {
    hide Wired, PacketQueue;
    if c.link.Up? {
      var c1 := c.(sent := c.sent + [PublishOf(mid, c.table[mid])]);
      HistoryKeeps(c, acks, c1.sent);
      QueueKeeps(c1, acks, PublishOf(mid, c.table[mid]), inCallback);
    }
  }

  lemma StartKeeps(c: Session, acks: seq<Packet>, mid: nat, inCallback: bool)
    requires Wired(c, acks) && mid in c.table
    requires c.table[mid].state.ReadyToPublish? || c.table[mid].state.Queued?
    ensures Wired(Start(c, mid, inCallback).0, acks)
  {
    Unstarted(c, acks, mid);
    assert StateFits(c.table[mid]);
    hide Wired, SendPublish;
    CountKeeps(c, acks, 1);
    ChangeKeeps(Count(c, 1), acks, mid, FirstState(c.table[mid].qos));
    SendKeeps(SetState(Count(c, 1), mid, FirstState(c.table[mid].qos)), acks, mid, inCallback);
  }

  lemma CountKeeps(c: Session, acks: seq<Packet>, change: int)
    requires Wired(c, acks)
    ensures Wired(Count(c, change), acks)
  {
    hide Sorted, Rows, SendsFit, AcksFit, Single;
  }

  lemma AcceptTable(order: seq<nat>, table: map<nat, Msg>, accepted: nat, mid: nat, m: Msg)
    requires Sorted(order, table) && Rows(table, accepted) && mid !in table
    requires 1 <= mid < 65536 && StateFits(m) && m.body == accepted
    ensures Sorted(order + [mid], table[mid := m]) && Rows(table[mid := m], accepted + 1)
  {
    var order1, table1 := order + [mid], table[mid := m];
    forall i, j | 0 <= i < j < |order1| ensures table1[order1[i]].body < table1[order1[j]].body {
      assert order[i] in table;
      if j < |order| {
        assert order[j] in table;
      }
    }
  }

  lemma AcceptKeeps(c: Session, acks: seq<Packet>, mid: nat, qos: nat, state: MessageState)
    requires Wired(c, acks) && mid !in c.table && 1 <= mid < 65536 && 1 <= qos <= 2
    requires state.ReadyToPublish? || state.Queued?
    ensures Wired(Accept(c, mid, qos, state), acks)
  {
    hide Sorted, Rows, SendsFit, AcksFit;
    var m := Msg(c.accepted, qos, state, false);
    AcceptTable(c.order, c.table, c.accepted, mid, m);
    NoLoad(c.table, c.outPacket, acks, mid);
    ChangeFits(c.table, c.outPacket, acks, mid, m);
  }

  lemma NoLoad(table: map<nat, Msg>, sends: seq<Packet>, acks: seq<Packet>, mid: nat)
    requires SendsFit(table, sends) && AcksFit(table, acks)
    requires mid !in table || table[mid].state.ReadyToPublish? || table[mid].state.Queued?
             || table[mid].state.ResendPubrel?
    ensures Load(sends, acks, mid) == 0
  {
    SendCounts(sends, mid);
    AckCounts(acks, mid);
  }

  lemma PublishKeeps(c: Session, acks: seq<Packet>, qos: nat)
    requires Wired(c, acks) && 1 <= qos <= 2
    ensures Wired(PublishMessage(c, qos).0, acks)
  {
    hide Sorted, Rows, SendsFit, AcksFit, Single, Start;
    var mid := NextMid(c.lastMid);
    var c1 := c.(lastMid := mid);
    if mid !in c.table {
      AcceptKeeps(c1, acks, mid, qos, Queued);
      AcceptKeeps(c1, acks, mid, qos, ReadyToPublish);
      StartKeeps(Accept(c1, mid, qos, Queued), acks, mid, false);
    }
  }

  lemma UpdateInflightKeeps(c: Session, acks: seq<Packet>, i: nat)
    requires Wired(c, acks)
    ensures Wired(UpdateInflight(c, i).0, acks)
  {
    hide Wired, UpdateInflight, Start;
    WiredKeyed(c, acks);
    var P := (c: Session) => Wired(c, acks);
    assert Loops.KeptByStart(P, false) by {
      forall c: Session, mid |
        P(c) && mid in c.table && (c.table[mid].state.Queued? || c.table[mid].state.ReadyToPublish?)
        ensures P(Start(c, mid, false).0)
      {
        StartKeeps(c, acks, mid, false);
      }
    }
    Loops.UpdateInflightKeeps(P, c, i);
  }

  ghost predicate Increasing(order: seq<nat>, table: map<nat, Msg>)
    requires forall k :: k in order ==> k in table
  {
    forall i, j :: 0 <= i < j < |order| ==> table[order[i]].body < table[order[j]].body
  }

  lemma FirstIsLeast(order: seq<nat>, table: map<nat, Msg>)
    requires order != [] && (forall k :: k in order ==> k in table) && Increasing(order, table)
    ensures forall k :: k in order[1..] ==> k in table && table[order[0]].body < table[k].body
    ensures Increasing(order[1..], table)
  {
    var rest := order[1..];
    assert forall i :: 0 <= i < |rest| ==> rest[i] == order[i + 1];
    forall k | k in rest ensures k in table && table[order[0]].body < table[k].body {
      var i :| 0 <= i < |rest| && rest[i] == k;
      assert order[i + 1] in order;
    }
  }

  lemma IncreasingMore(x: nat, rest: seq<nat>, table: map<nat, Msg>)
    requires x in table && (forall k :: k in rest ==> k in table && table[x].body < table[k].body)
    requires Increasing(rest, table)
    ensures forall k :: k in [x] + rest ==> k in table
    ensures Increasing([x] + rest, table)
  {
  }

  lemma {:induction false} WithoutKeepsOrder(order: seq<nat>, mid: nat, table: map<nat, Msg>)
    requires (forall k :: k in order ==> k in table) && Increasing(order, table)
    ensures (forall k :: k in Without(order, mid) ==> k in table) && Increasing(Without(order, mid), table)
  {
    hide Increasing;
    if order != [] {
      FirstIsLeast(order, table);
      assert order[0] in order;
      WithoutKeepsOrder(order[1..], mid, table);
      var r := Without(order[1..], mid);
      if order[0] != mid {
        IncreasingMore(order[0], r, table);
      }
    } else {
      NoneIncreasing(table);
    }
  }

  lemma NoneIncreasing(table: map<nat, Msg>)
    ensures Increasing([], table)
  {
  }

  lemma CompleteTable(order: seq<nat>, table: map<nat, Msg>, accepted: nat, mid: nat)
    requires Sorted(order, table) && Rows(table, accepted) && mid in table
    ensures Sorted(Without(order, mid), table - {mid}) && Rows(table - {mid}, accepted)
  {
    CompleteSorted(order, table, mid);
    hide Sorted;
  }

  lemma CompleteSorted(order: seq<nat>, table: map<nat, Msg>, mid: nat)
    requires Sorted(order, table) && mid in table
    ensures Sorted(Without(order, mid), table - {mid})
  {
    WithoutKeepsOrder(order, mid, table);
    var order1, table1 := Without(order, mid), table - {mid};
    forall i, j | 0 <= i < j < |order1| ensures table1[order1[i]].body < table1[order1[j]].body {
      assert order1[i] in order1 && order1[j] in order1;
    }
  }

  lemma CompleteFits(table: map<nat, Msg>, sends: seq<Packet>, acks: seq<Packet>, mid: nat)
    requires SendsFit(table, sends) && AcksFit(table, acks) && Load(sends, acks, mid) == 0
    ensures SendsFit(table - {mid}, sends) && AcksFit(table - {mid}, acks)
  {
    SendCounts(sends, mid);
    AckCounts(acks, mid);
  }

  lemma CompleteKeeps(c: Session, acks: seq<Packet>, mid: nat)
    requires Wired(c, acks) && mid in c.table && Load(c.outPacket, acks, mid) == 0
    ensures Wired(Complete(c, mid), acks)
  {
    CompleteTable(c.order, c.table, c.accepted, mid);
    CompleteFits(c.table, c.outPacket, acks, mid);
    hide Sorted, Rows, SendsFit, AcksFit, Single, Without;
  }

  lemma PubackcompKeeps(c: Session, acks: seq<Packet>, mid: nat)
    requires Wired(c, acks) && Load(c.outPacket, acks, mid) == 0
    ensures Wired(HandlePubackcomp(c, mid).0, acks)
  {
    if mid in c.table {
      CompleteKeeps(c, acks, mid);
      UpdateInflightKeeps(Complete(c, mid), acks, 0);
    }
  }

  lemma PubrecKeeps(c: Session, acks: seq<Packet>, mid: nat)
    requires Wired(c, acks) && Load(c.outPacket, acks, mid) == 0
    requires mid in c.table ==> c.table[mid].qos == 2
    ensures Wired(HandlePubrec(c, mid).0, acks)
  {
    if mid in c.table {
      ChangeKeeps(c, acks, mid, WaitForPubcomp);
      QueueKeeps(SetState(c, mid, WaitForPubcomp), acks, Pubrel(mid), false);
    }
  }

  lemma HandlePublishKeeps(c: Session, acks: seq<Packet>, mid: nat, qos: nat, body: nat)
    requires Wired(c, acks)
    ensures Wired(HandlePublish(c, mid, qos, body).0, acks)
  {
    var m := InMsg(mid, qos, body);
    QueueKeeps(Deliver(c, m), acks, Puback(mid), false);
    QueueKeeps(c, acks, Pubrec(mid), false);
  }

  lemma PubrelKeeps(c: Session, acks: seq<Packet>, mid: nat)
    requires Wired(c, acks)
    ensures Wired(HandlePubrel(c, mid).0, acks)
  {
    if mid in c.inbox {
      var c1 := Release(c, mid);
      UpdateInflightKeeps(c1, acks, 0);
      QueueKeeps(Refill(c1).0, acks, Pubcomp(mid), false);
    } else {
      QueueKeeps(c, acks, Pubcomp(mid), false);
    }
  }

  lemma ResumeKeeps(c: Session, acks: seq<Packet>, mid: nat)
    requires Wired(c, acks) && mid in c.table && c.table[mid].state.ResendPubrel?
    ensures Wired(ResumePubrel(c, mid), acks)
  {
    Unstarted(c, acks, mid);
    assert StateFits(c.table[mid]);
    ChangeKeeps(Count(c, 1), acks, mid, WaitForPubcomp);
    QueueKeeps(SetState(Count(c, 1), mid, WaitForPubcomp), acks, Pubrel(mid), true);
  }

  lemma WriteKeeps(c: Session, acks: seq<Packet>)
    requires Wired(c, acks)
    ensures Wired(LoopWrite(c).0, acks)
  {
    hide Sorted, Rows, SendsFit, AcksFit, Single;
  }

  lemma ConnackKeeps(c: Session, acks: seq<Packet>, i: nat)
    requires Wired(c, acks)
    ensures Wired(HandleConnack(c, i).0, acks)
  {
    hide Wired, HandleConnack, Start, ResumePubrel;
    WiredKeyed(c, acks);
    var P := (c: Session) => Wired(c, acks);
    assert Loops.KeptByStart(P, true) by {
      forall c: Session, mid |
        P(c) && mid in c.table && (c.table[mid].state.Queued? || c.table[mid].state.ReadyToPublish?)
        ensures P(Start(c, mid, true).0)
      {
        StartKeeps(c, acks, mid, true);
      }
    }
    assert Loops.KeptByResume(P) by {
      forall c: Session, mid | P(c) && mid in c.table && c.table[mid].qos == 2 && c.table[mid].state.ResendPubrel?
        ensures P(ResumePubrel(c, mid))
      {
        ResumeKeeps(c, acks, mid);
      }
    }
    assert Loops.KeptByWrite(P) by {
      forall c: Session | P(c) ensures P(LoopWrite(c).0) {
        WriteKeeps(c, acks);
      }
    }
    Loops.ConnackKeeps(P, c, i);
  }

  // ---------- what the client adds to its channel ----------

  ghost predicate Grown(c: Session, c1: Session) {
    && c.outPacket <= c1.outPacket
    && (forall i :: |c.outPacket| <= i < |c1.outPacket| ==> !c1.outPacket[i].Connect?)
    && (c1.link.Up? ==> c.link.Up?)
  }

  lemma StartGrows(c0: Session, c: Session, mid: nat, inCallback: bool)
    requires Grown(c0, c) && mid in c.table
    ensures Grown(c0, Start(c, mid, inCallback).0)
  {
  }

  lemma ResumeGrows(c0: Session, c: Session, mid: nat)
    requires Grown(c0, c) && mid in c.table
    ensures Grown(c0, ResumePubrel(c, mid))
  {
  }

  lemma WriteGrows(c0: Session, c: Session)
    requires Grown(c0, c)
    ensures Grown(c0, LoopWrite(c).0)
  {
  }

  lemma PublishGrows(c: Session, qos: nat)
    ensures Grown(c, PublishMessage(c, qos).0)
    ensures c.link.Down? ==> PublishMessage(c, qos).0.outPacket == c.outPacket
  {
    hide Grown;
    var mid := NextMid(c.lastMid);
    var c2 := Accept(c.(lastMid := mid), mid, qos, Queued);
    UnchangedGrown(c, c.(lastMid := mid));
    UnchangedGrown(c, c2);
    UnchangedGrown(c, Accept(c.(lastMid := mid), mid, qos, ReadyToPublish));
    StartGrows(c, c2, mid, false);
  }

  lemma UnchangedGrown(c: Session, c1: Session)
    requires c1.outPacket == c.outPacket && c1.link == c.link
    ensures Grown(c, c1)
  {
  }

  lemma UpdateInflightGrows(c: Session, i: nat)
    requires Keyed(c)
    ensures Grown(c, UpdateInflight(c, i).0)
  {
    hide UpdateInflight, Start, Grown;
    UnchangedGrown(c, c);
    var P := (c1: Session) => Grown(c, c1);
    assert Loops.KeptByStart(P, false) by {
      forall c1: Session, mid |
        P(c1) && mid in c1.table && (c1.table[mid].state.Queued? || c1.table[mid].state.ReadyToPublish?)
        ensures P(Start(c1, mid, false).0)
      {
        StartGrows(c, c1, mid, false);
      }
    }
    Loops.UpdateInflightKeeps(P, c, i);
  }

  lemma ConnackGrows(c: Session)
    requires Keyed(c)
    ensures Grown(c, HandleConnack(c, 0).0)
  {
    hide HandleConnack, Start, ResumePubrel, LoopWrite, Grown;
    UnchangedGrown(c, c);
    var P := (c1: Session) => Grown(c, c1);
    assert Loops.KeptByStart(P, true) by {
      forall c1: Session, mid |
        P(c1) && mid in c1.table && (c1.table[mid].state.Queued? || c1.table[mid].state.ReadyToPublish?)
        ensures P(Start(c1, mid, true).0)
      {
        StartGrows(c, c1, mid, true);
      }
    }
    assert Loops.KeptByResume(P) by {
      forall c1: Session, mid | P(c1) && mid in c1.table && c1.table[mid].qos == 2 && c1.table[mid].state.ResendPubrel?
        ensures P(ResumePubrel(c1, mid))
      {
        ResumeGrows(c, c1, mid);
      }
    }
    assert Loops.KeptByWrite(P) by {
      forall c1: Session | P(c1) ensures P(LoopWrite(c1).0) {
        WriteGrows(c, c1);
      }
    }
    Loops.ConnackKeeps(P, c, 0);
  }

  lemma GrownTransitive(c: Session, c1: Session, c2: Session)
    requires Grown(c, c1) && Grown(c1, c2)
    ensures Grown(c, c2)
  {
  }

  lemma RefillGrows(c: Session, c1: Session)
    requires Keyed(c1) && c1.outPacket == c.outPacket && c1.link == c.link
    ensures Grown(c, Refill(c1).0)
  {
    hide UpdateInflight, Grown;
    UnchangedGrown(c, c1);
    UpdateInflightGrows(c1, 0);
    GrownTransitive(c, c1, Refill(c1).0);
  }

  lemma QueueGrows(c: Session, c1: Session, p: Packet)
    requires Grown(c, c1) && !p.Connect?
    ensures Grown(c, PacketQueue(c1, p, false).0)
  {
  }

  lemma PubrelGrows(c: Session, mid: nat)
    requires Keyed(c)
    ensures Grown(c, HandlePubrel(c, mid).0)
  {
    hide Refill, Grown, PacketQueue;
    if mid in c.inbox {
      RefillGrows(c, Release(c, mid));
      QueueGrows(c, Refill(Release(c, mid)).0, Pubcomp(mid));
    } else {
      UnchangedGrown(c, c);
      QueueGrows(c, c, Pubcomp(mid));
    }
  }

  lemma HandleGrows(c: Session, p: Packet)
    requires Keyed(c)
    ensures Grown(c, HandlePacket(c, p).0)
  {
    hide HandleConnack, Refill, HandlePubrel, HandlePubrec, HandlePublish, Grown;
    UnchangedGrown(c, c);
    match p
    case Connack => ConnackGrows(c);
    case Puback(mid) => if mid in c.table { RefillGrows(c, Complete(c, mid)); }
    case Pubcomp(mid) => if mid in c.table { RefillGrows(c, Complete(c, mid)); }
    case Pubrel(mid) => PubrelGrows(c, mid);
    case Pubrec(mid) => PubrecGrows(c, mid);
    case Publish(mid, qos, _, body) => DeliveryGrows(c, mid, qos, body);
    case Connect(_) =>
  }

  lemma PubrecGrows(c: Session, mid: nat)
    ensures Grown(c, HandlePubrec(c, mid).0)
  {
    hide Grown;
    UnchangedGrown(c, c);
    if mid in c.table {
      UnchangedGrown(c, SetState(c, mid, WaitForPubcomp));
      QueueGrows(c, SetState(c, mid, WaitForPubcomp), Pubrel(mid));
    }
  }

  lemma DeliveryGrows(c: Session, mid: nat, qos: nat, body: nat)
    ensures Grown(c, HandlePublish(c, mid, qos, body).0)
  {
  }

  lemma ProcessGrows(c: Session, p: Packet)
    requires Keyed(c)
    ensures Grown(c, Process(c, p))
  {
    hide HandlePacket;
    HandleGrows(c, p);
  }

  // ---------- the steps of the system ----------

  lemma HeadOfAcks(c: Session, acks: seq<Packet>)
    requires Wired(c, acks) && acks != []
    ensures Wired(c, acks[1..])
    ensures IsAck(acks[0]) ==> AckFits(c.table, acks[0]) && Load(c.outPacket, acks[1..], acks[0].mid) == 0
  {
    forall mid ensures Load(c.outPacket, acks[1..], mid) <= 1 {
      assert Load(c.outPacket, acks, mid) <= 1;
    }
    if IsAck(acks[0]) {
      assert Load(c.outPacket, acks, acks[0].mid) <= 1;
    }
  }

  lemma AckKeeps(c: Session, acks: seq<Packet>, p: Packet)
    requires Wired(c, acks) && IsAck(p) && AckFits(c.table, p) && Load(c.outPacket, acks, p.mid) == 0
    ensures Wired(HandlePacket(c, p).0, acks)
  {
    if p.Pubrec? {
      assert StateFits(c.table[p.mid]);
      PubrecKeeps(c, acks, p.mid);
    } else {
      PubackcompKeeps(c, acks, p.mid);
    }
  }

  lemma OtherKeeps(c: Session, acks: seq<Packet>, p: Packet)
    requires Wired(c, acks) && !IsAck(p)
    ensures Wired(HandlePacket(c, p).0, acks)
  {
    if p.Connack? {
      ConnackKeeps(c, acks, 0);
    } else if p.Publish? {
      HandlePublishKeeps(c, acks, p.mid, p.qos, p.body);
    } else if p.Pubrel? {
      PubrelKeeps(c, acks, p.mid);
    }
  }

  lemma ProcessKeeps(c: Session, acks: seq<Packet>)
    requires Wired(c, acks) && acks != []
    ensures Wired(Process(c, acks[0]), acks[1..])
  {
    HeadOfAcks(c, acks);
    if IsAck(acks[0]) {
      AckKeeps(c, acks[1..], acks[0]);
    } else {
      OtherKeeps(c, acks[1..], acks[0]);
    }
  }

  /** The packet the broker takes is replaced by at most one acknowledgement of it. */
  lemma ReceiveKeeps(c: Session, b: Broker, acks: seq<Packet>)
    requires Wired(c, acks) && c.outPacket != []
    ensures Wired(c.(outPacket := c.outPacket[1..]), acks + Receive(b, c.outPacket[0]).1)
  {
    var p := c.outPacket[0];
    var replies := Receive(b, p).1;
    if replies == [] {
      assert acks + replies == acks;
    }
    forall mid ensures Load(c.outPacket[1..], acks + replies, mid) <= 1 {
      assert Load(c.outPacket, acks, mid) <= 1;
      if replies != [] {
        AckCountAppend(acks, replies[0], mid);
      }
    }
    forall r | r in acks + replies && IsAck(r) ensures AckFits(c.table, r) {
      if r !in acks {
        assert SendFits(c.table, p);
        assert StateFits(c.table[p.mid]);
      }
    }
  }

  lemma ReopenKeeps(c: Session, clean: bool, link: Link)
    requires Wired(c, [])
    ensures Wired(Reconnect(c, clean, link), [])
  {
    var c1 := ResetIn(ResetOut(c.(link := Down, outPacket := []), clean), clean).(link := link);
    ResetTableKeeps(c.order, c.table, c.accepted, clean);
    assert c1.table == ResetTable(c.table, clean) && c1.order == c.order && c1.outPacket == [];
    hide Sorted, Rows, ResetTable, ResetIn;
    NoPackets(c1.table);
    QueueKeeps(c1, [], Connect(clean), false);
  }

  lemma ResetTableKeeps(order: seq<nat>, table: map<nat, Msg>, accepted: nat, clean: bool)
    requires Sorted(order, table) && Rows(table, accepted)
    ensures Sorted(order, ResetTable(table, clean)) && Rows(ResetTable(table, clean), accepted)
  {
    var t := ResetTable(table, clean);
    forall k | k in table ensures StateFits(t[k]) && t[k].body == table[k].body {
      assert StateFits(table[k]);
    }
    hide ResetTable, StateFits;
  }

  lemma NoPackets(table: map<nat, Msg>)
    ensures SendsFit(table, []) && AcksFit(table, []) && Single([], [])
  {
    assert forall mid :: Load([], [], mid) == 0;
  }

  lemma WiredKeyed(c: Session, acks: seq<Packet>)
    requires Wired(c, acks)
    ensures Keyed(c)
  {
  }

  lemma SubmitKeeps(s: System, qos: nat)
    requires Ok(s)
    ensures Ok(Next(s, Submit(qos)))
  {
    hide PublishMessage, Wired;
    if qos == 1 || qos == 2 {
      PublishKeeps(s.client, s.toClient, qos);
      PublishGrows(s.client, qos);
    }
  }

  lemma ClientReceiveKeeps(s: System)
    requires Ok(s)
    ensures Ok(Next(s, ClientReceive))
  {
    hide Wired, Process;
    WiredKeyed(s.client, s.toClient);
    if s.client.link.Up? && s.toClient != [] {
      ProcessKeeps(s.client, s.toClient);
      ProcessGrows(s.client, s.toClient[0]);
    }
  }

  lemma BrokerReceiveKeeps(s: System)
    requires Ok(s)
    ensures Ok(Next(s, BrokerReceive))
  {
    hide Wired;
    if s.client.outPacket != [] {
      ReceiveKeeps(s.client, s.broker, s.toClient);
    }
  }

  lemma DropAcks(c: Session, acks: seq<Packet>)
    requires Wired(c, acks)
    ensures Wired(c, [])
  {
    forall mid ensures Load(c.outPacket, [], mid) <= 1 {
      assert Load(c.outPacket, acks, mid) <= 1;
    }
  }

  lemma ReopenChannel(c: Session, clean: bool, link: Link)
    ensures var r := Reconnect(c, clean, link);
      && (r.link.Up? ==> r.outPacket == [Connect(clean)])
      && (r.outPacket == [] || r.outPacket == [Connect(clean)])
  {
  }

  /** At most the identifier counter moves, and a packet is queued that is not about an outgoing message. */
  ghost predicate Aside(c: Session, c1: Session) {
    && c1 == c.(lastMid := c1.lastMid, outPacket := c1.outPacket, link := c1.link)
    && (c1.lastMid == c.lastMid || c1.lastMid == NextMid(c.lastMid))
    && (c1.outPacket == c.outPacket
        || exists p :: !IsSend(p) && !p.Connect? && c1.outPacket == c.outPacket + [p])
    && (c1.link.Up? ==> c.link.Up?)
  }

  lemma PlainAside(c: Session, body: nat)
    ensures Aside(c, PublishPlain(c, body).0)
  {
    var p := Publish(NextMid(c.lastMid), 0, false, body);
    assert !IsSend(p) && !p.Connect?;
  }

  lemma AckAside(c: Session, mid: nat, qos: nat)
    ensures Aside(c, QosSession.Ack(c, mid, qos).0)
  {
    assert !IsSend(Puback(mid)) && !Puback(mid).Connect?;
    assert !IsSend(Pubcomp(mid)) && !Pubcomp(mid).Connect?;
  }

  lemma AsideGrown(c: Session, c1: Session)
    requires Aside(c, c1)
    ensures Grown(c, c1)
  {
  }

  lemma AsideKeeps(c: Session, acks: seq<Packet>, c1: Session)
    requires Wired(c, acks) && Aside(c, c1)
    ensures Wired(c1, acks)
  {
    if c1.outPacket != c.outPacket {
      var p :| !IsSend(p) && !p.Connect? && c1.outPacket == c.outPacket + [p];
      SingleAfterSend(c.outPacket, acks, p);
    }
  }

  /** The steps that leave the session as it is, up to such packets. */
  predicate IsAside(step: Step) {
    step.SubmitPlain? || step.Ack? || step.OtherMid?
  }

  lemma StepAside(s: System, step: Step)
    requires Keyed(s.client) && IsAside(step)
    ensures var r := Next(s, step); Aside(s.client, r.client) && r == s.(client := r.client)
  {
    hide Aside, PublishPlain, QosSession.Ack;
    match step
    case SubmitPlain(body) => PlainAside(s.client, body);
    case Ack(mid, qos) => AckAside(s.client, mid, qos);
    case OtherMid => MidAside(s.client);
  }

  lemma MidAside(c: Session)
    ensures Aside(c, c.(lastMid := NextMid(c.lastMid)))
  {
  }

  lemma AsideStepKeeps(s: System, step: Step)
    requires Ok(s) && IsAside(step)
    ensures Ok(Next(s, step))
  {
    WiredKeyed(s.client, s.toClient);
    hide Wired, Next, Aside;
    StepAside(s, step);
    AsideKeeps(s.client, s.toClient, Next(s, step).client);
    AsideGrown(s.client, Next(s, step).client);
  }

  lemma ReopenStepKeeps(s: System, clean: bool, link: Link)
    requires Ok(s)
    ensures Ok(Next(s, Reopen(clean, link)))
  {
    hide Wired, Reconnect;
    DropAcks(s.client, s.toClient);
    ReopenKeeps(s.client, clean, link);
    ReopenChannel(s.client, clean, link);
  }

  lemma NextKeeps(s: System, step: Step)
    requires Ok(s)
    ensures Ok(Next(s, step))
  {
    hide Process, PublishMessage, Reconnect, Receive;
    match step
    case Submit(qos) => SubmitKeeps(s, qos);
    case ClientReceive => ClientReceiveKeeps(s);
    case BrokerReceive => BrokerReceiveKeeps(s);
    case BrokerSend(p) => BrokerSendKeeps(s, p);
    case SubmitPlain(_) => AsideStepKeeps(s, step);
    case Ack(_, _) => AsideStepKeeps(s, step);
    case Reopen(clean, link) => ReopenStepKeeps(s, clean, link);
    case OtherMid => AsideStepKeeps(s, step);
    case Grant(_) =>
    case Drop =>
  }

  lemma BrokerSendKeeps(s: System, p: Packet)
    requires Ok(s)
    ensures Ok(Next(s, BrokerSend(p)))
  {
    if s.broker.connected && (p.Publish? || p.Pubrel?) {
      forall mid ensures Load(s.client.outPacket, s.toClient + [p], mid) <= 1 {
        AckCountAppend(s.toClient, p, mid);
        assert Load(s.client.outPacket, s.toClient, mid) <= 1;
      }
    }
  }

  lemma {:induction false} RunKeeps(s: System, steps: seq<Step>)
    requires Ok(s)
    ensures Ok(Run(s, steps))
    decreases |steps|
  {
    if steps != [] {
      NextKeeps(s, steps[0]);
      RunKeeps(Next(s, steps[0]), steps[1..]);
    }
  }

  lemma InitialOk(config: Config, early: bool)
    ensures Ok(Initial(config, early))
  {
    assert forall mid :: Load([], [], mid) == 0;
  }
}
