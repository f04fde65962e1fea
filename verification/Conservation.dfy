/** No accepted message is lost, replaced or duplicated inside the client. */
module Conservation {
  import opened QosSession
  import opened Network
  import opened Wire
  import Loops

  /** Every accepted message is in exactly one place: once in the table or once among the
      completed ones. */
  ghost predicate Partition(c: Session) {
    && (forall b: nat :: b < c.accepted ==> InTable(c, b) || InCompleted(c.completed, b))
    && (forall b: nat :: InTable(c, b) || InCompleted(c.completed, b) ==> b < c.accepted)
    && (forall b: nat :: !(InTable(c, b) && InCompleted(c.completed, b)))
    && (forall i, j :: 0 <= i < j < |c.completed| ==> c.completed[i].body != c.completed[j].body)
  }

  ghost predicate InTable(c: Session, body: nat) {
    exists k :: k in c.table && c.table[k].body == body
  }

  ghost predicate InCompleted(completed: seq<Msg>, body: nat) {
    exists i :: 0 <= i < |completed| && completed[i].body == body
  }

  ghost predicate WithinLimit(c: Session) {
    c.config.maxQueued > 0 ==> |c.order| <= c.config.maxQueued
  }

  /** The same messages under the same identifiers, in the same order; only their delivery
      states may differ. */
  ghost predicate SameMessages(c: Session, c1: Session) {
    && c1.config == c.config && c1.order == c.order && c1.accepted == c.accepted && c1.completed == c.completed
    && c1.table.Keys == c.table.Keys
    && (forall k :: k in c.table ==> c1.table[k].body == c.table[k].body && c1.table[k].qos == c.table[k].qos)
  }

  /** The client has seen the PUBREC of the message. */
  predicate Received(m: Msg) {
    m.state.WaitForPubcomp? || m.state.ResendPubrel?
  }

  ghost predicate SameStage(c: Session, c1: Session) {
    && SameMessages(c, c1)
    && (forall k :: k in c.table ==> Received(c1.table[k]) == Received(c.table[k]))
  }

  lemma SamePartition(c: Session, c1: Session)
    requires Partition(c) && SameMessages(c, c1)
    ensures Partition(c1)
  {
    forall b: nat ensures InTable(c1, b) <==> InTable(c, b) {
      if InTable(c, b) {
        var k :| k in c.table && c.table[k].body == b;
        assert k in c1.table;
      }
      if InTable(c1, b) {
        var k :| k in c1.table && c1.table[k].body == b;
        assert k in c.table;
      }
    }
    forall b: nat ensures InCompleted(c1.completed, b) <==> InCompleted(c.completed, b) {
    }
  }

  lemma StartSame(c0: Session, c: Session, mid: nat, inCallback: bool)
    requires SameStage(c0, c) && mid in c.table && !Received(c.table[mid])
    ensures SameStage(c0, Start(c, mid, inCallback).0)
  {
  }

  lemma ResumeSame(c0: Session, c: Session, mid: nat)
    requires SameStage(c0, c) && mid in c.table && Received(c.table[mid])
    ensures SameStage(c0, ResumePubrel(c, mid))
  {
  }

  lemma WriteSame(c0: Session, c: Session)
    requires SameStage(c0, c)
    ensures SameStage(c0, LoopWrite(c).0)
  {
  }

  lemma Same(c: Session)
    ensures SameStage(c, c)
  {
  }

  lemma UpdateInflightSame(c: Session, i: nat)
    requires Keyed(c)
    ensures SameStage(c, UpdateInflight(c, i).0)
  {
    hide UpdateInflight, Start, SameStage;
    Same(c);
    var P := (c1: Session) => SameStage(c, c1);
    assert Loops.KeptByStart(P, false) by {
      forall c1: Session, mid |
        P(c1) && mid in c1.table && (c1.table[mid].state.Queued? || c1.table[mid].state.ReadyToPublish?)
        ensures P(Start(c1, mid, false).0)
      {
        StartSame(c, c1, mid, false);
      }
    }
    Loops.UpdateInflightKeeps(P, c, i);
  }

  lemma ConnackSame(c: Session)
    requires Keyed(c)
    ensures SameStage(c, HandleConnack(c, 0).0)
  {
    hide HandleConnack, Start, ResumePubrel, LoopWrite;
    var P := (c1: Session) => SameStage(c, c1);
    assert Loops.KeptByStart(P, true) by {
      forall c1: Session, mid |
        P(c1) && mid in c1.table && (c1.table[mid].state.Queued? || c1.table[mid].state.ReadyToPublish?)
        ensures P(Start(c1, mid, true).0)
      {
        StartSame(c, c1, mid, true);
      }
    }
    assert Loops.KeptByResume(P) by {
      forall c1: Session, mid | P(c1) && mid in c1.table && c1.table[mid].qos == 2 && c1.table[mid].state.ResendPubrel?
        ensures P(ResumePubrel(c1, mid))
      {
        ResumeSame(c, c1, mid);
      }
    }
    assert Loops.KeptByWrite(P) by {
      forall c1: Session | P(c1) ensures P(LoopWrite(c1).0) {
        WriteSame(c, c1);
      }
    }
    Loops.ConnackKeeps(P, c, 0);
  }

  lemma PubrelSame(c: Session, mid: nat)
    requires Keyed(c)
    ensures SameStage(c, HandlePubrel(c, mid).0)
  {
    hide UpdateInflight;
    if mid in c.inbox {
      UpdateInflightSame(Release(c, mid), 0);
    }
  }

  lemma AckedThenSame(c: Session, mid: nat)
    requires Keyed(c) && mid in c.table
    ensures SameStage(Complete(c, mid), HandlePubackcomp(c, mid).0)
  {
    UpdateInflightSame(Complete(c, mid), 0);
  }

  predicate Completes(c: Session, p: Packet) {
    (p.Puback? || p.Pubcomp?) && p.mid in c.table
  }

  lemma CompletesThenSame(c: Session, p: Packet)
    requires Keyed(c) && Completes(c, p)
    ensures SameStage(Complete(c, p.mid), Process(c, p))
  {
    hide Refill, Complete;
    AckedThenSame(c, p.mid);
  }

  lemma DeliverySame(c: Session, mid: nat, qos: nat, body: nat)
    ensures SameStage(c, HandlePublish(c, mid, qos, body).0)
  {
  }

  lemma PubrecSame(c: Session, mid: nat)
    ensures SameMessages(c, HandlePubrec(c, mid).0)
  {
  }

  lemma SmallSame(c: Session, p: Packet)
    requires Keyed(c)
    requires p.Connect? || p.Publish? || p.Pubrec? || ((p.Puback? || p.Pubcomp?) && p.mid !in c.table)
    ensures SameMessages(c, HandlePacket(c, p).0)
    ensures !p.Pubrec? ==> SameStage(c, HandlePacket(c, p).0)
  {
    hide HandleConnack, Refill, HandlePubrel, HandlePublish, HandlePubrec, SameMessages;
    Same(c);
    if p.Publish? {
      DeliverySame(c, p.mid, p.qos, p.body);
    } else if p.Pubrec? {
      PubrecSame(c, p.mid);
    }
  }

  lemma ClosedSame(c: Session, c1: Session, c2: Session)
    requires SameMessages(c, c1) && c2 == c1.(link := c2.link)
    ensures SameMessages(c, c2) && (SameStage(c, c1) ==> SameStage(c, c2))
  {
  }

  lemma OthersSame(c: Session, p: Packet)
    requires Keyed(c) && !Completes(c, p)
    ensures SameMessages(c, Process(c, p))
    ensures !p.Pubrec? ==> SameStage(c, Process(c, p))
  {
    hide HandleConnack, Refill, HandlePubrel, HandlePublish, HandlePubrec, SameMessages;
    if p.Connack? {
      ConnackSame(c);
    } else if p.Pubrel? {
      PubrelSame(c, p.mid);
    } else {
      SmallSame(c, p);
    }
    hide HandlePacket;
    ClosedSame(c, HandlePacket(c, p).0, Process(c, p));
  }

  lemma AcceptPartition(c: Session, mid: nat, qos: nat, state: MessageState)
    requires Partition(c) && mid !in c.table
    ensures Partition(Accept(c, mid, qos, state))
  {
    var c1 := Accept(c, mid, qos, state);
    assert c1.table[mid].body == c.accepted;
    forall b: nat ensures InTable(c1, b) <==> InTable(c, b) || b == c.accepted {
      if InTable(c, b) {
        var k :| k in c.table && c.table[k].body == b;
        assert k in c1.table && c1.table[k].body == b;
      }
      assert mid in c1.table && c1.table[mid].body == c.accepted;
    }
    forall b: nat ensures InCompleted(c1.completed, b) <==> InCompleted(c.completed, b) {
    }
  }

  lemma PublishPartition(c: Session, qos: nat)
    requires Partition(c) && Keyed(c)
    ensures Partition(PublishMessage(c, qos).0)
  {
    var mid := NextMid(c.lastMid);
    var c1 := c.(lastMid := mid);
    var c2 := Accept(c1, mid, qos, Queued);
    SamePartition(c, c1);
    if mid !in c.table {
      Same(c2);
      StartSame(c2, c2, mid, false);
      hide Partition, Start, SameMessages;
      AcceptPartition(c1, mid, qos, Queued);
      AcceptPartition(c1, mid, qos, ReadyToPublish);
      SamePartition(c2, Start(c2, mid, false).0);
    }
  }

  lemma CompletePartition(c: Session, mid: nat)
    requires Partition(c) && Keyed(c) && Rows(c.table, c.accepted) && mid in c.table
    ensures Partition(Complete(c, mid))
  {
    var c1 := Complete(c, mid);
    var body := c.table[mid].body;
    assert InTable(c, body);
    forall b: nat ensures InCompleted(c1.completed, b) <==> InCompleted(c.completed, b) || b == body {
      assert c1.completed[|c.completed|].body == body;
      if InCompleted(c.completed, b) {
        var i :| 0 <= i < |c.completed| && c.completed[i].body == b;
        assert c1.completed[i].body == b;
      }
    }
    forall b: nat ensures InTable(c1, b) <==> InTable(c, b) && b != body {
      if InTable(c, b) && b != body {
        var k :| k in c.table && c.table[k].body == b;
        assert k in c1.table;
      }
    }
    forall i, j | 0 <= i < j < |c1.completed| ensures c1.completed[i].body != c1.completed[j].body {
      if j == |c.completed| {
        assert InCompleted(c.completed, c.completed[i].body);
      }
    }
  }

  lemma WithoutShorter(order: seq<nat>, mid: nat)
    ensures |Without(order, mid)| <= |order|
  {
  }

  lemma ProcessPartition(c: Session, p: Packet)
    requires Partition(c) && Keyed(c) && Rows(c.table, c.accepted) && WithinLimit(c)
    ensures Partition(Process(c, p)) && WithinLimit(Process(c, p))
  {
    hide Partition, Process, Rows;
    if Completes(c, p) {
      CompletePartition(c, p.mid);
      WithoutShorter(c.order, p.mid);
      CompletesThenSame(c, p);
      SamePartition(Complete(c, p.mid), Process(c, p));
    } else {
      OthersSame(c, p);
      SamePartition(c, Process(c, p));
    }
  }

  lemma OtherStepsSame(s: System, step: Step)
    requires Keyed(s.client) && !step.Submit? && !step.ClientReceive?
    ensures SameMessages(s.client, Next(s, step).client)
  {
    hide Reconnect;
    if step.Reopen? {
      ReopenSame(s.client, step.clean, step.link);
    } else if IsAside(step) {
      hide Next;
      StepAside(s, step);
    }
  }

  /** Neither kind of reset discards, renames or reorders a message. */
  lemma ReopenSame(c: Session, clean: bool, link: Link)
    ensures SameMessages(c, Reconnect(c, clean, link))
  {
  }

  lemma OkTable(s: System)
    requires Ok(s)
    ensures Keyed(s.client) && Rows(s.client.table, s.client.accepted)
  {
  }

  lemma PublishLimit(c: Session, qos: nat)
    requires WithinLimit(c)
    ensures WithinLimit(PublishMessage(c, qos).0)
  {
    hide Start;
    StartOrder(Accept(c.(lastMid := NextMid(c.lastMid)), NextMid(c.lastMid), qos, Queued), NextMid(c.lastMid));
  }

  lemma StartOrder(c: Session, mid: nat)
    requires mid in c.table
    ensures Start(c, mid, false).0.order == c.order && Start(c, mid, false).0.config == c.config
  {
  }

  lemma LimitSame(c: Session, c1: Session)
    requires WithinLimit(c) && SameMessages(c, c1)
    ensures WithinLimit(c1)
  {
  }

  lemma NextConserves(s: System, step: Step)
    requires Ok(s) && Partition(s.client) && WithinLimit(s.client)
    ensures Partition(Next(s, step).client) && WithinLimit(Next(s, step).client)
  {
    hide Partition, Process, PublishMessage, Ok, WithinLimit, SameMessages;
    OkTable(s);
    if step.Submit? {
      PublishPartition(s.client, step.qos);
      PublishLimit(s.client, step.qos);
    } else if step.ClientReceive? {
      if s.client.link.Up? && s.toClient != [] {
        ProcessPartition(s.client, s.toClient[0]);
      }
    } else {
      hide Next;
      OtherStepsSame(s, step);
      SamePartition(s.client, Next(s, step).client);
      LimitSame(s.client, Next(s, step).client);
    }
  }

  lemma {:induction false} RunConserves(s: System, steps: seq<Step>)
    requires Ok(s) && Partition(s.client) && WithinLimit(s.client)
    ensures Partition(Run(s, steps).client) && WithinLimit(Run(s, steps).client)
    decreases |steps|
  {
    if steps != [] {
      NextKeeps(s, steps[0]);
      NextConserves(s, steps[0]);
      RunConserves(Next(s, steps[0]), steps[1..]);
    }
  }

  /** In every run every accepted message is either still in the table or completed, never
      both and never twice, and a positive queue limit is never exceeded. */
  lemma NothingIsLost(config: Config, early: bool, steps: seq<Step>)
    ensures Partition(Run(Initial(config, early), steps).client)
    ensures WithinLimit(Run(Initial(config, early), steps).client)
  {
    InitialOk(config, early);
    RunConserves(Initial(config, early), steps);
  }

  /** Only an acknowledgement removes a message, and it removes no other: any other step keeps
      every message of the table under its identifier. */
  lemma OnlyAcksRemove(s: System, step: Step, mid: nat)
    requires Ok(s) && mid in s.client.table
    ensures var c1 := Next(s, step).client;
      if mid in c1.table then
        c1.table[mid].body == s.client.table[mid].body && c1.table[mid].qos == s.client.table[mid].qos
      else
        && step == ClientReceive && s.client.link.Up? && s.toClient != []
        && s.toClient[0] == (if s.client.table[mid].qos == 1 then Puback(mid) else Pubcomp(mid))
        && s.client.table[mid] in c1.completed
  {
    hide Process, ConnectionOk, Single, SendsFit, AcksFit;
    if step.ClientReceive? {
      if s.client.link.Up? && s.toClient != [] {
        RemovedByAck(s.client, s.toClient, mid);
      }
    } else if step.Submit? {
      SubmitRemovesNone(s.client, step.qos, mid);
    } else {
      OtherStepsSame(s, step);
    }
  }

  lemma SubmitRemovesNone(c: Session, qos: nat, mid: nat)
    requires mid in c.table
    ensures mid in PublishMessage(c, qos).0.table && PublishMessage(c, qos).0.table[mid] == c.table[mid]
  {
  }

  lemma RemovedByAck(c: Session, acks: seq<Packet>, mid: nat)
    requires Wired(c, acks) && acks != [] && mid in c.table
    ensures var c1 := Process(c, acks[0]);
      if mid in c1.table then
        c1.table[mid].body == c.table[mid].body && c1.table[mid].qos == c.table[mid].qos
      else
        && acks[0] == (if c.table[mid].qos == 1 then Puback(mid) else Pubcomp(mid))
        && c.table[mid] in c1.completed
  {
    hide Process, Single, SendsFit;
    var p := acks[0];
    if Completes(c, p) {
      assert AckFits(c.table, p) && StateFits(c.table[p.mid]);
      CompletesThenSame(c, p);
      assert Complete(c, p.mid).completed[|c.completed|] == c.table[p.mid];
    } else {
      OthersSame(c, p);
    }
  }
}
