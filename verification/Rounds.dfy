/** Progress by rounds: the broker takes one packet and the client handles its reply; and a
    connection opened anew up to its CONNACK. */
module Rounds {
  import opened QosSession
  import opened Network
  import opened Wire
  import opened Conservation
  import opened Resend
  import Loops
  import Window

  // ---------- a round: the broker takes one packet and the client handles the reply ----------

  /** Connected, with no packet on the way to the client. */
  ghost predicate Calm(s: System) {
    Ok(s) && s.toClient == [] && s.client.link.Up? && s.broker.connected
  }

  function RoundSteps(writes: nat): seq<Step> {
    [BrokerReceive] + [Grant(writes)] + [ClientReceive]
  }

  lemma RunThree(s: System, a: Step, b: Step, c: Step)
    requires Keyed(s.client)
    ensures Run(s, [a] + [b] + [c]) == Next(Next(Next(s, a), b), c)
  {
    RunSnoc(s, [a] + [b], c);
    RunSnoc(s, [a], b);
    RunSnoc(s, [], a);
    assert [] + [a] == [a];
  }

  lemma {:induction false} UpdateInflightSucceeds(c: Session, i: nat)
    requires Keyed(c) && i <= |c.order| && c.link.Up? && c.link.writes > |c.order| - i
    ensures UpdateInflight(c, i).1.Success?
    ensures UpdateInflight(c, i).0.link.Up? && UpdateInflight(c, i).0.link.writes > 0
    decreases |c.order| - i
  {
    if i < |c.order| && c.inflight < c.config.maxInflight {
      if c.table[c.order[i]].state.Queued? {
        UpdateInflightSucceeds(Start(c, c.order[i], false).0, i + 1);
      } else {
        UpdateInflightSucceeds(c, i + 1);
      }
    }
  }

  lemma AckSucceeds(c: Session, p: Packet)
    requires Keyed(c) && IsAck(p) && c.link.Up? && c.link.writes > |c.order|
    ensures HandlePacket(c, p).1.Success? && HandlePacket(c, p).0.link.Up?
  {
    if Completes(c, p) {
      WithoutShorter(c.order, p.mid);
      UpdateInflightSucceeds(Complete(c, p.mid), 0);
    }
  }

  /** A message under way is touched only by acknowledgements of its own. */
  lemma OtherAck(c: Session, p: Packet, mid: nat)
    requires Keyed(c) && IsAck(p) && p.mid != mid && mid in c.table && Rank(c.table[mid]) == 1
    ensures mid in Process(c, p).table && Process(c, p).table[mid] == c.table[mid]
  {
    if Completes(c, p) {
      Unmoved(Complete(c, p.mid), mid);
    }
  }

  lemma Unmoved(c: Session, mid: nat)
    requires Keyed(c) && mid in c.table && Rank(c.table[mid]) == 1
    ensures mid in Refill(c).0.table && Refill(c).0.table[mid] == c.table[mid]
  {
    var m := c.table[mid];
    var P := (c: Session) => mid in c.table && c.table[mid] == m;
    assert Loops.KeptByStart(P, false) by {
      forall c: Session, k | P(c) && k in c.table && (c.table[k].state.Queued? || c.table[k].state.ReadyToPublish?)
        ensures P(Start(c, k, false).0)
      {
      }
    }
    if c.config.maxInflight > 0 {
      Loops.UpdateInflightKeeps(P, c, 0);
    }
  }

  /** The system after a round. */
  function AfterRound(s: System): System
    requires Keyed(s.client) && s.client.outPacket != []
  {
    var (b, replies) := Receive(s.broker, s.client.outPacket[0]);
    var c := s.client.(outPacket := s.client.outPacket[1..], link := Up(|s.client.order| + 1));
    System(if replies == [] then c else Process(c, replies[0]), b, [])
  }

  lemma BrokerTurn(s: System)
    requires Keyed(s.client) && s.client.outPacket != [] && s.toClient == [] && s.broker.connected
    ensures var (b, replies) := Receive(s.broker, s.client.outPacket[0]);
      Next(s, BrokerReceive) == System(s.client.(outPacket := s.client.outPacket[1..]), b, replies)
  {
    assert [] + Receive(s.broker, s.client.outPacket[0]).1 == Receive(s.broker, s.client.outPacket[0]).1;
  }

  lemma ClientTurn(s: System, replies: seq<Packet>)
    requires Keyed(s.client) && s.client.link.Up? && s.toClient == replies && |replies| <= 1
    ensures Next(s, ClientReceive) == if replies == [] then s else System(Process(s.client, replies[0]), s.broker, [])
  {
    hide Process;
    if replies != [] {
      assert replies[1..] == [];
    }
  }

  lemma GrantTurn(s: System, n: nat)
    requires Keyed(s.client) && s.client.link.Up?
    ensures Next(s, Grant(n)) == s.(client := s.client.(link := Up(n)))
  {
  }

  lemma OneReply(b: Broker, p: Packet)
    ensures |Receive(b, p).1| <= 1
  {
  }

  lemma RoundRuns(s: System)
    requires Calm(s) && s.client.outPacket != []
    ensures Run(s, RoundSteps(|s.client.order| + 1)) == AfterRound(s)
  {
    OneReply(s.broker, s.client.outPacket[0]);
    assert Keyed(s.client);
    hide Run, Next, Process, Receive, Keyed, Ok;
    var n := |s.client.order| + 1;
    RunThree(s, BrokerReceive, Grant(n), ClientReceive);
    BrokerTurn(s);
    var s1 := Next(s, BrokerReceive);
    GrantTurn(s1, n);
    ClientTurn(Next(s1, Grant(n)), Receive(s.broker, s.client.outPacket[0]).1);
  }

  lemma RoundGrows(s: System)
    requires Keyed(s.client) && s.client.outPacket != [] && !s.client.outPacket[0].Connect?
    ensures s.client.outPacket[1..] <= AfterRound(s).client.outPacket && AfterRound(s).client.link.Up?
    ensures s.broker.onward <= AfterRound(s).broker.onward && AfterRound(s).broker.early == s.broker.early
    ensures AfterRound(s).broker.connected == s.broker.connected
  {
    var replies := Receive(s.broker, s.client.outPacket[0]).1;
    if replies != [] {
      var c := s.client.(outPacket := s.client.outPacket[1..], link := Up(|s.client.order| + 1));
      AckSucceeds(c, replies[0]);
      ProcessGrows(c, replies[0]);
    }
  }

  lemma RoundCalm(s: System)
    requires Calm(s) && s.client.outPacket != []
    ensures Calm(AfterRound(s))
  {
    RoundRuns(s);
    RunKeeps(s, RoundSteps(|s.client.order| + 1));
    RoundGrows(s);
  }

  lemma ReceiveOther(b: Broker, p: Packet, mid: nat)
    requires !p.Connect? && (IsSend(p) ==> p.mid != mid)
    ensures mid in Receive(b, p).0.store <==> mid in b.store
    ensures mid in b.store ==> Receive(b, p).0.store[mid] == b.store[mid]
    ensures forall r :: r in Receive(b, p).1 && IsAck(r) ==> r.mid != mid
  {
  }

  lemma RoundOther(s: System, mid: nat)
    requires Keyed(s.client) && s.client.outPacket != [] && !s.client.outPacket[0].Connect?
    requires mid in s.client.table && Rank(s.client.table[mid]) == 1
    requires IsSend(s.client.outPacket[0]) ==> s.client.outPacket[0].mid != mid
    ensures mid in AfterRound(s).client.table && AfterRound(s).client.table[mid] == s.client.table[mid]
    ensures mid in AfterRound(s).broker.store <==> mid in s.broker.store
    ensures mid in s.broker.store ==> AfterRound(s).broker.store[mid] == s.broker.store[mid]
  {
    ReceiveOther(s.broker, s.client.outPacket[0], mid);
    var replies := Receive(s.broker, s.client.outPacket[0]).1;
    if replies != [] {
      var c := s.client.(outPacket := s.client.outPacket[1..], link := Up(|s.client.order| + 1));
      OtherAck(c, replies[0], mid);
    }
  }

  // ---------- bringing a packet to the head of its channel ----------

  /** The broker has handed onward what it had, and message `mid` is where it was. */
  ghost predicate MovesOn(s: System, s1: System, mid: nat) {
    && s.broker.onward <= s1.broker.onward && s1.broker.early == s.broker.early
    && mid in s.client.table && mid in s1.client.table && s1.client.table[mid] == s.client.table[mid]
    && (mid in s1.broker.store <==> mid in s.broker.store)
    && (mid in s.broker.store ==> s1.broker.store[mid] == s.broker.store[mid])
  }

  lemma MovesOnTransitive(s: System, s1: System, s2: System, mid: nat)
    requires MovesOn(s, s1, mid) && MovesOn(s1, s2, mid)
    ensures MovesOn(s, s2, mid)
  {
    PrefixTransitive(s.broker.onward, s1.broker.onward, s2.broker.onward);
  }

  lemma PrefixTransitive(a: seq<nat>, b: seq<nat>, c: seq<nat>)
    requires a <= b && b <= c
    ensures a <= c
  {
  }

  predicate NoReset(steps: seq<Step>) {
    forall i :: 0 <= i < |steps| ==> !steps[i].Reopen?
  }

  lemma {:induction false} BringToHead(s: System, i: nat) returns (steps: seq<Step>)
    requires Calm(s) && Keyed(s.client) && i < |s.client.outPacket| && IsSend(s.client.outPacket[i])
    ensures var p := s.client.outPacket[i];
      var s1 := Run(s, steps);
      && NoReset(steps) && Calm(s1) && MovesOn(s, s1, p.mid)
      && s1.client.outPacket != [] && s1.client.outPacket[0] == p
    decreases i
  {
    hide Calm, Ok, AfterRound;
    var p := s.client.outPacket[i];
    CalmHead(s, i);
    if i == 0 {
      steps := [];
    } else {
      var round := RoundSteps(|s.client.order| + 1);
      FirstIsOther(s, i);
      RoundCalm(s);
      RoundGrows(s);
      RoundOther(s, p.mid);
      RoundRuns(s);
      var s1 := AfterRound(s);
      assert s1.client.outPacket[i - 1] == s.client.outPacket[1..][i - 1] == p;
      var more := BringToHead(s1, i - 1);
      RunConcat(s, round, more);
      steps := round + more;
      MovesOnTransitive(s, s1, Run(s1, more), p.mid);
    }
  }

  lemma CalmHead0(s: System)
    requires Calm(s)
    ensures Keyed(s.client) && s.broker.connected
  {
  }

  lemma CalmHead(s: System, i: nat)
    requires Calm(s) && i < |s.client.outPacket| && IsSend(s.client.outPacket[i])
    ensures Ok(s) && !s.client.outPacket[0].Connect? && !s.client.outPacket[i].Connect?
    ensures s.client.outPacket[i].mid in s.client.table
  {
    assert SendFits(s.client.table, s.client.outPacket[i]);
  }

  lemma FirstIsOther(s: System, i: nat)
    requires Ok(s) && 0 < i < |s.client.outPacket| && IsSend(s.client.outPacket[i])
    ensures IsSend(s.client.outPacket[0]) ==> s.client.outPacket[0].mid != s.client.outPacket[i].mid
    ensures Rank(s.client.table[s.client.outPacket[i].mid]) == 1
  {
    var p := s.client.outPacket[i];
    assert SendFits(s.client.table, p);
    assert Load(s.client.outPacket, s.toClient, p.mid) <= 1;
    assert s.client.outPacket[1..][i - 1] == p;
    SendCounts(s.client.outPacket[1..], p.mid);
  }

  // ---------- connecting again ----------

  lemma {:induction false} OwedHas(order: seq<nat>, table: map<nat, Msg>, k: nat) returns (i: nat)
    requires k in order && (forall l :: l in order ==> l in table) && table[k].state.ReadyToPublish?
    ensures i < |Owed(order, table)| && Owed(order, table)[i] == PublishOf(k, table[k])
  {
    if order[0] == k {
      i := 0;
    } else {
      assert order == [order[0]] + order[1..];
      assert order[0] in order;
      forall l | l in order[1..] ensures l in table {
        assert l in order;
      }
      var j := OwedHas(order[1..], table, k);
      i := |Owed(order, table)| - |Owed(order[1..], table)| + j;
    }
  }

  function Reset(c: Session, clean: bool, outPacket: seq<Packet>, writes: nat): Session {
    ResetIn(ResetOut(c, clean), clean).(outPacket := outPacket, link := Up(writes))
  }

  /** The broker has taken the CONNECT. */
  function Accepts(b: Broker, clean: bool): Broker {
    b.(connected := true, store := if clean then map[] else b.store)
  }

  lemma ReopenClient(s: System, clean: bool, link: Link)
    requires Keyed(s.client)
    ensures Next(s, Reopen(clean, link)) == System(Reconnect(s.client, clean, link), s.broker.(connected := false), [])
  {
    hide Reconnect;
  }

  lemma ReopenIs(s: System, clean: bool)
    requires Keyed(s.client)
    ensures Next(s, Reopen(clean, Up(1)))
         == System(Reset(s.client, clean, [Connect(clean)], 0), s.broker.(connected := false), [])
  {
  }

  lemma ConnectsAgain(c: Session, clean: bool, b: Broker, writes: nat)
    requires Keyed(c)
    ensures var s := System(Reset(c, clean, [Connect(clean)], 0), b.(connected := false), []);
      Run(s, RoundSteps(writes)) == System(Process(Reset(c, clean, [], writes), Connack), Accepts(b, clean), [])
  {
    var s := System(Reset(c, clean, [Connect(clean)], 0), b.(connected := false), []);
    ResetKeyed(c, clean);
    RunThree(s, BrokerReceive, Grant(writes), ClientReceive);
    ResetAgain(c, clean, writes);
    hide Reset, Process, Keyed;
    TakesConnect(Reset(c, clean, [Connect(clean)], 0), b.(connected := false), clean);
    GrantTurn(System(Reset(c, clean, [], 0), Accepts(b, clean), [Connack]), writes);
    ClientTurn(System(Reset(c, clean, [], writes), Accepts(b, clean), [Connack]), [Connack]);
    hide Next;
  }

  lemma ResetKeyed(c: Session, clean: bool)
    requires Keyed(c)
    ensures forall outPacket, writes :: Keyed(Reset(c, clean, outPacket, writes))
  {
  }

  lemma ResetAgain(c: Session, clean: bool, writes: nat)
    ensures Reset(c, clean, [Connect(clean)], 0).(outPacket := []) == Reset(c, clean, [], 0)
    ensures Reset(c, clean, [], 0).(link := Up(writes)) == Reset(c, clean, [], writes)
    ensures Reset(c, clean, [Connect(clean)], 0).outPacket == [Connect(clean)] && Reset(c, clean, [], 0).link.Up?
    ensures Reset(c, clean, [], writes).link.Up?
  {
    hide ResetOut, ResetIn;
  }

  lemma TakesConnect(c: Session, b: Broker, clean: bool)
    requires Keyed(c) && c.outPacket == [Connect(clean)]
    ensures Next(System(c, b, []), BrokerReceive) == System(c.(outPacket := []), Accepts(b, clean), [Connack])
  {
    assert [Connect(clean)][1..] == [];
  }

  /** Connecting again up to the handled CONNACK. */
  function Reconnected(s: System, clean: bool): System
    requires Keyed(s.client)
  {
    System(Process(Reset(s.client, clean, [], |s.client.order| + 1), Connack), Accepts(s.broker, clean), [])
  }

  lemma ReconnectRuns(s: System, clean: bool)
    requires Keyed(s.client)
    ensures Run(s, [Reopen(clean, Up(1))] + RoundSteps(|s.client.order| + 1)) == Reconnected(s, clean)
  {
    RunConcat(s, [Reopen(clean, Up(1))], RoundSteps(|s.client.order| + 1));
    RunSnoc(s, [], Reopen(clean, Up(1)));
    assert [] + [Reopen(clean, Up(1))] == [Reopen(clean, Up(1))];
    ReopenIs(s, clean);
    ConnectsAgain(s.client, clean, s.broker, |s.client.order| + 1);
  }

  lemma ResetRows(c: Session, clean: bool, writes: nat)
    requires Rows(c.table, c.accepted)
    ensures Rows(Reset(c, clean, [], writes).table, c.accepted)
  {
    hide Reset;
    ResetLeaves(c, clean, writes);
    forall k | k in c.table
      ensures StateFits(ResetMsg(c.table[k], clean)) && ResetMsg(c.table[k], clean).body == c.table[k].body
    {
      assert StateFits(c.table[k]);
    }
  }

  lemma ResetSorted(c: Session, clean: bool, writes: nat)
    requires Sorted(c.order, c.table)
    ensures Sorted(c.order, Reset(c, clean, [], writes).table)
    ensures Ranked(c.order, Reset(c, clean, [], writes).table, 0)
  {
    hide ResetIn;
    var t := ResetOut(c, clean).table;
    Window.ResetEmpties(c, clean);
    assert forall k :: k in c.table ==> t[k].body == c.table[k].body;
    assert Reset(c, clean, [], writes).table == t by {
      ResetLeaves(c, clean, writes);
    }
  }

  lemma ConnackSends(c: Session, mid: nat) returns (i: nat)
    requires Sorted(c.order, c.table) && Rows(c.table, c.accepted) && Ranked(c.order, c.table, 0)
    requires mid in c.table && c.table[mid].state.ReadyToPublish? && c.outPacket == []
    requires c.link.Up? && c.link.writes > |c.order|
    ensures var c1 := Process(c, Connack);
      && c1.link.Up? && mid in c1.table
      && c1.table[mid] == c.table[mid].(state := c1.table[mid].state)
      && i < |c1.outPacket| && c1.outPacket[i] == PublishOf(mid, c1.table[mid])
  {
    hide Process, Owed;
    Window.ProcessConnack(c);
    i := OwedHas(c.order, c.table, mid);
    assert [] + Owed(c.order, c.table) == Owed(c.order, c.table);
  }

  lemma ReconnectCalm(s: System, clean: bool)
    requires Keyed(s.client) && Ok(s) && Reconnected(s, clean).client.link.Up?
    ensures Calm(Reconnected(s, clean))
  {
    hide Ok, Run, Process;
    ReconnectRuns(s, clean);
    RunKeeps(s, [Reopen(clean, Up(1))] + RoundSteps(|s.client.order| + 1));
  }

  lemma ResetLeaves(c: Session, clean: bool, writes: nat)
    ensures var c0 := Reset(c, clean, [], writes);
      && c0.table == ResetOut(c, clean).table && c0.order == c.order && c0.table.Keys == c.table.Keys
      && c0.accepted == c.accepted && c0.outPacket == [] && c0.link == Up(writes)
  {
  }
}
