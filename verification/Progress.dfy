/** No accepted message is ever stuck: whatever has happened, one more connection that lasts long enough
    completes them all, in whatever order broker and client take the packets. */
module Progress {
  import opened QosSession
  import opened Network
  import opened Wire
  import opened Conservation
  import opened Resend
  import opened Rounds
  import Window

  /** Each message of the table has a packet under way that carries it forward. */
  ghost predicate UnderWay(table: map<nat, Msg>, sends: seq<Packet>, acks: seq<Packet>) {
    forall k :: k in table ==> Rank(table[k]) == 1 && Load(sends, acks, k) > 0
  }

  /** Connected, with nothing but acknowledgements on the way to the client. */
  ghost predicate Moving(s: System) {
    && Ok(s) && s.client.link.Up? && s.broker.connected
    && (forall p :: p in s.toClient ==> IsAck(p))
    && UnderWay(s.client.table, s.client.outPacket, s.toClient)
  }

  // ---------- how much is left to do ----------

  /** The deliveries that a packet to the broker stands for, its own and those that follow from it. */
  function SendCost(p: Packet): nat {
    if p.Publish? && p.qos == 2 then 4 else if IsSend(p) then 2 else 1
  }

  function AckCost(p: Packet): nat {
    if p.Pubrec? then 3 else 1
  }

  function Sum(q: seq<Packet>, cost: Packet -> nat): nat {
    if q == [] then 0 else cost(q[0]) + Sum(q[1..], cost)
  }

  function Effort(s: System): nat {
    Sum(s.client.outPacket, SendCost) + Sum(s.toClient, AckCost)
  }

  lemma {:induction false} SumAppend(q: seq<Packet>, p: Packet, cost: Packet -> nat)
    ensures Sum(q + [p], cost) == Sum(q, cost) + cost(p)
  {
    if q == [] {
      assert q + [p] == [p];
    } else {
      assert (q + [p])[1..] == q[1..] + [p];
      SumAppend(q[1..], p, cost);
    }
  }

  lemma NoEffort(s: System)
    ensures Effort(s) == 0 <==> s.client.outPacket == [] && s.toClient == []
  {
  }

  lemma NothingLeft(s: System)
    requires Moving(s) && Effort(s) == 0
    ensures s.client.table == map[]
  {
    NoEffort(s);
    forall k ensures k !in s.client.table {
      assert Load(s.client.outPacket, s.toClient, k) == 0;
    }
  }

  // ---------- the broker takes a packet ----------

  lemma ReplyIs(table: map<nat, Msg>, b: Broker, p: Packet)
    requires !p.Connect? && (IsSend(p) ==> SendFits(table, p) && StateFits(table[p.mid]))
    ensures !IsSend(p) ==> Receive(b, p).1 == []
    ensures IsSend(p) ==> var replies := Receive(b, p).1;
      |replies| == 1 && IsAck(replies[0]) && replies[0].mid == p.mid && SendCost(p) == 1 + AckCost(replies[0])
    ensures Receive(b, p).0.connected == b.connected
  {
  }

  /** The reply takes the place of the packet. */
  lemma LoadMoves(p: Packet, rest: seq<Packet>, acks: seq<Packet>, r: Packet, mid: nat)
    requires IsSend(p) && IsAck(r) && r.mid == p.mid
    ensures Load(rest, acks + [r], mid) == Load([p] + rest, acks, mid)
  {
    AckCountAppend(acks, r, mid);
    assert ([p] + rest)[1..] == rest;
  }

  lemma LoadStays(p: Packet, rest: seq<Packet>, acks: seq<Packet>, mid: nat)
    requires !IsSend(p)
    ensures Load(rest, acks, mid) == Load([p] + rest, acks, mid)
  {
    assert ([p] + rest)[1..] == rest;
  }

  lemma FirstFits(s: System)
    requires Moving(s) && s.client.outPacket != []
    ensures Ok(s) && !s.client.outPacket[0].Connect?
    ensures var p := s.client.outPacket[0];
      IsSend(p) ==> SendFits(s.client.table, p) && StateFits(s.client.table[p.mid])
  {
    var p := s.client.outPacket[0];
    assert IsSend(p) ==> SendFits(s.client.table, p);
  }

  lemma StillUnderWay(table: map<nat, Msg>, p: Packet, rest: seq<Packet>, acks: seq<Packet>, replies: seq<Packet>)
    requires UnderWay(table, [p] + rest, acks)
    requires if IsSend(p) then |replies| == 1 && IsAck(replies[0]) && replies[0].mid == p.mid else replies == []
    ensures UnderWay(table, rest, acks + replies)
  {
    forall k | k in table ensures Load(rest, acks + replies, k) > 0 {
      if IsSend(p) {
        LoadMoves(p, rest, acks, replies[0], k);
        assert replies == [replies[0]];
      } else {
        LoadStays(p, rest, acks, k);
        assert acks + replies == acks;
      }
    }
  }

  lemma TakesOne(p: Packet, rest: seq<Packet>, acks: seq<Packet>, replies: seq<Packet>)
    requires if IsSend(p) then |replies| == 1 && SendCost(p) == 1 + AckCost(replies[0]) else replies == []
    ensures Sum(rest, SendCost) + Sum(acks + replies, AckCost) + 1 == Sum([p] + rest, SendCost) + Sum(acks, AckCost)
  {
    assert ([p] + rest)[1..] == rest;
    if IsSend(p) {
      SumAppend(acks, replies[0], AckCost);
      assert replies == [replies[0]];
    } else {
      assert acks + replies == acks;
    }
  }

  lemma BrokerMoves(s: System)
    requires Moving(s) && Keyed(s.client) && s.client.outPacket != []
    ensures var r := Next(s, BrokerReceive);
      Moving(r) && Effort(r) + 1 == Effort(s) && r.client.accepted == s.client.accepted
  {
    hide Ok, UnderWay, Receive, SendCost, AckCost, Sum;
    var p, rest := s.client.outPacket[0], s.client.outPacket[1..];
    var (b, replies) := Receive(s.broker, p);
    assert s.client.outPacket == [p] + rest;
    FirstFits(s);
    ReplyIs(s.client.table, s.broker, p);
    StillUnderWay(s.client.table, p, rest, s.toClient, replies);
    TakesOne(p, rest, s.toClient, replies);
    NextKeeps(s, BrokerReceive);
  }

  // ---------- the client takes one ----------

  /** With nothing held back the refill has nothing to do. */
  lemma {:induction false} NothingToStart(c: Session, i: nat)
    requires Keyed(c) && forall k :: k in c.table ==> !c.table[k].state.Queued?
    ensures UpdateInflight(c, i) == (c, Success)
    decreases |c.order| - i
  {
    if i < |c.order| && c.inflight < c.config.maxInflight {
      NothingToStart(c, i + 1);
    }
  }

  /** The next state of the message, or none when the acknowledgement completes it. */
  lemma AckHandled(c: Session, p: Packet)
    requires Keyed(c) && c.link.Up? && c.link.writes > 0 && IsAck(p) && AckFits(c.table, p)
    requires forall k :: k in c.table ==> Rank(c.table[k]) == 1
    ensures var c1 := Process(c, p);
      && c1.accepted == c.accepted && c1.link.Up?
      && if p.Pubrec? then
           && c1.table == c.table[p.mid := c.table[p.mid].(state := WaitForPubcomp)]
           && c1.outPacket == c.outPacket + [Pubrel(p.mid)]
         else
           c1.table == c.table - {p.mid} && c1.outPacket == c.outPacket
  {
    if !p.Pubrec? {
      NothingToStart(Complete(c, p.mid), 0);
    }
  }

  lemma AckFitsFirst(s: System)
    requires Moving(s) && s.toClient != []
    ensures Ok(s) && IsAck(s.toClient[0]) && AckFits(s.client.table, s.toClient[0])
    ensures forall k :: k in s.client.table ==> Rank(s.client.table[k]) == 1
  {
  }

  /** The PUBREL takes the place of the PUBREC. */
  lemma ReleaseUnderWay(table: map<nat, Msg>, sends: seq<Packet>, a: Packet, rest: seq<Packet>)
    requires UnderWay(table, sends, [a] + rest) && a.Pubrec? && a.mid in table
    ensures UnderWay(table[a.mid := table[a.mid].(state := WaitForPubcomp)], sends + [Pubrel(a.mid)], rest)
  {
    forall k | k in table ensures Load(sends + [Pubrel(a.mid)], rest, k) > 0 {
      SendCountAppend(sends, Pubrel(a.mid), k);
      assert ([a] + rest)[1..] == rest;
      assert Load(sends, [a] + rest, k) > 0;
    }
  }

  lemma OthersUnderWay(table: map<nat, Msg>, sends: seq<Packet>, a: Packet, rest: seq<Packet>)
    requires UnderWay(table, sends, [a] + rest) && IsAck(a)
    ensures UnderWay(table - {a.mid}, sends, rest)
  {
    forall k | k in table && k != a.mid ensures Load(sends, rest, k) > 0 {
      assert ([a] + rest)[1..] == rest;
      assert Load(sends, [a] + rest, k) > 0;
    }
  }

  lemma ClientMoves(s: System)
    requires Moving(s) && Keyed(s.client) && s.toClient != [] && s.client.link.writes > 0
    ensures var r := Next(s, ClientReceive);
      Moving(r) && Effort(r) + 1 == Effort(s) && r.client.accepted == s.client.accepted
  {
    hide Ok, UnderWay, Process, AckFits;
    var a, rest := s.toClient[0], s.toClient[1..];
    assert s.toClient == [a] + rest;
    AckFitsFirst(s);
    AckHandled(s.client, a);
    NextKeeps(s, ClientReceive);
    if a.Pubrec? {
      ReleaseUnderWay(s.client.table, s.client.outPacket, a, rest);
      SumAppend(s.client.outPacket, Pubrel(a.mid), SendCost);
    } else {
      OthersUnderWay(s.client.table, s.client.outPacket, a, rest);
    }
  }

  // ---------- every schedule ----------

  /** The broker or the client takes a packet that is there for it, the client with writes that succeed;
      how many do may be chosen anew at any time. */
  predicate Delivery(s: System, step: Step) {
    match step
    case BrokerReceive => s.client.outPacket != []
    case ClientReceive => s.toClient != [] && s.client.link.Up? && s.client.link.writes > 0
    case Grant(_) => true
    case _ => false
  }

  /** Any interleaving of such deliveries. */
  ghost predicate Schedule(s: System, steps: seq<Step>)
    requires Keyed(s.client)
    decreases |steps|
  {
    steps != [] ==> Delivery(s, steps[0]) && Schedule(Next(s, steps[0]), steps[1..])
  }

  function Deliveries(steps: seq<Step>): nat {
    if steps == [] then 0 else Deliveries(steps[1..]) + if steps[0].Grant? then 0 else 1
  }

  lemma GrantMoves(s: System, writes: nat)
    requires Moving(s) && Keyed(s.client)
    ensures var r := Next(s, Grant(writes));
      Moving(r) && Effort(r) == Effort(s) && r.client.accepted == s.client.accepted
  {
    NextKeeps(s, Grant(writes));
    hide Ok, UnderWay;
  }

  /** Each delivery keeps things moving and leaves one less to do. */
  lemma DeliveryMoves(s: System, step: Step)
    requires Moving(s) && Keyed(s.client) && Delivery(s, step)
    ensures var r := Next(s, step);
      && Moving(r) && r.client.accepted == s.client.accepted
      && Effort(r) + (if step.Grant? then 0 else 1) == Effort(s)
  {
    hide Moving, Effort, Next, Keyed;
    match step
    case BrokerReceive => BrokerMoves(s);
    case ClientReceive => ClientMoves(s);
    case Grant(writes) => GrantMoves(s, writes);
  }

  lemma {:induction false} ScheduleMoves(s: System, steps: seq<Step>)
    requires Moving(s) && Keyed(s.client) && Schedule(s, steps)
    ensures var r := Run(s, steps);
      Moving(r) && Effort(r) + Deliveries(steps) == Effort(s) && r.client.accepted == s.client.accepted
    decreases |steps|
  {
    hide Moving, Effort, Next, Delivery;
    if steps != [] {
      DeliveryMoves(s, steps[0]);
      ScheduleMoves(Next(s, steps[0]), steps[1..]);
    }
  }

  /** What can be done while something is left to do. */
  function Onward(s: System): seq<Step> {
    if s.client.outPacket != [] then [BrokerReceive] else [Grant(1)] + [ClientReceive]
  }

  lemma OnwardMoves(s: System)
    requires Moving(s) && Keyed(s.client) && Effort(s) > 0
    ensures Schedule(s, Onward(s)) && Deliveries(Onward(s)) == 1 && NoReset(Onward(s))
  {
    NoEffort(s);
    hide Effort;
    if s.client.outPacket == [] {
      var s1 := Next(s, Grant(1));
      assert [Grant(1), ClientReceive][1..] == [ClientReceive] && [ClientReceive][1..] == [];
      assert Schedule(s1, [ClientReceive]) && Deliveries([ClientReceive]) == 1;
    } else {
      assert [BrokerReceive][1..] == [];
    }
  }

  lemma {:induction false} ScheduleConcat(s: System, a: seq<Step>, b: seq<Step>)
    requires Keyed(s.client)
    ensures Schedule(s, a + b) <==> Schedule(s, a) && Schedule(Run(s, a), b)
    ensures Deliveries(a + b) == Deliveries(a) + Deliveries(b)
    decreases |a|
  {
    hide Next, Delivery;
    if a == [] {
      assert a + b == b;
    } else {
      assert (a + b)[1..] == a[1..] + b;
      ScheduleConcat(Next(s, a[0]), a[1..], b);
    }
  }

  /** Delivery after delivery until nothing is left to do. */
  lemma {:induction false} RunsDry(s: System) returns (steps: seq<Step>)
    requires Moving(s) && Keyed(s.client)
    ensures Schedule(s, steps) && NoReset(steps) && Deliveries(steps) == Effort(s)
    decreases Effort(s)
  {
    hide Moving, Effort, Next, Delivery, Onward;
    if Effort(s) == 0 {
      steps := [];
    } else {
      OnwardMoves(s);
      ScheduleMoves(s, Onward(s));
      var more := RunsDry(Run(s, Onward(s)));
      ScheduleConcat(s, Onward(s), more);
      steps := Onward(s) + more;
    }
  }

  // ---------- a new connection ----------

  /** The resend loop after a reset puts every message's packet on its way. */
  lemma {:induction false} OwedForEach(order: seq<nat>, table: map<nat, Msg>, k: nat)
    requires k in order && (forall l :: l in order ==> l in table && StateFits(table[l]) && Rank(table[l]) == 0)
    ensures exists p :: p in Owed(order, table) && IsSend(p) && p.mid == k
  {
    var rest := order[1..];
    assert order == [order[0]] + rest;
    assert forall l :: l in rest ==> l in order;
    assert order[0] in order;
    var more := Owed(rest, table);
    var head := if table[order[0]].state.ReadyToPublish? then PublishOf(order[0], table[order[0]])
                else Pubrel(order[0]);
    assert Owed(order, table) == [head] + more;
    if order[0] == k {
      assert head in Owed(order, table);
    } else {
      OwedForEach(rest, table, k);
      var p :| p in more && IsSend(p) && p.mid == k;
      assert p in Owed(order, table);
    }
  }

  lemma AllOwed(c: Session, r: Session)
    requires Sorted(c.order, c.table) && Rows(c.table, c.accepted) && AllResent(c, r) && c.outPacket == []
    requires forall k :: k in c.table ==> Rank(c.table[k]) == 0
    ensures UnderWay(r.table, r.outPacket, []) && r.accepted == c.accepted && r.link.Up?
  {
    hide Owed;
    assert [] + Owed(c.order, c.table) == Owed(c.order, c.table);
    forall k | k in r.table ensures Rank(r.table[k]) == 1 && Load(r.outPacket, [], k) > 0 {
      assert k in c.order;
      OwedForEach(c.order, c.table, k);
      SendCounts(r.outPacket, k);
    }
  }

  lemma StartsMoving(s: System, clean: bool)
    requires Keyed(s.client) && Ok(s)
    ensures Moving(Reconnected(s, clean)) && Reconnected(s, clean).client.accepted == s.client.accepted
  {
    var writes := |s.client.order| + 1;
    var c0 := Reset(s.client, clean, [], writes);
    ResetLeaves(s.client, clean, writes);
    ResetRows(s.client, clean, writes);
    ResetSorted(s.client, clean, writes);
    Window.ResetEmpties(s.client, clean);
    hide Reset, ResetOut, Process, Ranked, Owed, UnderWay, AllResent, Calm;
    Window.ProcessConnack(c0);
    AllOwed(c0, Process(c0, Connack));
    ReconnectCalm(s, clean);
    CalmIs(Reconnected(s, clean));
  }

  lemma CalmIs(s: System)
    requires Calm(s)
    ensures Ok(s) && s.client.link.Up? && s.broker.connected && s.toClient == []
  {
  }

  lemma MovingKeyed(s: System)
    requires Moving(s)
    ensures Keyed(s.client)
  {
  }

  lemma AllCompleted(c: Session)
    requires Partition(c) && c.table == map[]
    ensures forall body: nat :: body < c.accepted ==> InCompleted(c.completed, body)
  {
  }

  /** The run up to the handled CONNACK and on. */
  function Connecting(s: System, clean: bool): seq<Step> {
    [Reopen(clean, Up(1))] + RoundSteps(|s.client.order| + 1)
  }

  lemma DryIsComplete(config: Config, early: bool, steps: seq<Step>, clean: bool, more: seq<Step>)
    requires var s := Run(Initial(config, early), steps);
      Run(Reconnected(s, clean), more).client.table == map[]
    ensures var s := Run(Initial(config, early), steps); var r := Run(Reconnected(s, clean), more);
      && r == Run(Initial(config, early), steps + (Connecting(s, clean) + more))
      && forall body: nat :: body < r.client.accepted ==> InCompleted(r.client.completed, body)
  {
    hide Run, Reconnected, Partition, WithinLimit, Connecting;
    var s0 := Initial(config, early);
    var s := Run(s0, steps);
    ConnectingRuns(s, clean);
    RunConcat(s, Connecting(s, clean), more);
    RunConcat(s0, steps, Connecting(s, clean) + more);
    NothingIsLost(config, early, steps + (Connecting(s, clean) + more));
    AllCompleted(Run(Reconnected(s, clean), more).client);
  }

  lemma ConnectingRuns(s: System, clean: bool)
    requires Keyed(s.client)
    ensures Run(s, Connecting(s, clean)) == Reconnected(s, clean)
  {
    hide Run, Reconnected;
    ReconnectRuns(s, clean);
  }

  lemma ReachedMoving(config: Config, early: bool, steps: seq<Step>, clean: bool)
    ensures var s := Run(Initial(config, early), steps);
      && Keyed(s.client) && Moving(Reconnected(s, clean)) && Keyed(Reconnected(s, clean).client)
      && Reconnected(s, clean).client.accepted == s.client.accepted
  {
    hide Run, Ok, Moving, Reconnected;
    InitialOk(config, early);
    RunKeeps(Initial(config, early), steps);
    StartsMoving(Run(Initial(config, early), steps), clean);
    MovingKeyed(Reconnected(Run(Initial(config, early), steps), clean));
  }

  /** From every state that a run can reach, one reconnection, for a clean session or a kept one, and
      finitely many deliveries complete every message that was accepted. */
  lemma CanComplete(config: Config, early: bool, steps: seq<Step>, clean: bool) returns (more: seq<Step>)
    ensures var s := Run(Initial(config, early), steps);
      var c := Run(Initial(config, early), steps + ([Reopen(clean, Up(1))] + more)).client;
      && NoReset(more) && c.table == map[] && c.accepted == s.client.accepted
      && forall body: nat :: body < s.client.accepted ==> InCompleted(c.completed, body)
  {
    hide Run, Moving, Reconnected, Schedule, Effort;
    ReachedMoving(config, early, steps, clean);
    var s := Run(Initial(config, early), steps);
    var s1 := Reconnected(s, clean);
    var dry := RunsDry(s1);
    ScheduleMoves(s1, dry);
    NothingLeft(Run(s1, dry));
    DryIsComplete(config, early, steps, clean, dry);
    var round := RoundSteps(|s.client.order| + 1);
    more := round + dry;
    assert Connecting(s, clean) + dry == [Reopen(clean, Up(1))] + more;
  }

  /** And they complete it in whatever order the broker and the client take the packets: an interleaving
      that cannot go on has as many deliveries as every other, and leaves no message; and as long as it
      has fewer it can go on. */
  lemma EveryScheduleCompletes(config: Config, early: bool, steps: seq<Step>, clean: bool, more: seq<Step>)
    requires Schedule(Reconnected(Run(Initial(config, early), steps), clean), more)
    ensures var s := Reconnected(Run(Initial(config, early), steps), clean); var r := Run(s, more);
      && Deliveries(more) <= Effort(s)
      && (Deliveries(more) == Effort(s) <==> r.client.outPacket == [] && r.toClient == [])
      && (Deliveries(more) == Effort(s) ==>
            && r.client.table == map[]
            && forall body: nat :: body < s.client.accepted ==> InCompleted(r.client.completed, body))
      && (Deliveries(more) < Effort(s) ==>
            Schedule(s, more + Onward(r)) && Deliveries(more + Onward(r)) == Deliveries(more) + 1)
  {
    hide Run, Moving, Reconnected, Schedule, Effort, Onward;
    ReachedMoving(config, early, steps, clean);
    var s := Reconnected(Run(Initial(config, early), steps), clean);
    ScheduleMoves(s, more);
    var r := Run(s, more);
    NoEffort(r);
    MovingKeyed(r);
    if Deliveries(more) == Effort(s) {
      NothingLeft(r);
      DryIsComplete(config, early, steps, clean, more);
    } else {
      OnwardMoves(r);
      ScheduleConcat(s, more, Onward(r));
    }
  }
}
