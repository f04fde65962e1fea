/** How many messages are part way through their flow at once: exactly when a step takes their number
    above the window. */
module InFlight {
  import opened QosSession
  import opened Network
  import opened Numbers
  import opened Wire
  import opened Resend
  import opened Rounds
  import opened Window
  import Loops

  /** The messages under way. */
  function UnderWay(c: Session): nat {
    |Waiting(c.table)|
  }

  /** The messages held back, from a position of the table on. */
  function Held(order: seq<nat>, table: map<nat, Msg>): nat
    requires forall k :: k in order ==> k in table
  {
    if order == [] then 0
    else Held(order[1..], table) + if table[order[0]].state.Queued? then 1 else 0
  }

  /** How many messages a refill starts: those held back, as far as the counter leaves room; a write
      that fails is the last. */
  function Startable(c: Session): nat
    requires Keyed(c) && c.link.Up?
  {
    Min(Held(c.order, c.table), Min(Max(c.config.maxInflight - c.inflight, 0), c.link.writes + 1))
  }

  lemma HeldFrame(order: seq<nat>, t1: map<nat, Msg>, t2: map<nat, Msg>)
    requires forall k :: k in order ==> k in t1 && k in t2 && t1[k] == t2[k]
    ensures Held(order, t1) == Held(order, t2)
  {
    if order != [] {
      assert order[0] in order;
      assert forall k :: k in order[1..] ==> k in order;
      HeldFrame(order[1..], t1, t2);
    }
  }

  /** Starting the message at position `i` leaves those behind it as they are. */
  lemma HeldNext(order: seq<nat>, table: map<nat, Msg>, i: nat, m: Msg)
    requires i < |order| && Distinct(order) && (forall k :: k in order ==> k in table)
    ensures forall k :: k in order[i + 1..] ==> k in table && k in table[order[i] := m]
    ensures forall k :: k in order[i..] ==> k in table
    ensures Held(order[i + 1..], table[order[i] := m]) == Held(order[i + 1..], table)
    ensures Held(order[i..], table)
         == Held(order[i + 1..], table) + if table[order[i]].state.Queued? then 1 else 0
  {
    var rest := order[i + 1..];
    assert order[i..][0] == order[i] && order[i..][1..] == rest;
    forall k | k in rest ensures k in table && k != order[i] {
      var j :| 0 <= j < |rest| && rest[j] == k;
      assert rest[j] == order[i + 1 + j];
    }
    HeldFrame(rest, table, table[order[i] := m]);
  }

  lemma StartCounts(c: Session, mid: nat)
    requires mid in c.table && c.table[mid].state.Queued? && c.link.Up?
    ensures var (c1, rc) := Start(c, mid, false);
      && c1.table == c.table[mid := c.table[mid].(state := FirstState(c.table[mid].qos))]
      && UnderWay(c1) == UnderWay(c) + 1 && c1.inflight == c.inflight + 1
      && c1.order == c.order && c1.config == c.config && (Keyed(c) ==> Keyed(c1))
    ensures var (c1, rc) := Start(c, mid, false);
      if c.link.writes == 0 then rc == ConnLost else rc == Success && c1.link == Up(c.link.writes - 1)
  {
    WaitingUpdate(c.table, mid, c.table[mid].(state := FirstState(c.table[mid].qos)));
  }

  /** The loop of the refill, from position `i` on. */
  lemma {:induction false} RefillStartsFrom(c: Session, i: nat)
    requires Keyed(c) && Distinct(c.order) && i <= |c.order| && c.link.Up?
    ensures forall k :: k in c.order[i..] ==> k in c.table
    ensures UnderWay(UpdateInflight(c, i).0) == UnderWay(c)
      + Min(Held(c.order[i..], c.table), Min(Max(c.config.maxInflight - c.inflight, 0), c.link.writes + 1))
    decreases |c.order| - i
  {
    hide UnderWay, Held, Start;
    if i == |c.order| {
      assert c.order[i..] == [];
      NoneHeld(c.table);
    } else {
      var mid := c.order[i];
      assert mid in c.order;
      HeldNext(c.order, c.table, i, c.table[mid].(state := FirstState(c.table[mid].qos)));
      if c.inflight < c.config.maxInflight {
        if c.table[mid].state.Queued? {
          StartCounts(c, mid);
          if c.link.writes > 0 {
            RefillStartsFrom(Start(c, mid, false).0, i + 1);
          }
        } else {
          RefillStartsFrom(c, i + 1);
        }
      }
    }
  }

  lemma NoneHeld(table: map<nat, Msg>)
    ensures Held([], table) == 0
  {
  }

  lemma RefillStarts(c: Session)
    requires Keyed(c) && Distinct(c.order) && c.link.Up? && c.config.maxInflight > 0
    ensures UnderWay(Refill(c).0) == UnderWay(c) + Startable(c)
  {
    hide UnderWay, Held, UpdateInflight;
    RefillStartsFrom(c, 0);
    assert c.order[0..] == c.order;
  }

  // ---------- one packet ----------

  /** The session behind the removal that a packet causes, before the refill. */
  function Removed(c: Session, p: Packet): Session
    requires Keyed(c)
  {
    if (p.Puback? || p.Pubcomp?) && p.mid in c.table then Complete(c, p.mid)
    else if p.Pubrel? && p.mid in c.inbox then Release(c, p.mid)
    else c
  }

  predicate Refills(c: Session, p: Packet) {
    ((p.Puback? || p.Pubcomp?) && p.mid in c.table) || (p.Pubrel? && p.mid in c.inbox)
  }

  lemma RemovedFacts(c: Session, p: Packet)
    requires Keyed(c) && Distinct(c.order)
    requires IsAck(p) ==> AckFits(c.table, p)
    ensures var c1 := Removed(c, p);
      && Keyed(c1) && Distinct(c1.order) && c1.link == c.link && c1.config == c.config
      && UnderWay(c1) == UnderWay(c) - (if (p.Puback? || p.Pubcomp?) then 1 else 0)
      && (Refills(c, p) ==> c1.inflight == c.inflight - 1)
      && c1.released == c.released + if p.Pubrel? && p.mid in c.inbox then 1 else 0
  {
    if (p.Puback? || p.Pubcomp?) {
      WithoutDistinct(c.order, p.mid);
      assert Waiting(c.table - {p.mid}) == Waiting(c.table) - {p.mid};
    }
  }

  lemma ProcessStarts(c: Session, p: Packet)
    requires Keyed(c) && Distinct(c.order) && c.link.Up? && c.config.maxInflight > 0 && !p.Connack?
    requires IsAck(p) ==> AckFits(c.table, p)
    ensures Keyed(Removed(c, p)) && Removed(c, p).link.Up?
    ensures UnderWay(Process(c, p))
      == UnderWay(Removed(c, p)) + if Refills(c, p) then Startable(Removed(c, p)) else 0
  {
    RemovedFacts(c, p);
    hide Startable, Distinct;
    if Refills(c, p) {
      hide Refill, Removed;
      RefillStarts(Removed(c, p));
      ProcessRefills(c, p);
    } else if p.Pubrec? {
      WaitingUpdate(c.table, p.mid, c.table[p.mid].(state := WaitForPubcomp));
      assert Waiting(c.table) + {p.mid} == Waiting(c.table);
    }
  }

  lemma ProcessRefills(c: Session, p: Packet)
    requires Keyed(c) && Refills(c, p)
    ensures Process(c, p).table == Refill(Removed(c, p)).0.table
  {
    hide Refill;
  }

  // ---------- exactly when a step goes above the window ----------

  /** So many messages must start for the number under way to go above its old value and the window. */
  function Needed(c: Session, left: nat): int {
    Max(UnderWay(c), c.config.maxInflight) + 1 - left
  }

  /** Each message released since the last reset has made room for one more than the window allows. */
  ghost predicate Overruns(s: System, step: Step)
    requires Keyed(s.client)
  {
    var c := s.client;
    match step
    case Submit(qos) =>
      && 1 <= qos <= 2 && c.link.Up? && NextMid(c.lastMid) !in c.table
      && (c.config.maxQueued > 0 ==> |c.order| < c.config.maxQueued)
      && c.config.maxInflight <= UnderWay(c) < c.config.maxInflight + c.released
    case ClientReceive =>
      && c.link.Up? && s.toClient != [] && Refills(c, s.toClient[0])
      && var c1 := Removed(c, s.toClient[0]); var needed := Needed(c, UnderWay(c1));
        && needed <= Held(c1.order, c1.table) && needed <= c.link.writes + 1
        && UnderWay(c) < c.config.maxInflight + c1.released && c1.released > 0
    case _ => false
  }

  lemma SubmitCounts(c: Session, qos: nat)
    requires Accounted(c) && 1 <= qos <= 2 && c.config.maxInflight > 0
    ensures var refused := NextMid(c.lastMid) in c.table || (c.config.maxQueued > 0 && |c.order| >= c.config.maxQueued);
      UnderWay(PublishMessage(c, qos).0)
        == UnderWay(c) + if !refused && c.link.Up? && c.inflight < c.config.maxInflight then 1 else 0
  {
    var mid := NextMid(c.lastMid);
    var c1 := c.(lastMid := mid);
    if mid !in c.table {
      assert Waiting(Accept(c1, mid, qos, Queued).table) == Waiting(c.table);
      assert Waiting(Accept(c1, mid, qos, ReadyToPublish).table) == Waiting(c.table);
      if c.link.Up? {
        StartCounts(Accept(c1, mid, qos, Queued), mid);
      }
    }
  }

  lemma ReceiveExceeds(c: Session, p: Packet)
    requires Keyed(c) && Distinct(c.order) && c.link.Up? && c.config.maxInflight > 0 && !p.Connack? && Accounted(c)
    requires IsAck(p) ==> AckFits(c.table, p)
    ensures UnderWay(Process(c, p)) > Max(UnderWay(c), c.config.maxInflight)
      <==> Refills(c, p) && (var c1 := Removed(c, p); var needed := Needed(c, UnderWay(c1));
        && needed <= Held(c1.order, c1.table) && needed <= c.link.writes + 1
        && UnderWay(c) < c.config.maxInflight + c1.released && c1.released > 0)
  {
    ProcessStarts(c, p);
    RemovedFacts(c, p);
    hide Process, Removed, Refills, Held, Distinct;
  }

  lemma OthersCount(s: System, step: Step)
    requires Keyed(s.client) && !step.Submit? && !step.ClientReceive?
    ensures UnderWay(Next(s, step).client) <= UnderWay(s.client)
  {
    if step.Reopen? {
      ResetEmpties(s.client, step.clean);
      ResetFields(s.client, step.clean, step.link);
    } else if IsAside(step) {
      StepAside(s, step);
    }
  }

  /** In every state that a run can reach and for every step but the handling of CONNACK: the number of
      messages under way goes above both its old value and the window exactly when a message released
      since the last reset has made room, enough messages are held back, and they can be written. */
  lemma ExceedsExactly(s: System, step: Step)
    requires Steady(s) && s.client.config.maxInflight > 0
    requires step == ClientReceive && s.toClient != [] ==> !s.toClient[0].Connack?
    ensures Keyed(s.client)
    ensures UnderWay(Next(s, step).client) > Max(UnderWay(s.client), s.client.config.maxInflight)
      <==> Overruns(s, step)
  {
    OkRows(s);
    SortedDistinct(s.client);
    hide Ok, UnderWay, Process, PublishMessage, Removed, Refills, Held, Needed, Startable, Distinct, Sorted, Rows;
    match step
    case Submit(qos) =>
      if 1 <= qos <= 2 {
        SubmitCounts(s.client, qos);
        CounterIs(s.client);
      }
    case ClientReceive =>
      if s.client.link.Up? && s.toClient != [] {
        HeadFits(s);
        ReceiveExceeds(s.client, s.toClient[0]);
      }
    case _ => OthersCount(s, step);
  }

  lemma CounterIs(c: Session)
    requires Accounted(c)
    ensures c.inflight == UnderWay(c) - c.released
  {
  }

  /** As long as no incoming message was released since the last reset, no step but the handling of
      CONNACK takes more messages under way than there were or than the window allows. */
  lemma InFlightRespected(s: System, step: Step)
    requires Steady(s) && s.client.config.maxInflight > 0 && Next(s, step).client.released == 0
    requires step == ClientReceive && s.toClient != [] ==> !s.toClient[0].Connack?
    ensures UnderWay(Next(s, step).client) <= Max(UnderWay(s.client), s.client.config.maxInflight)
  {
    ExceedsExactly(s, step);
    OkRows(s);
    SortedDistinct(s.client);
    if Overruns(s, step) {
      ReleasedCounts(s, step);
    }
  }

  lemma ReleasedCounts(s: System, step: Step)
    requires Keyed(s.client) && Overruns(s, step)
    ensures Next(s, step).client.released > 0
  {
    if step.ClientReceive? {
      hide Process, Removed, Refills, Held, Needed;
      ReleasedKept(s.client, s.toClient[0]);
    } else {
      hide Start;
      PublishReleased(s.client, step.qos);
    }
  }

  lemma PublishReleased(c: Session, qos: nat)
    ensures PublishMessage(c, qos).0.released == c.released
  {
  }

  lemma StartReleased(c: Session, mid: nat)
    requires mid in c.table
    ensures Start(c, mid, false).0.released == c.released
  {
  }

  lemma RefillReleased(c: Session)
    requires Keyed(c)
    ensures Refill(c).0.released == c.released
  {
    hide UpdateInflight, Start;
    var released := c.released;
    var P := (c1: Session) => c1.released == released;
    assert Loops.KeptByStart(P, false) by {
      forall c1: Session, mid |
        P(c1) && mid in c1.table && (c1.table[mid].state.Queued? || c1.table[mid].state.ReadyToPublish?)
        ensures P(Start(c1, mid, false).0)
      {
        StartReleased(c1, mid);
      }
    }
    if c.config.maxInflight > 0 {
      Loops.UpdateInflightKeeps(P, c, 0);
    }
  }

  lemma ReleasedKept(c: Session, p: Packet)
    requires Keyed(c) && Refills(c, p)
    ensures Process(c, p).released == Removed(c, p).released
  {
    hide UpdateInflight;
    RefillReleased(Removed(c, p));
  }

  // ---------- it happens ----------

  /** A client with a window of one, one message under way and one held back. */
  function OneHeld(inbox: map<nat, InMsg>, writes: nat, outPacket: seq<Packet>): Session {
    Session(Config(1, 0, false), [1, 2],
            map[1 := Msg(0, 1, WaitForPuback, false), 2 := Msg(1, 1, Queued, false)],
            inbox, 1, 2, Up(writes), outPacket, 2, [], [], 0, [Publish(1, 1, false, 0)], 0)
  }

  function Broke(early: bool): Broker {
    Broker(early, true, map[], [])
  }

  lemma Connected(early: bool)
    ensures var s := Initial(Config(1, 0, false), early);
      Next(Next(Next(s, Reopen(false, Up(9))), BrokerReceive), ClientReceive)
        == System(Fresh(Config(1, 0, false)).(link := Up(8)), Broke(early), [])
  {
    var s1 := Next(Initial(Config(1, 0, false), early), Reopen(false, Up(9)));
    assert s1.client == Fresh(Config(1, 0, false)).(link := Up(8), outPacket := [Connect(false)]);
  }

  lemma BothSubmitted(early: bool)
    ensures var s := System(Fresh(Config(1, 0, false)).(link := Up(8)), Broke(early), []);
      Next(Next(s, Submit(1)), Submit(1)) == System(OneHeld(map[], 7, [Publish(1, 1, false, 0)]), Broke(early), [])
  {
  }

  lemma Stored(early: bool)
    ensures var s := System(OneHeld(map[], 7, [Publish(1, 1, false, 0)]), Broke(early), []);
      Next(Next(s, BrokerSend(Publish(7, 2, false, 5))), ClientReceive)
        == System(OneHeld(map[7 := InMsg(7, 2, 5)], 6, [Publish(1, 1, false, 0), Pubrec(7)]), Broke(early), [])
  {
  }

  lemma ReleaseStarts(outPacket: seq<Packet>)
    ensures var c := OneHeld(map[7 := InMsg(7, 2, 5)], 6, outPacket);
      Keyed(c) && UnderWay(c) == 1 && UnderWay(Process(c, Pubrel(7))) == 2
  {
    var c := OneHeld(map[7 := InMsg(7, 2, 5)], 6, outPacket);
    assert Waiting(c.table) == {1};
    assert Held([2], c.table) == 1 && [1, 2][1..] == [2];
    ProcessStarts(c, Pubrel(7));
  }

  lemma Released(early: bool, outPacket: seq<Packet>)
    ensures var s := System(OneHeld(map[7 := InMsg(7, 2, 5)], 6, outPacket), Broke(early), []);
      UnderWay(s.client) == 1 && UnderWay(Next(Next(s, BrokerSend(Pubrel(7))), ClientReceive).client) == 2
  {
    ReleaseStarts(outPacket);
    hide Process, UnderWay;
  }

  lemma RunTwo(s: System, a: Step, b: Step)
    requires Keyed(s.client)
    ensures Run(s, [a] + [b]) == Next(Next(s, a), b)
  {
    hide Next;
    RunSnoc(s, [a], b);
    RunSnoc(s, [], a);
    assert [] + [a] == [a];
  }

  /** The steps of the run below. */
  function ReleaseSteps(): seq<Step> {
    [Reopen(false, Up(9))] + [BrokerReceive] + [ClientReceive]
    + ([Submit(1)] + [Submit(1)])
    + ([BrokerSend(Publish(7, 2, false, 5))] + [ClientReceive])
    + ([BrokerSend(Pubrel(7))] + [ClientReceive])
  }

  /** With a window of one, a PUBREL from the broker takes a second message under way while the first
      waits for its PUBACK; the CONNACK of the run is handled before any message is published. */
  lemma ReleaseOverruns(early: bool)
    ensures UnderWay(Run(Initial(Config(1, 0, false), early), ReleaseSteps()).client) == 2
  {
    hide Next, Run, Initial, Keyed, UnderWay, OneHeld, Broke;
    var s0 := Initial(Config(1, 0, false), early);
    InitialKeyed(early);
    var a := [Reopen(false, Up(9))] + [BrokerReceive] + [ClientReceive];
    var b := [Submit(1)] + [Submit(1)];
    var c := [BrokerSend(Publish(7, 2, false, 5))] + [ClientReceive];
    var d := [BrokerSend(Pubrel(7))] + [ClientReceive];
    RunThree(s0, Reopen(false, Up(9)), BrokerReceive, ClientReceive);
    Connected(early);
    var s3 := Run(s0, a);
    RunTwo(s3, Submit(1), Submit(1));
    BothSubmitted(early);
    RunConcat(s0, a, b);
    RunTwo(Run(s3, b), BrokerSend(Publish(7, 2, false, 5)), ClientReceive);
    Stored(early);
    RunConcat(s0, a + b, c);
    RunTwo(Run(s0, a + b + c), BrokerSend(Pubrel(7)), ClientReceive);
    Released(early, [Publish(1, 1, false, 0), Pubrec(7)]);
    RunConcat(s0, a + b + c, d);
  }
}
