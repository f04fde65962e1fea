/** The ways exactly-once hand-over is lost, and that they are the only ones: a reset that forgets
    what the broker has done about a message. */
module Demotion {
  import opened QosSession
  import opened Network
  import opened Wire
  import opened Conservation
  import opened ExactlyOnce
  import opened Resend
  import opened Rounds
  import Window

  // ---------- a message handed onward a second time ----------

  /** Message `mid` of the table carries `body` at QoS 2. */
  predicate Tracks(s: System, mid: nat, body: nat) {
    mid in s.client.table && s.client.table[mid].body == body && s.client.table[mid].qos == 2
  }

  /** The broker takes a PUBLISH it does not know: it hands it onward now, or it will when the
      PUBREL comes, which the client answers with at once. */
  lemma TakePublish(s: System, mid: nat)
    requires Calm(s) && Keyed(s.client) && s.client.outPacket != []
    requires mid in s.client.table && s.client.table[mid].qos == 2 && mid !in s.broker.store
    requires s.client.outPacket[0] == PublishOf(mid, s.client.table[mid])
    ensures var s1 := AfterRound(s); var body := s.client.table[mid].body;
      && mid in s1.broker.store && s1.broker.store[mid] == body
      && s1.broker.onward == (if s.broker.early then s.broker.onward + [body] else s.broker.onward)
      && s1.client.outPacket == s.client.outPacket[1..] + [Pubrel(mid)]
      && Tracks(s1, mid, body)
  {
    var c := s.client.(outPacket := s.client.outPacket[1..], link := Up(|s.client.order| + 1));
    assert Process(c, Pubrec(mid)).outPacket == c.outPacket + [Pubrel(mid)];
  }

  lemma MoreHanded(b: Broker, b1: Broker, body: nat)
    requires b.onward <= b1.onward
    ensures Handed(b, body) <= Handed(b1, body)
  {
    assert b1.onward == b.onward + b1.onward[|b.onward|..];
  }

  lemma BrokerReleases(s: System, mid: nat)
    requires Keyed(s.client) && s.client.outPacket != [] && s.client.outPacket[0] == Pubrel(mid)
    requires mid in s.broker.store && !s.broker.early && s.broker.connected
    ensures Handed(Next(s, BrokerReceive).broker, s.broker.store[mid]) == Handed(s.broker, s.broker.store[mid]) + 1
    ensures Next(s, BrokerReceive).client.table == s.client.table
  {
    HandOn(s.broker, s.broker.store[mid], s.broker.store[mid]);
  }

  /** From a PUBREL on its way to a broker that hands messages onward at their release. */
  lemma ReleasesAgain(s: System, mid: nat) returns (steps: seq<Step>)
    requires Calm(s) && s.client.outPacket != [] && s.client.outPacket[|s.client.outPacket| - 1] == Pubrel(mid)
    requires mid in s.broker.store && !s.broker.early && Keyed(s.client) && Tracks(s, mid, s.broker.store[mid])
    ensures NoReset(steps) && Tracks(Run(s, steps), mid, s.broker.store[mid])
    ensures Handed(Run(s, steps).broker, s.broker.store[mid]) > Handed(s.broker, s.broker.store[mid])
  {
    hide Calm, Run, Next, Handed, Keyed;
    var body := s.broker.store[mid];
    var a := BringToHead(s, |s.client.outPacket| - 1);
    var s1 := Run(s, a);
    MoreHanded(s.broker, s1.broker, body);
    steps := a + [BrokerReceive];
    RunSnoc(s, a, BrokerReceive);
    CalmHead0(s1);
    BrokerReleases(s1, mid);
  }

  /** From a PUBLISH on its way to a broker that does not know it, the message is handed onward
      once more. */
  lemma HandsOnAgain(s: System, i: nat, mid: nat) returns (steps: seq<Step>)
    requires Calm(s) && Keyed(s.client) && i < |s.client.outPacket|
    requires mid in s.client.table && s.client.table[mid].qos == 2 && mid !in s.broker.store
    requires s.client.outPacket[i] == PublishOf(mid, s.client.table[mid])
    ensures NoReset(steps) && Tracks(Run(s, steps), mid, s.client.table[mid].body)
    ensures Handed(Run(s, steps).broker, s.client.table[mid].body) > Handed(s.broker, s.client.table[mid].body)
  {
    hide Calm, Run, Handed, Keyed;
    var body := s.client.table[mid].body;
    var a := BringToHead(s, i);
    var s1 := Run(s, a);
    MoreHanded(s.broker, s1.broker, body);
    TakePublish(s1, mid);
    var more := TakesAgain(s1, mid);
    steps := a + more;
    RunConcat(s, a, more);
  }

  lemma TakesAgain(s: System, mid: nat) returns (steps: seq<Step>)
    requires Calm(s) && Keyed(s.client) && s.client.outPacket != []
    requires mid in s.client.table && s.client.table[mid].qos == 2 && mid !in s.broker.store
    requires s.client.outPacket[0] == PublishOf(mid, s.client.table[mid])
    ensures NoReset(steps) && Tracks(Run(s, steps), mid, s.client.table[mid].body)
    ensures Handed(Run(s, steps).broker, s.client.table[mid].body) > Handed(s.broker, s.client.table[mid].body)
  {
    hide Run, Keyed, Ok, AfterRound;
    RoundGrows(s);
    RoundCalm(s);
    CalmHead0(AfterRound(s));
    var body := s.client.table[mid].body;
    var round := RoundSteps(|s.client.order| + 1);
    TakePublish(s, mid);
    RoundRuns(s);
    HandOn(s.broker, body, body);
    if s.broker.early {
      steps := round;
    } else {
      var more := ReleasesAgain(AfterRound(s), mid);
      steps := round + more;
      RunConcat(s, round, more);
    }
  }

  lemma ResetDemotes(c: Session, clean: bool, mid: nat, writes: nat)
    requires Rows(c.table, c.accepted) && mid in c.table && c.table[mid].qos == 2
    requires clean || c.table[mid].state.ResendPubrel?
    ensures var m := Reset(c, clean, [], writes).table[mid];
      m.body == c.table[mid].body && m.qos == 2 && m.state.ReadyToPublish?
  {
    assert StateFits(c.table[mid]);
  }

  lemma ResendsAgain(s: System, clean: bool, mid: nat) returns (steps: seq<Step>)
    requires Keyed(s.client) && Ok(s) && mid in s.client.table && s.client.table[mid].qos == 2
    requires clean || (s.client.table[mid].state.ResendPubrel? && mid !in s.broker.store)
    ensures NoReset(steps) && Tracks(Run(Reconnected(s, clean), steps), mid, s.client.table[mid].body)
    ensures Handed(Run(Reconnected(s, clean), steps).broker, s.client.table[mid].body)
         > Handed(s.broker, s.client.table[mid].body)
  {
    hide Run, Process, Keyed, NoReset, Reset, Sorted, Rows, Ranked, Calm, ConnectionOk, AcksFit, SendsFit, Single;
    var writes := |s.client.order| + 1;
    var c0 := Reset(s.client, clean, [], writes);
    ResetLeaves(s.client, clean, writes);
    ResetRows(s.client, clean, writes);
    ResetSorted(s.client, clean, writes);
    ResetDemotes(s.client, clean, mid, writes);
    var i := ConnackSends(c0, mid);
    ReconnectCalm(s, clean);
    steps := HandsOnAgain(Reconnected(s, clean), i, mid);
  }

  lemma HandedOnce(s: System, clean: bool, mid: nat)
    requires Consistent(s) && Loses(s, clean, mid)
    ensures Ok(s) && Keyed(s.client) && Handed(s.broker, s.client.table[mid].body) >= 1
  {
  }

  /** A reset that forgets can be followed, without another reset, by a second hand-over. */
  lemma DemotionDuplicates(s: System, clean: bool, mid: nat) returns (steps: seq<Step>)
    requires Consistent(s) && Loses(s, clean, mid)
    ensures NoReset(steps) && Tracks(Run(s, [Reopen(clean, Up(1))] + steps), mid, s.client.table[mid].body)
    ensures Handed(Run(s, [Reopen(clean, Up(1))] + steps).broker, s.client.table[mid].body) >= 2
  {
    hide Consistent, Ok, Run, Reconnected, Handed;
    HandedOnce(s, clean, mid);
    var more := ResendsAgain(s, clean, mid);
    var round := RoundSteps(|s.client.order| + 1);
    ReconnectRuns(s, clean);
    RunConcat(s, [Reopen(clean, Up(1))] + round, more);
    steps := round + more;
    assert [Reopen(clean, Up(1))] + steps == [Reopen(clean, Up(1))] + round + more;
  }

  // ---------- exactly when a reset is safe ----------

  lemma {:induction false} NoResetNeverForgets(s: System, steps: seq<Step>)
    requires Keyed(s.client) && NoReset(steps)
    ensures NeverForgets(s, steps)
    decreases |steps|
  {
    if steps != [] {
      NoResetNeverForgets(Next(s, steps[0]), steps[1..]);
    }
  }

  lemma SafeReset(s: System, clean: bool, steps: seq<Step>)
    requires Consistent(s) && WithinLimit(s.client) && !Forgets(s, Reopen(clean, Up(1))) && NoReset(steps)
    ensures HandedRight(Run(s, [Reopen(clean, Up(1))] + steps))
  {
    NextConsistent(s, Reopen(clean, Up(1)));
    NextConserves(s, Reopen(clean, Up(1)));
    var s1 := Next(s, Reopen(clean, Up(1)));
    NoResetNeverForgets(s1, steps);
    RunConsistent(s1, steps);
    RunConcat(s, [Reopen(clean, Up(1))], steps);
    RunSnoc(s, [], Reopen(clean, Up(1)));
    assert [] + [Reopen(clean, Up(1))] == [Reopen(clean, Up(1))];
  }

  /** Some QoS 2 message has been handed onward more than once. */
  ghost predicate HandedTwice(s: System) {
    || (exists k :: k in s.client.table && s.client.table[k].qos == 2 && Handed(s.broker, s.client.table[k].body) >= 2)
    || (exists m :: m in s.client.completed && m.qos == 2 && Handed(s.broker, m.body) >= 2)
  }

  lemma UnsafeReset(s: System, clean: bool, mid: nat) returns (steps: seq<Step>)
    requires Consistent(s) && Loses(s, clean, mid)
    ensures NoReset(steps) && HandedTwice(Run(s, [Reopen(clean, Up(1))] + steps))
  {
    hide Consistent, Run, Handed;
    steps := DemotionDuplicates(s, clean, mid);
  }

  lemma ConsistentKeyed(s: System)
    requires Consistent(s)
    ensures Keyed(s.client)
  {
  }

  lemma RightIsNotTwice(s: System)
    requires HandedRight(s)
    ensures !HandedTwice(s)
  {
  }

  /** From a state in which the accounts agree: what follows a reset can hand a message onward twice
      exactly when the reset forgets what the broker has done. For a kept session that is a message
      which waits to resend its PUBREL although the broker has released it, for a clean one a
      message that was handed onward and not yet completed. */
  lemma ResetUnsafeExactly(s: System, clean: bool)
    requires Consistent(s) && WithinLimit(s.client)
    ensures (exists k :: Loses(s, clean, k))
       <==> (exists steps :: NoReset(steps) && HandedTwice(Run(s, [Reopen(clean, Up(1))] + steps)))
  {
    hide Consistent, Run, HandedRight, HandedTwice, Handed, WithinLimit, Loses;
    ConsistentKeyed(s);
    if exists k :: Loses(s, clean, k) {
      var k :| Loses(s, clean, k);
      var steps := UnsafeReset(s, clean, k);
    } else {
      forall steps | NoReset(steps) ensures !HandedTwice(Run(s, [Reopen(clean, Up(1))] + steps)) {
        SafeReset(s, clean, steps);
        RightIsNotTwice(Run(s, [Reopen(clean, Up(1))] + steps));
      }
    }
  }

  // ---------- it happens ----------

  /** A client that has accepted one QoS 2 message. */
  function One(state: MessageState, inflight: int, writes: nat, outPacket: seq<Packet>): Session {
    Session(Config(20, 0, false), [1], map[1 := Msg(0, 2, state, false)], map[], inflight, 1, Up(writes), outPacket,
            1, [], [], 0, [Publish(1, 2, false, 0)], if state.ResendPubrel? then 1 else 0)
  }

  lemma Opening(early: bool)
    ensures var s := Initial(Config(20, 0, false), early);
      Next(Next(Next(Next(s, Reopen(false, Up(9))), BrokerReceive), ClientReceive), Submit(2))
        == System(One(WaitForPubrec, 1, 7, [Publish(1, 2, false, 0)]), Broker(early, true, map[], []), [])
  {
    Opening1(early);
    Opening2(early);
    Opening3(early);
    Opening4(early);
    hide Next;
  }

  /** A client that has done nothing yet. */
  function Idle(outPacket: seq<Packet>): Session {
    Fresh(Config(20, 0, false)).(link := Up(8), outPacket := outPacket)
  }

  lemma Opening1(early: bool)
    ensures Next(Initial(Config(20, 0, false), early), Reopen(false, Up(9)))
         == System(Idle([Connect(false)]), Broker(early, false, map[], []), [])
    ensures Keyed(Idle([Connect(false)])) && Keyed(Idle([]))
  {
  }

  lemma Opening2(early: bool)
    ensures Next(System(Idle([Connect(false)]), Broker(early, false, map[], []), []), BrokerReceive)
         == System(Idle([]), Broker(early, true, map[], []), [Connack])
  {
  }

  lemma Opening3(early: bool)
    ensures Next(System(Idle([]), Broker(early, true, map[], []), [Connack]), ClientReceive)
         == System(Idle([]), Broker(early, true, map[], []), [])
  {
  }

  lemma Opening4(early: bool)
    ensures Next(System(Idle([]), Broker(early, true, map[], []), []), Submit(2))
         == System(One(WaitForPubrec, 1, 7, [Publish(1, 2, false, 0)]), Broker(early, true, map[], []), [])
  {
  }

  lemma Handshake1(early: bool)
    ensures Next(System(One(WaitForPubrec, 1, 7, [Publish(1, 2, false, 0)]),
                        Broker(early, true, map[], []), []), BrokerReceive)
         == System(One(WaitForPubrec, 1, 7, []),
                   Broker(early, true, map[1 := 0], if early then [0] else []), [Pubrec(1)])
  {
  }

  lemma Handshake2(b: Broker)
    ensures Next(System(One(WaitForPubrec, 1, 7, []), b, [Pubrec(1)]), ClientReceive)
         == System(One(WaitForPubcomp, 1, 6, [Pubrel(1)]), b, [])
  {
  }

  lemma Handshake3(early: bool)
    ensures Next(System(One(WaitForPubcomp, 1, 6, [Pubrel(1)]),
                        Broker(early, true, map[1 := 0], if early then [0] else []), []), BrokerReceive)
         == System(One(WaitForPubcomp, 1, 6, []), Broker(early, true, map[], [0]), [Pubcomp(1)])
  {
    assert map[1 := 0] - {1} == map[];
  }

  lemma Handshake(early: bool)
    ensures var s := System(One(WaitForPubrec, 1, 7, [Publish(1, 2, false, 0)]), Broker(early, true, map[], []), []);
      Next(Next(Next(s, BrokerReceive), ClientReceive), BrokerReceive)
        == System(One(WaitForPubcomp, 1, 6, []), Broker(early, true, map[], [0]), [Pubcomp(1)])
  {
    Handshake1(early);
    Handshake2(Broker(early, true, map[1 := 0], if early then [0] else []));
    Handshake3(early);
    hide Next;
  }

  lemma LostPubcomp(early: bool)
    ensures Next(System(One(WaitForPubcomp, 1, 6, []), Broker(early, true, map[], [0]), [Pubcomp(1)]),
                 Reopen(false, Up(9)))
        == System(One(ResendPubrel, 0, 8, [Connect(false)]), Broker(early, false, map[], [0]), [])
  {
  }

  ghost predicate Good(s: System) {
    Consistent(s) && WithinLimit(s.client)
  }

  lemma GoodNext(s: System, step: Step)
    requires Good(s) && !Forgets(s, step)
    ensures Good(Next(s, step))
  {
    hide Consistent, Next, WithinLimit, Forgets;
    NextConsistent(s, step);
    ConsistentOk(s);
    NextConserves(s, step);
  }

  lemma ConsistentOk(s: System)
    requires Consistent(s)
    ensures Ok(s) && Partition(s.client)
  {
  }

  lemma InitialGood(config: Config, early: bool)
    ensures Good(Initial(config, early))
  {
    InitialOk(config, early);
  }

  lemma {:induction false} GoodRun(s: System, steps: seq<Step>)
    requires Keyed(s.client) && Good(s) && NoReset(steps)
    ensures Good(Run(s, steps))
    decreases |steps|
  {
    hide Good;
    if steps != [] {
      GoodNext(s, steps[0]);
      GoodRun(Next(s, steps[0]), steps[1..]);
    }
  }

  lemma GoodThree(s: System, a: Step, b: Step, c: Step)
    requires Keyed(s.client) && Good(s) && !a.Reopen? && !b.Reopen? && !c.Reopen?
    ensures Good(Next(Next(Next(s, a), b), c))
  {
    hide Good, Next, Run;
    RunThree(s, a, b, c);
    GoodRun(s, [a] + [b] + [c]);
  }

  /** Connect, publish, and complete the handshake up to the PUBCOMP on its way. */
  lemma HandshakeHappens(early: bool) returns (steps: seq<Step>)
    ensures Run(Initial(Config(20, 0, false), early), steps)
         == System(One(WaitForPubcomp, 1, 6, []), Broker(early, true, map[], [0]), [Pubcomp(1)])
    ensures Good(Run(Initial(Config(20, 0, false), early), steps))
  {
    hide Good, Next, Run, One, Initial, Keyed;
    var s0 := Initial(Config(20, 0, false), early);
    InitialGood(Config(20, 0, false), early);
    StartsKeyed(early);
    var connect := [Reopen(false, Up(9))];
    var opening := [BrokerReceive] + [ClientReceive] + [Submit(2)];
    var handshake := RoundSteps0();
    var s1 := Next(s0, Reopen(false, Up(9)));
    NoDemotion(s0, Reopen(false, Up(9)));
    GoodNext(s0, Reopen(false, Up(9)));
    GoodThree(s1, BrokerReceive, ClientReceive, Submit(2));
    Opening(early);
    var s4 := System(One(WaitForPubrec, 1, 7, [Publish(1, 2, false, 0)]), Broker(early, true, map[], []), []);
    GoodThree(s4, BrokerReceive, ClientReceive, BrokerReceive);
    Handshake(early);
    RunSnoc(s0, [], Reopen(false, Up(9)));
    RunEmpty(s0);
    assert [] + connect == connect;
    RunThree(s1, BrokerReceive, ClientReceive, Submit(2));
    RunConcat(s0, connect, opening);
    RunThree(s4, BrokerReceive, ClientReceive, BrokerReceive);
    RunConcat(s0, connect + opening, handshake);
    steps := connect + opening + handshake;
  }

  /** The PUBCOMP is lost and the client connects again: the message waits to resend its PUBREL. */
  lemma LostPubcompHappens(early: bool) returns (steps: seq<Step>)
    ensures Run(Initial(Config(20, 0, false), early), steps)
         == System(One(ResendPubrel, 0, 8, [Connect(false)]), Broker(early, false, map[], [0]), [])
    ensures Good(Run(Initial(Config(20, 0, false), early), steps))
  {
    hide Good, Next, Run, One, Initial, Keyed;
    var s0 := Initial(Config(20, 0, false), early);
    StartsKeyed(early);
    var handshake := HandshakeHappens(early);
    var s7 := Run(s0, handshake);
    NoDemotion(s7, Reopen(false, Up(9)));
    GoodNext(s7, Reopen(false, Up(9)));
    LostPubcomp(early);
    RunSnoc(s0, handshake, Reopen(false, Up(9)));
    steps := handshake + [Reopen(false, Up(9))];
  }

  function RoundSteps0(): seq<Step> {
    [BrokerReceive] + [ClientReceive] + [BrokerReceive]
  }

  lemma RunEmpty(s: System)
    requires Keyed(s.client)
    ensures Run(s, []) == s
  {
  }

  lemma StartsKeyed(early: bool)
    ensures Keyed(Initial(Config(20, 0, false), early).client)
    ensures forall state, inflight, writes, outPacket :: Keyed(One(state, inflight, writes, outPacket))
    ensures forall k :: k !in Initial(Config(20, 0, false), early).client.table
    ensures forall state, inflight, writes, outPacket, k ::
      k in One(state, inflight, writes, outPacket).table ==>
        One(state, inflight, writes, outPacket).table[k].state == state
  {
  }

  lemma NoDemotion(s: System, step: Step)
    requires forall k :: k in s.client.table ==> !s.client.table[k].state.ResendPubrel?
    requires step.Reopen? ==> !step.clean
    ensures !Forgets(s, step)
  {
  }

  lemma DuplicatesAfter(s0: System, a: seq<Step>, clean: bool)
    requires Keyed(s0.client) && Good(Run(s0, a)) && Loses(Run(s0, a), clean, 1)
    ensures exists steps :: HandedTwice(Run(s0, steps))
  {
    hide Run, HandedTwice, Consistent, Loses, WithinLimit, Keyed;
    var b := UnsafeReset(Run(s0, a), clean, 1);
    RunConcat(s0, a, [Reopen(clean, Up(1))] + b);
    assert HandedTwice(Run(s0, a + ([Reopen(clean, Up(1))] + b)));
  }

  /** Runs of the real protocol, with a conforming broker, in which a QoS 2 message is handed onward
      twice: one in which the second connection starts a clean session, one with kept sessions. */
  lemma DuplicateHappens(early: bool, clean: bool)
    ensures exists steps :: HandedTwice(Run(Initial(Config(20, 0, false), early), steps))
  {
    hide Run, HandedTwice, Good, Loses, One, Initial, Keyed;
    var s0 := Initial(Config(20, 0, false), early);
    StartsKeyed(early);
    var a;
    if clean {
      a := HandshakeHappens(early);
    } else {
      a := LostPubcompHappens(early);
    }
    LosesOne(Run(s0, a), early, clean);
    DuplicatesAfter(s0, a, clean);
  }

  lemma LosesOne(s: System, early: bool, clean: bool)
    requires if clean then s == System(One(WaitForPubcomp, 1, 6, []), Broker(early, true, map[], [0]), [Pubcomp(1)])
             else s == System(One(ResendPubrel, 0, 8, [Connect(false)]), Broker(early, false, map[], [0]), [])
    ensures Loses(s, clean, 1)
  {
    assert [0][0] == 0;
    assert multiset([0])[0] == 1;
  }
}
