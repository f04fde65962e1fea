/** The DUP flag (section 3.3.1.1 of MQTT 3.1.1): which PUBLISH packets of a run carry a message
    that was sent before, and whether they say so. */
module Duplicates {
  import opened QosSession
  import opened Network
  import opened Wire
  import opened Conservation
  import opened Resend
  import opened Rounds
  import Demotion
  import InFlight
  import Loops
  import Moves
  import Window

  predicate Carries(sent: seq<Packet>, body: nat) {
    exists p :: p in sent && p.Publish? && p.body == body
  }

  /** Each PUBLISH of a message that was sent before has the flag. */
  ghost predicate Flagged(sent: seq<Packet>) {
    forall i, j :: 0 <= i < j < |sent| && sent[i].Publish? && sent[j].Publish? && sent[i].body == sent[j].body
      ==> sent[j].dup
  }

  /** Still to be sent, for the first time or again. */
  predicate Waits(m: Msg) {
    m.state.ReadyToPublish? || m.state.Queued?
  }

  ghost predicate Remembered(table: map<nat, Msg>, sent: seq<Packet>) {
    forall k :: k in table && Waits(table[k]) && Carries(sent, table[k].body) ==> table[k].dup
  }

  ghost predicate Numbered(table: map<nat, Msg>, sent: seq<Packet>, accepted: nat) {
    && (forall b: nat :: Carries(sent, b) ==> b < accepted)
    && (forall k :: k in table ==> table[k].body < accepted)
    && (forall k, l :: k in table && l in table && k != l ==> table[k].body != table[l].body)
  }

  /** Nothing was sent again without the flag, and nothing in the table will be. */
  ghost predicate Marked(c: Session) {
    && Flagged(c.sent)
    && Remembered(c.table, c.sent)
    && Numbered(c.table, c.sent, c.accepted)
  }

  // ---------- what keeps it ----------

  lemma SendMarked(c: Session, mid: nat, m: Msg)
    requires Marked(c) && mid in c.table && Waits(c.table[mid]) && !Waits(m)
    requires m.body == c.table[mid].body && m.dup == c.table[mid].dup
    ensures Flagged(c.sent + [PublishOf(mid, m)])
    ensures Remembered(c.table[mid := m], c.sent + [PublishOf(mid, m)])
    ensures Numbered(c.table[mid := m], c.sent + [PublishOf(mid, m)], c.accepted)
  {
    var sent := c.sent + [PublishOf(mid, m)];
    forall b: nat | Carries(sent, b) ensures Carries(c.sent, b) || b == m.body {
    }
    forall i, j | 0 <= i < j < |sent| && sent[i].Publish? && sent[j].Publish? && sent[i].body == sent[j].body
      ensures sent[j].dup
    {
      assert c.sent[i] in c.sent;
    }
  }

  lemma RestateMarked(c: Session, mid: nat, m: Msg)
    requires Marked(c) && mid in c.table && !Waits(m) && m.body == c.table[mid].body
    ensures Remembered(c.table[mid := m], c.sent) && Numbered(c.table[mid := m], c.sent, c.accepted)
  {
  }

  lemma StartMarked(c: Session, mid: nat, inCallback: bool)
    requires Marked(c) && mid in c.table && Waits(c.table[mid])
    ensures Marked(Start(c, mid, inCallback).0)
  {
    hide Flagged, Remembered, Numbered;
    var m := c.table[mid].(state := FirstState(c.table[mid].qos));
    SendMarked(c, mid, m);
    RestateMarked(c, mid, m);
  }

  lemma SetMarked(c: Session, mid: nat, state: MessageState)
    requires Marked(c) && mid in c.table && !Waits(c.table[mid].(state := state))
    ensures Marked(SetState(c, mid, state))
  {
    hide Flagged, Remembered, Numbered;
    RestateMarked(c, mid, c.table[mid].(state := state));
  }

  /** The table, the packets sent and the numbering are those of `c`. */
  predicate SameMarks(c: Session, c1: Session) {
    c1.table == c.table && c1.sent == c.sent && c1.accepted == c.accepted
  }

  lemma SameMarked(c: Session, c1: Session)
    requires Marked(c) && SameMarks(c, c1)
    ensures Marked(c1)
  {
  }

  lemma ResumeMarked(c: Session, mid: nat)
    requires Marked(c) && mid in c.table
    ensures Marked(ResumePubrel(c, mid))
  {
    hide Marked, SetState;
    SameMarked(c, Count(c, 1));
    SetMarked(Count(c, 1), mid, WaitForPubcomp);
    SameMarked(SetState(Count(c, 1), mid, WaitForPubcomp), ResumePubrel(c, mid));
  }

  lemma AcceptMarked(c: Session, mid: nat, qos: nat, state: MessageState)
    requires Marked(c) && mid !in c.table
    ensures Marked(Accept(c, mid, qos, state))
  {
  }

  lemma CompleteMarked(c: Session, mid: nat)
    requires Keyed(c) && Marked(c) && mid in c.table
    ensures Marked(Complete(c, mid))
  {
  }

  lemma MovesMarked()
    ensures Moves.KeptByMoves((c: Session) => Marked(c))
  {
    hide Marked, Start, SetState, Complete, Accept;
    var P := (c: Session) => Marked(c);
    forall c: Session, mid, inCallback |
      P(c) && mid in c.table && (c.table[mid].state.Queued? || c.table[mid].state.ReadyToPublish?)
      ensures P(Start(c, mid, inCallback).0)
    {
      StartMarked(c, mid, inCallback);
    }
    forall c: Session, c1: Session | P(c) && Moves.SameLog(c, c1) ensures P(c1) {
      SameMarked(c, c1);
    }
    forall c: Session, mid | P(c) && mid in c.table ensures P(SetState(c, mid, WaitForPubcomp)) {
      SetMarked(c, mid, WaitForPubcomp);
    }
    forall c: Session, mid | P(c) && Keyed(c) && mid in c.table ensures P(Complete(c, mid)) {
      CompleteMarked(c, mid);
    }
    forall c: Session, mid, qos, state |
      P(c) && mid !in c.table && (state == Queued || state == ReadyToPublish)
      ensures P(Accept(c, mid, qos, state))
    {
      AcceptMarked(c, mid, qos, state);
    }
  }

  /** What every step but a reset does to a property of table and logs. */
  lemma StepKeeps(P: Session -> bool, s: System, step: Step)
    requires Moves.KeptByMoves(P) && Keyed(s.client) && P(s.client) && !step.Reopen?
    ensures P(Next(s, step).client)
  {
    hide Moves.KeptByMoves, Process, PublishMessage, PublishPlain, QosSession.Ack;
    if IsAside(step) {
      StepAside(s, step);
    }
    if step.Submit? {
      Moves.PublishKeeps(P, s.client, step.qos);
    } else if step.ClientReceive? {
      if s.client.link.Up? && s.toClient != [] {
        Moves.ProcessKeeps(P, s.client, s.toClient[0]);
      }
    } else {
      Moves.RestKeeps(P, s.client, Next(s, step).client);
    }
  }

  // ---------- exactly when a reset keeps it ----------

  /** The message waits to resend its PUBREL, was sent, and was never marked as a duplicate: a kept
      session's next reset makes it a PUBLISH again. */
  ghost predicate Unmarked(c: Session, k: nat) {
    k in c.table && c.table[k].state.ResendPubrel? && !c.table[k].dup && Carries(c.sent, c.table[k].body)
  }

  ghost predicate LosesMark(c: Session, clean: bool) {
    !clean && exists k :: Unmarked(c, k)
  }

  lemma ResetTableMarks(c: Session, clean: bool)
    requires Marked(c) && Rows(c.table, c.accepted)
    ensures Remembered(ResetTable(c.table, clean), c.sent) <==> !LosesMark(c, clean)
  {
    var t := ResetTable(c.table, clean);
    forall k | k in c.table
      ensures (Waits(t[k]) && Carries(c.sent, t[k].body) && !t[k].dup) <==> !clean && Unmarked(c, k)
    {
      assert StateFits(c.table[k]);
    }
  }

  lemma ReconnectIs(c: Session, clean: bool, link: Link)
    ensures SameMarks(c.(table := ResetTable(c.table, clean)), Reconnect(c, clean, link))
  {
    hide ResetTable;
  }

  /** A reset leaves every message that was sent marked, unless a kept session makes a PUBLISH of
      one that waits to resend its PUBREL and bears no mark. */
  lemma ResetMarkedExactly(c: Session, clean: bool, link: Link)
    requires Marked(c) && Rows(c.table, c.accepted)
    ensures Marked(Reconnect(c, clean, link)) <==> !LosesMark(c, clean)
  {
    hide Flagged, Remembered, Rows, Reconnect, LosesMark;
    ReconnectIs(c, clean, link);
    ResetTableMarks(c, clean);
    ResetNumbered(c, clean);
  }

  lemma ResetNumbered(c: Session, clean: bool)
    requires Numbered(c.table, c.sent, c.accepted)
    ensures Numbered(ResetTable(c.table, clean), c.sent, c.accepted)
  {
    hide Carries;
    var t := ResetTable(c.table, clean);
    assert forall k :: k in t ==> t[k].body == c.table[k].body;
  }

  // ---------- every run ----------

  ghost predicate NeverLosesMark(s: System, steps: seq<Step>)
    requires Keyed(s.client)
    decreases |steps|
  {
    steps != [] ==>
      && (steps[0].Reopen? ==> !LosesMark(s.client, steps[0].clean))
      && NeverLosesMark(Next(s, steps[0]), steps[1..])
  }

  lemma NextMarked(s: System, step: Step)
    requires Keyed(s.client) && Marked(s.client) && Rows(s.client.table, s.client.accepted)
    requires step.Reopen? ==> !LosesMark(s.client, step.clean)
    ensures Marked(Next(s, step).client)
  {
    hide Marked, Next, LosesMark, Rows;
    if step.Reopen? {
      ResetMarkedExactly(s.client, step.clean, step.link);
      ReopenClient(s, step.clean, step.link);
    } else {
      MovesMarked();
      StepKeeps((c: Session) => Marked(c), s, step);
    }
  }

  lemma {:induction false} RunMarked(s: System, steps: seq<Step>)
    requires Ok(s) && Keyed(s.client) && Marked(s.client) && NeverLosesMark(s, steps)
    ensures Marked(Run(s, steps).client)
    decreases |steps|
  {
    hide Ok, Marked, Next, LosesMark;
    if steps != [] {
      OkTable(s);
      NextMarked(s, steps[0]);
      NextKeeps(s, steps[0]);
      RunMarked(Next(s, steps[0]), steps[1..]);
    }
  }

  /** In every run without such a reset, a PUBLISH without the flag is the first of its message. */
  lemma FlagKept(config: Config, early: bool, steps: seq<Step>)
    requires NeverLosesMark(Initial(config, early), steps)
    ensures Flagged(Run(Initial(config, early), steps).client.sent)
  {
    InitialOk(config, early);
    RunMarked(Initial(config, early), steps);
  }

  // ---------- and otherwise it is lost ----------

  /** Every PUBLISH queued since `c` is recorded as sent since `c`. */
  ghost predicate Logged(c: Session, c1: Session) {
    && c.outPacket <= c1.outPacket && c.sent <= c1.sent
    && (forall i :: |c.outPacket| <= i < |c1.outPacket| && c1.outPacket[i].Publish?
          ==> c1.outPacket[i] in c1.sent[|c.sent|..])
  }

  lemma NoneLogged(c: Session)
    ensures Logged(c, c)
  {
  }

  lemma StartLogged(c: Session, c1: Session, mid: nat)
    requires Logged(c, c1) && mid in c1.table
    ensures Logged(c, Start(c1, mid, true).0)
  {
    var c2 := Start(c1, mid, true).0;
    if c1.link.Up? {
      assert c2.sent[|c.sent|..] == c1.sent[|c.sent|..] + [c2.outPacket[|c1.outPacket|]];
    }
  }

  /** No PUBLISH is among the packets queued. */
  lemma OthersLogged(c: Session, c1: Session, c2: Session, packets: seq<Packet>)
    requires Logged(c, c1) && c2.outPacket == c1.outPacket + packets && c2.sent == c1.sent
    requires forall p :: p in packets ==> !p.Publish?
    ensures Logged(c, c2)
  {
  }

  lemma ConnackLogged(c: Session)
    requires Keyed(c)
    ensures Logged(c, HandleConnack(c, 0).0)
  {
    NoneLogged(c);
    hide HandleConnack, Start, Logged;
    var P := (c1: Session) => Logged(c, c1);
    assert Loops.KeptByStart(P, true) by {
      forall c1: Session, mid |
        P(c1) && mid in c1.table && (c1.table[mid].state.Queued? || c1.table[mid].state.ReadyToPublish?)
        ensures P(Start(c1, mid, true).0)
      {
        StartLogged(c, c1, mid);
      }
    }
    assert Loops.KeptByResume(P) by {
      forall c1: Session, mid | P(c1) && mid in c1.table && c1.table[mid].qos == 2 && c1.table[mid].state.ResendPubrel?
        ensures P(ResumePubrel(c1, mid))
      {
        OthersLogged(c, c1, ResumePubrel(c1, mid), [Pubrel(mid)]);
      }
    }
    assert Loops.KeptByWrite(P) by {
      forall c1: Session | P(c1) ensures P(LoopWrite(c1).0) {
        OthersLogged(c, c1, LoopWrite(c1).0, []);
      }
    }
    Loops.ConnackKeeps(P, c, 0);
  }

  lemma NotFlagged(before: seq<Packet>, sent: seq<Packet>, p: Packet)
    requires before <= sent && p in sent[|before|..] && p.Publish? && !p.dup && Carries(before, p.body)
    ensures !Flagged(sent)
  {
    var q :| q in before && q.Publish? && q.body == p.body;
    var i :| 0 <= i < |before| && before[i] == q;
    var j :| 0 <= j < |sent[|before|..]| && sent[|before|..][j] == p;
    assert sent[i] == q && sent[|before| + j] == p;
  }

  lemma ResetUnmarks(c: Session, k: nat, writes: nat)
    requires Keyed(c) && Unmarked(c, k) && Rows(c.table, c.accepted)
    ensures var c0 := Reset(c, false, [], writes);
      && k in c0.table && c0.table[k] == Msg(c.table[k].body, c.table[k].qos, ReadyToPublish, false)
      && c0.sent == c.sent && Keyed(c0)
  {
    assert StateFits(c.table[k]);
  }

  lemma ConnectsUnflagged(s: System, k: nat)
    requires Ok(s) && Keyed(s.client) && Unmarked(s.client, k)
    ensures !Flagged(Reconnected(s, false).client.sent)
  {
    hide Process, Reset, Carries, Flagged, Keyed, Sorted, Rows, Ranked, ConnectionOk, SendsFit, AcksFit, Single;
    var writes := |s.client.order| + 1;
    var c0 := Reset(s.client, false, [], writes);
    ResetLeaves(s.client, false, writes);
    ResetRows(s.client, false, writes);
    ResetSorted(s.client, false, writes);
    ResetUnmarks(s.client, k, writes);
    var i := ConnackSends(c0, k);
    ConnackLogged(c0);
    ProcessConnackLogs(c0);
    var c1 := Process(c0, Connack);
    NotFlagged(c0.sent, c1.sent, c1.outPacket[i]);
  }

  lemma ProcessConnackLogs(c: Session)
    requires Keyed(c)
    ensures Process(c, Connack).outPacket == HandleConnack(c, 0).0.outPacket
    ensures Process(c, Connack).sent == HandleConnack(c, 0).0.sent
  {
    hide HandleConnack;
  }

  lemma {:induction false} NoResetNeverLoses(s: System, steps: seq<Step>)
    requires Keyed(s.client) && NoReset(steps)
    ensures NeverLosesMark(s, steps)
    decreases |steps|
  {
    if steps != [] {
      NoResetNeverLoses(Next(s, steps[0]), steps[1..]);
    }
  }

  lemma StaysFlagged(s: System, clean: bool, steps: seq<Step>)
    requires Ok(s) && Keyed(s.client) && Marked(s.client) && !LosesMark(s.client, clean) && NoReset(steps)
    ensures Flagged(Run(s, [Reopen(clean, Up(1))] + steps).client.sent)
  {
    hide Ok, Next, LosesMark, Run, Flagged, Keyed;
    var s1 := Next(s, Reopen(clean, Up(1)));
    OkTable(s);
    NextMarked(s, Reopen(clean, Up(1)));
    NextKeeps(s, Reopen(clean, Up(1)));
    NoResetNeverLoses(s1, steps);
    RunMarked(s1, steps);
    RunConcat(s, [Reopen(clean, Up(1))], steps);
    RunSnoc(s, [], Reopen(clean, Up(1)));
    Demotion.RunEmpty(s);
    assert [] + [Reopen(clean, Up(1))] == [Reopen(clean, Up(1))];
  }

  /** What follows a reset can send a message a second time without the flag exactly when the reset
      keeps the session and finds a message unmarked. */
  lemma UnflaggedExactly(s: System, clean: bool)
    requires Ok(s) && Keyed(s.client) && Marked(s.client)
    ensures LosesMark(s.client, clean)
       <==> exists steps :: NoReset(steps) && !Flagged(Run(s, [Reopen(clean, Up(1))] + steps).client.sent)
  {
    hide Ok, Marked, Flagged, Run, Unmarked, Reconnected, Keyed;
    if LosesMark(s.client, clean) {
      var k :| Unmarked(s.client, k);
      ConnectsUnflagged(s, k);
      ReconnectRuns(s, false);
      var steps := RoundSteps(|s.client.order| + 1);
      assert NoReset(steps) && !Flagged(Run(s, [Reopen(clean, Up(1))] + steps).client.sent);
    } else {
      forall steps | NoReset(steps) ensures Flagged(Run(s, [Reopen(clean, Up(1))] + steps).client.sent) {
        StaysFlagged(s, clean, steps);
      }
    }
  }

  lemma OneUnmarked(early: bool)
    ensures Unmarked(Demotion.One(ResendPubrel, 0, 8, [Connect(false)]), 1)
  {
    assert Publish(1, 2, false, 0) in [Publish(1, 2, false, 0)];
  }

  lemma GoodOk(s: System)
    requires Demotion.Good(s)
    ensures Ok(s)
  {
  }

  /** A run of the real protocol in which a QoS 2 message is sent twice, both times without DUP: its
      PUBCOMP is lost and the client reconnects twice before it could resend the PUBREL. */
  lemma UnflaggedHappens(early: bool)
    ensures exists steps :: !Flagged(Run(Initial(Config(20, 0, false), early), steps).client.sent)
  {
    hide Ok, Flagged, Run, Unmarked, Demotion.Good, Demotion.One, Keyed, Initial, Reconnected;
    var s0 := Initial(Config(20, 0, false), early);
    Demotion.StartsKeyed(early);
    var a := Demotion.LostPubcompHappens(early);
    var s := Run(s0, a);
    GoodOk(s);
    OneUnmarked(early);
    ConnectsUnflagged(s, 1);
    ReconnectRuns(s, false);
    var b := [Reopen(false, Up(1))] + RoundSteps(|s.client.order| + 1);
    RunConcat(s0, a, b);
    assert !Flagged(Run(s0, a + b).client.sent);
  }

  // ---------- a flag before the first time ----------

  /** A PUBLISH with the flag repeats an earlier one. */
  ghost predicate FirstPlain(sent: seq<Packet>) {
    forall j :: 0 <= j < |sent| && sent[j].Publish? && sent[j].dup ==> Carries(sent[..j], sent[j].body)
  }

  /** So does every message of the table that has it. */
  ghost predicate Earned(c: Session) {
    && FirstPlain(c.sent)
    && (forall k :: k in c.table && c.table[k].dup ==> Carries(c.sent, c.table[k].body))
  }

  lemma CarriesMore(sent: seq<Packet>, more: seq<Packet>, body: nat)
    requires Carries(sent, body)
    ensures Carries(sent + more, body)
  {
    var p :| p in sent && p.Publish? && p.body == body;
    assert p in sent + more;
  }

  lemma FirstPlainMore(sent: seq<Packet>, p: Packet)
    requires FirstPlain(sent) && p.Publish? && (p.dup ==> Carries(sent, p.body))
    ensures FirstPlain(sent + [p])
  {
    var more := sent + [p];
    forall j | 0 <= j < |more| && more[j].Publish? && more[j].dup ensures Carries(more[..j], more[j].body) {
      if j < |sent| {
        assert more[..j] == sent[..j];
      } else {
        assert more[..j] == sent;
      }
    }
  }

  lemma StartEarned(c: Session, mid: nat, inCallback: bool)
    requires Earned(c) && mid in c.table
    ensures Earned(Start(c, mid, inCallback).0)
  {
    var m := c.table[mid].(state := FirstState(c.table[mid].qos));
    var c1 := Start(c, mid, inCallback).0;
    hide FirstPlain, Carries;
    if c.link.Up? {
      FirstPlainMore(c.sent, PublishOf(mid, m));
      forall k | k in c1.table && c1.table[k].dup ensures Carries(c1.sent, c1.table[k].body) {
        CarriesMore(c.sent, [PublishOf(mid, m)], c1.table[k].body);
      }
    }
  }

  lemma MovesEarned()
    ensures Moves.KeptByMoves((c: Session) => Earned(c))
  {
    hide FirstPlain, Carries, Start;
    var P := (c: Session) => Earned(c);
    forall c: Session, mid, inCallback |
      P(c) && mid in c.table && (c.table[mid].state.Queued? || c.table[mid].state.ReadyToPublish?)
      ensures P(Start(c, mid, inCallback).0)
    {
      StartEarned(c, mid, inCallback);
    }
  }

  /** The reset marks a message of this kind as a duplicate. */
  predicate Marks(m: Msg, clean: bool) {
    if m.qos == 1 then m.state.WaitForPuback?
    else if clean then !m.state.ReadyToPublish?
    else m.state.WaitForPubrec?
  }

  /** The reset marks message `k` although no PUBLISH of it was put on a connection. */
  ghost predicate MarksEarly(c: Session, clean: bool, k: nat) {
    k in c.table && Marks(c.table[k], clean) && !Carries(c.sent, c.table[k].body)
  }

  /** A reset marks no message too early exactly when every message that it marks was sent. */
  lemma ResetEarnedExactly(c: Session, clean: bool, link: Link)
    requires Earned(c)
    ensures Earned(Reconnect(c, clean, link)) <==> !exists k :: MarksEarly(c, clean, k)
  {
    hide Reconnect, Carries, FirstPlain;
    ReconnectIs(c, clean, link);
    var t := ResetTable(c.table, clean);
    forall k | k in c.table
      ensures (t[k].dup <==> c.table[k].dup || Marks(c.table[k], clean)) && t[k].body == c.table[k].body
    {
    }
    var c1 := Reconnect(c, clean, link);
    if k :| MarksEarly(c, clean, k) {
      assert k in c1.table && c1.table[k].dup && !Carries(c1.sent, c1.table[k].body);
    } else {
      forall k | k in c1.table && c1.table[k].dup ensures Carries(c1.sent, c1.table[k].body) {
        assert !MarksEarly(c, clean, k);
      }
    }
  }

  ghost predicate NeverEarly(s: System, steps: seq<Step>)
    requires Keyed(s.client)
    decreases |steps|
  {
    steps != [] ==>
      && (steps[0].Reopen? ==> !exists k :: MarksEarly(s.client, steps[0].clean, k))
      && NeverEarly(Next(s, steps[0]), steps[1..])
  }

  lemma NextEarned(s: System, step: Step)
    requires Keyed(s.client) && Earned(s.client)
    requires step.Reopen? ==> !exists k :: MarksEarly(s.client, step.clean, k)
    ensures Earned(Next(s, step).client)
  {
    hide Earned, Next, MarksEarly;
    if step.Reopen? {
      ResetEarnedExactly(s.client, step.clean, step.link);
      ReopenClient(s, step.clean, step.link);
    } else {
      MovesEarned();
      StepKeeps((c: Session) => Earned(c), s, step);
    }
  }

  lemma {:induction false} RunEarned(s: System, steps: seq<Step>)
    requires Keyed(s.client) && Earned(s.client) && NeverEarly(s, steps)
    ensures Earned(Run(s, steps).client)
    decreases |steps|
  {
    hide Earned, Next, MarksEarly;
    if steps != [] {
      NextEarned(s, steps[0]);
      RunEarned(Next(s, steps[0]), steps[1..]);
    }
  }

  /** In every run whose resets lose no mark and set none too early a PUBLISH has the flag if and only if its
      message was sent before. */
  lemma FlagExact(config: Config, early: bool, steps: seq<Step>)
    requires NeverLosesMark(Initial(config, early), steps) && NeverEarly(Initial(config, early), steps)
    ensures var sent := Run(Initial(config, early), steps).client.sent;
      forall j :: 0 <= j < |sent| && sent[j].Publish? ==> (sent[j].dup <==> Carries(sent[..j], sent[j].body))
  {
    FlagKept(config, early, steps);
    RunEarned(Initial(config, early), steps);
    hide Run;
    var sent := Run(Initial(config, early), steps).client.sent;
    forall j | 0 <= j < |sent| && sent[j].Publish? && Carries(sent[..j], sent[j].body) ensures sent[j].dup {
      var p :| p in sent[..j] && p.Publish? && p.body == sent[j].body;
      var i :| 0 <= i < j && sent[i] == p;
    }
  }

  // ---------- and when it comes too early ----------

  /** Whatever is sent of `body` behind the first `n` packets has the flag, and so has its message. */
  ghost predicate Flags(c: Session, n: nat, body: nat) {
    && n <= |c.sent|
    && (forall p :: p in c.sent[n..] && p.Publish? && p.body == body ==> p.dup)
    && (forall k :: k in c.table && c.table[k].body == body ==> c.table[k].dup)
  }

  lemma StartFlags(c: Session, n: nat, body: nat, mid: nat)
    requires Flags(c, n, body) && mid in c.table
    ensures Flags(Start(c, mid, true).0, n, body)
  {
    var c1 := Start(c, mid, true).0;
    var m := c.table[mid].(state := FirstState(c.table[mid].qos));
    if c.link.Up? {
      assert c1.sent[n..] == c.sent[n..] + [PublishOf(mid, m)];
    }
  }

  lemma ConnackFlags(c: Session, n: nat, body: nat)
    requires Keyed(c) && Flags(c, n, body)
    ensures Flags(HandleConnack(c, 0).0, n, body)
  {
    hide HandleConnack, Start;
    var P := (c1: Session) => Flags(c1, n, body);
    assert Loops.KeptByStart(P, true) by {
      forall c1: Session, mid |
        P(c1) && mid in c1.table && (c1.table[mid].state.Queued? || c1.table[mid].state.ReadyToPublish?)
        ensures P(Start(c1, mid, true).0)
      {
        StartFlags(c1, n, body, mid);
      }
    }
    Loops.ConnackKeeps(P, c, 0);
  }

  lemma FirstPlainLess(sent: seq<Packet>, n: nat)
    requires FirstPlain(sent) && n <= |sent|
    ensures FirstPlain(sent[..n])
  {
    var less := sent[..n];
    forall j | 0 <= j < n && less[j].Publish? && less[j].dup ensures Carries(less[..j], less[j].body) {
      assert less[..j] == sent[..j];
    }
  }

  lemma {:induction false} EarlyFlag(before: seq<Packet>, sent: seq<Packet>, body: nat)
    requires before <= sent && !Carries(before, body) && FirstPlain(sent)
    requires forall p :: p in sent[|before|..] && p.Publish? && p.body == body ==> p.dup
    ensures !Carries(sent, body)
    decreases |sent|
  {
    if |sent| == |before| {
      assert sent == before;
    } else {
      var n := |sent| - 1;
      FirstPlainLess(sent, n);
      assert sent[|before|..] == sent[..n][|before|..] + [sent[n]];
      EarlyFlag(before, sent[..n], body);
      assert sent == sent[..n] + [sent[n]];
    }
  }

  lemma ResetFlags(c: Session, clean: bool, k: nat, writes: nat)
    requires Keyed(c) && MarksEarly(c, clean, k) && Rows(c.table, c.accepted)
    ensures var c0 := Reset(c, clean, [], writes);
      && k in c0.table && c0.table[k] == Msg(c.table[k].body, c.table[k].qos, ReadyToPublish, true)
      && c0.sent == c.sent && Keyed(c0) && Flags(c0, |c.sent|, c.table[k].body)
  {
    assert StateFits(c.table[k]);
    ResetLeaves(c, clean, writes);
  }

  lemma ConnectsEarly(s: System, clean: bool, k: nat)
    requires Ok(s) && Keyed(s.client) && MarksEarly(s.client, clean, k)
    ensures !FirstPlain(Reconnected(s, clean).client.sent)
  {
    hide Process, Reset, Carries, FirstPlain, Keyed, Sorted, Rows, Ranked, ConnectionOk, SendsFit, AcksFit, Single;
    var writes := |s.client.order| + 1;
    var c0 := Reset(s.client, clean, [], writes);
    ResetLeaves(s.client, clean, writes);
    ResetRows(s.client, clean, writes);
    ResetSorted(s.client, clean, writes);
    ResetFlags(s.client, clean, k, writes);
    var i := ConnackSends(c0, k);
    ConnackLogged(c0);
    ConnackFlags(c0, |c0.sent|, s.client.table[k].body);
    ProcessConnackLogs(c0);
    var c1 := Process(c0, Connack);
    CarriesIn(c1.sent, |c0.sent|, c1.outPacket[i]);
    if FirstPlain(c1.sent) {
      EarlyFlag(c0.sent, c1.sent, s.client.table[k].body);
    }
  }

  lemma CarriesIn(sent: seq<Packet>, n: nat, p: Packet)
    requires n <= |sent| && p in sent[n..] && p.Publish?
    ensures Carries(sent, p.body)
  {
    assert p in sent;
  }

  lemma {:induction false} NoResetNeverEarly(s: System, steps: seq<Step>)
    requires Keyed(s.client) && NoReset(steps)
    ensures NeverEarly(s, steps)
    decreases |steps|
  {
    if steps != [] {
      NoResetNeverEarly(Next(s, steps[0]), steps[1..]);
    }
  }

  lemma StaysEarned(s: System, clean: bool, steps: seq<Step>)
    requires Keyed(s.client) && Earned(s.client) && NoReset(steps)
    requires !exists k :: MarksEarly(s.client, clean, k)
    ensures FirstPlain(Run(s, [Reopen(clean, Up(1))] + steps).client.sent)
  {
    hide Next, MarksEarly, Run, FirstPlain, Keyed;
    var s1 := Next(s, Reopen(clean, Up(1)));
    NextEarned(s, Reopen(clean, Up(1)));
    NoResetNeverEarly(s1, steps);
    RunEarned(s1, steps);
    RunConcat(s, [Reopen(clean, Up(1))], steps);
    RunSnoc(s, [], Reopen(clean, Up(1)));
    Demotion.RunEmpty(s);
    assert [] + [Reopen(clean, Up(1))] == [Reopen(clean, Up(1))];
  }

  /** What follows a reset can put the flag on the first PUBLISH of a message exactly when the reset marks a
      message of which none was sent. */
  lemma EarlyExactly(s: System, clean: bool)
    requires Ok(s) && Keyed(s.client) && Earned(s.client)
    ensures (exists k :: MarksEarly(s.client, clean, k))
       <==> exists steps :: NoReset(steps) && !FirstPlain(Run(s, [Reopen(clean, Up(1))] + steps).client.sent)
  {
    hide Ok, Earned, FirstPlain, Run, MarksEarly, Reconnected, Keyed;
    if exists k :: MarksEarly(s.client, clean, k) {
      var k :| MarksEarly(s.client, clean, k);
      ConnectsEarly(s, clean, k);
      ReconnectRuns(s, clean);
      var steps := RoundSteps(|s.client.order| + 1);
      assert NoReset(steps) && !FirstPlain(Run(s, [Reopen(clean, Up(1))] + steps).client.sent);
    } else {
      forall steps | NoReset(steps) ensures FirstPlain(Run(s, [Reopen(clean, Up(1))] + steps).client.sent) {
        StaysEarned(s, clean, steps);
      }
    }
  }

  /** A client with a window of one that holds a second QoS 2 message back. */
  function OneWaits(): Session {
    Session(Config(1, 0, false), [1, 2],
            map[1 := Msg(0, 2, WaitForPubrec, false), 2 := Msg(1, 2, Queued, false)],
            map[], 1, 2, Up(7), [Publish(1, 2, false, 0)], 2, [], [], 0, [Publish(1, 2, false, 0)], 0)
  }

  lemma WaitsEarly(early: bool)
    ensures var s := System(Fresh(Config(1, 0, false)).(link := Up(8)), InFlight.Broke(early), []);
      Next(Next(s, Submit(2)), Submit(2)) == System(OneWaits(), InFlight.Broke(early), [])
    ensures MarksEarly(OneWaits(), true, 2)
  {
  }

  /** A run in which the only PUBLISH of a message has the flag: it was held back when a clean session
      started. */
  lemma EarlyHappens(early: bool)
    ensures exists steps :: !FirstPlain(Run(Initial(Config(1, 0, false), early), steps).client.sent)
  {
    hide Next, Ok, FirstPlain, Run, MarksEarly, OneWaits, Keyed, Initial, Reconnected;
    var s0 := Initial(Config(1, 0, false), early);
    Window.InitialKeyed(early);
    InitialOk(Config(1, 0, false), early);
    var a := [Reopen(false, Up(9))] + [BrokerReceive] + [ClientReceive];
    var b := [Submit(2)] + [Submit(2)];
    RunThree(s0, Reopen(false, Up(9)), BrokerReceive, ClientReceive);
    InFlight.Connected(early);
    InFlight.RunTwo(Run(s0, a), Submit(2), Submit(2));
    WaitsEarly(early);
    RunConcat(s0, a, b);
    var s := Run(s0, a + b);
    RunKeeps(s0, a + b);
    ConnectsEarly(s, true, 2);
    ReconnectRuns(s, true);
    var d := [Reopen(true, Up(1))] + RoundSteps(|s.client.order| + 1);
    RunConcat(s0, a + b, d);
    assert !FirstPlain(Run(s0, a + b + d).client.sent);
  }
}
