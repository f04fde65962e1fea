/** The in-flight window: what the counter counts, when messages wait, and what the resend
    loop may rely on. */
module Window {
  import opened QosSession
  import opened Network
  import opened Numbers
  import opened Wire
  import opened Resend
  import Loops

  /** The messages under way on this connection. */
  function Waiting(table: map<nat, Msg>): set<nat> {
    set k | k in table && Rank(table[k]) == 1
  }

  /** The counter is the number of messages under way, less the incoming messages released
      since the last reset, each of which has wrongly taken one off. */
  ghost predicate Accounted(c: Session) {
    c.inflight == |Waiting(c.table)| - c.released
  }

  ghost predicate Full(c: Session) {
    c.config.maxInflight > 0 && c.inflight >= c.config.maxInflight
  }

  /** A message is held back only while the window is full. */
  ghost predicate QueuedOnlyIfFull(c: Session) {
    forall k :: k in c.table && c.table[k].state.Queued? ==> Full(c)
  }

  /** The CONNACK of this connection has not been handled yet. */
  predicate Pending(s: System) {
    || (s.client.outPacket != [] && s.client.outPacket[0].Connect?)
    || (s.toClient != [] && s.toClient[0].Connack?)
  }

  ghost predicate Steady(s: System) {
    && Ok(s)
    && Accounted(s.client)
    && (s.client.link.Up? ==> QueuedOnlyIfFull(s.client))
    && (s.client.link.Up? && Pending(s) ==> Ranked(s.client.order, s.client.table, 0))
  }

  // ---------- the counter ----------

  lemma WaitingUpdate(table: map<nat, Msg>, k: nat, m: Msg)
    requires k in table
    ensures Waiting(table[k := m]) == if Rank(m) == 1 then Waiting(table) + {k} else Waiting(table) - {k}
  {
  }

  lemma StartAccounted(c: Session, mid: nat, inCallback: bool)
    requires Accounted(c) && mid in c.table && Rank(c.table[mid]) != 1
    ensures Accounted(Start(c, mid, inCallback).0)
  {
    WaitingUpdate(c.table, mid, c.table[mid].(state := FirstState(c.table[mid].qos)));
  }

  lemma ResumeAccounted(c: Session, mid: nat)
    requires Accounted(c) && mid in c.table && Rank(c.table[mid]) != 1
    ensures Accounted(ResumePubrel(c, mid))
  {
    WaitingUpdate(c.table, mid, c.table[mid].(state := WaitForPubcomp));
  }

  lemma UpdateInflightAccounted(c: Session, i: nat)
    requires Keyed(c) && Accounted(c)
    ensures Accounted(UpdateInflight(c, i).0)
  {
    hide UpdateInflight, Start, Accounted;
    var P := (c: Session) => Accounted(c);
    assert Loops.KeptByStart(P, false) by {
      forall c: Session, mid |
        P(c) && mid in c.table && (c.table[mid].state.Queued? || c.table[mid].state.ReadyToPublish?)
        ensures P(Start(c, mid, false).0)
      {
        StartAccounted(c, mid, false);
      }
    }
    Loops.UpdateInflightKeeps(P, c, i);
  }

  lemma WriteCounts(c: Session)
    ensures Accounted(c) ==> Accounted(LoopWrite(c).0)
    ensures QueuedOnlyIfFull(c) ==> QueuedOnlyIfFull(LoopWrite(c).0)
  {
  }

  lemma ConnackAccounted(c: Session)
    requires Keyed(c) && Accounted(c)
    ensures Accounted(HandleConnack(c, 0).0)
  {
    hide HandleConnack, Start, ResumePubrel, LoopWrite, Accounted;
    var P := (c: Session) => Accounted(c);
    assert Loops.KeptByStart(P, true) by {
      forall c: Session, mid |
        P(c) && mid in c.table && (c.table[mid].state.Queued? || c.table[mid].state.ReadyToPublish?)
        ensures P(Start(c, mid, true).0)
      {
        StartAccounted(c, mid, true);
      }
    }
    assert Loops.KeptByResume(P) by {
      forall c: Session, mid | P(c) && mid in c.table && c.table[mid].qos == 2 && c.table[mid].state.ResendPubrel?
        ensures P(ResumePubrel(c, mid))
      {
        ResumeAccounted(c, mid);
      }
    }
    assert Loops.KeptByWrite(P) by {
      forall c: Session | P(c) ensures P(LoopWrite(c).0) {
        WriteCounts(c);
      }
    }
    Loops.ConnackKeeps(P, c, 0);
  }

  lemma PublishAccounted(c: Session, qos: nat)
    requires Accounted(c)
    ensures Accounted(PublishMessage(c, qos).0)
  {
    var mid := NextMid(c.lastMid);
    if mid !in c.table {
      var c1 := c.(lastMid := mid);
      assert Waiting(Accept(c1, mid, qos, Queued).table) == Waiting(c.table);
      assert Waiting(Accept(c1, mid, qos, ReadyToPublish).table) == Waiting(c.table);
      StartAccounted(Accept(c1, mid, qos, Queued), mid, false);
    }
  }

  lemma AckAccounted(c: Session, mid: nat)
    requires Keyed(c) && Accounted(c) && mid in c.table && Rank(c.table[mid]) == 1
    ensures Accounted(HandlePubackcomp(c, mid).0)
  {
    assert Waiting(c.table - {mid}) == Waiting(c.table) - {mid};
    UpdateInflightAccounted(Complete(c, mid), 0);
  }

  lemma PubrecAccounted(c: Session, mid: nat)
    requires Accounted(c) && mid in c.table && Rank(c.table[mid]) == 1
    ensures Accounted(HandlePubrec(c, mid).0)
  {
    WaitingUpdate(c.table, mid, c.table[mid].(state := WaitForPubcomp));
    assert Waiting(c.table) + {mid} == Waiting(c.table);
  }

  lemma PubrelAccounted(c: Session, mid: nat)
    requires Keyed(c) && Accounted(c)
    ensures Accounted(HandlePubrel(c, mid).0)
  {
    if mid in c.inbox {
      UpdateInflightAccounted(Release(c, mid), 0);
    }
  }

  lemma ProcessAccounted(c: Session, p: Packet)
    requires Keyed(c) && Accounted(c)
    requires IsAck(p) ==> AckFits(c.table, p)
    ensures Accounted(Process(c, p))
  {
    match p
    case Connack => ConnackAccounted(c);
    case Puback(mid) => AckAccounted(c, mid);
    case Pubcomp(mid) => AckAccounted(c, mid);
    case Pubrec(mid) => PubrecAccounted(c, mid);
    case Pubrel(mid) => PubrelAccounted(c, mid);
    case _ =>
  }

  lemma ResetEmpties(c: Session, clean: bool)
    ensures Waiting(ResetOut(c, clean).table) == {}
    ensures forall k :: k in c.table ==> Rank(ResetOut(c, clean).table[k]) == 0
  {
  }

  // ---------- the window ----------

  /** The refill starts messages until the window is full or none is held back. */
  lemma {:induction false} RefillFills(c: Session, i: nat)
    requires Keyed(c) && c.config.maxInflight > 0 && i <= |c.order|
    requires forall j :: 0 <= j < i ==> c.table[c.order[j]].state.Queued? ==> Full(c)
    ensures var (r, rc) := UpdateInflight(c, i);
      && r.config == c.config
      && r.inflight <= Max(c.inflight, c.config.maxInflight)
      && (if rc.Success? then forall j :: 0 <= j < |r.order| ==> r.table[r.order[j]].state.Queued? ==> Full(r)
          else r.link.Down?)
    decreases |c.order| - i
  {
    if i < |c.order| && c.inflight < c.config.maxInflight {
      if c.table[c.order[i]].state.Queued? {
        if Start(c, c.order[i], false).1.Success? {
          RefillFills(Start(c, c.order[i], false).0, i + 1);
        }
      } else {
        RefillFills(c, i + 1);
      }
    }
  }

  lemma RefillWorks(c: Session)
    requires forall k :: k in c.order <==> k in c.table
    requires c.config.maxInflight == 0 ==> QueuedOnlyIfFull(c)
    ensures var (r, rc) := Refill(c);
      && r.config == c.config
      && (c.config.maxInflight > 0 ==> r.inflight <= Max(c.inflight, c.config.maxInflight))
      && (if rc.Success? then QueuedOnlyIfFull(r) else r.link.Down?)
  {
    if c.config.maxInflight > 0 {
      RefillFills(c, 0);
    }
  }

  lemma ConnackQueued(c: Session)
    requires Keyed(c) && QueuedOnlyIfFull(c)
    ensures QueuedOnlyIfFull(HandleConnack(c, 0).0)
  {
    hide HandleConnack, Start, ResumePubrel, LoopWrite, QueuedOnlyIfFull;
    var P := (c: Session) => QueuedOnlyIfFull(c);
    assert Loops.KeptByStart(P, true) by {
      forall c: Session, mid |
        P(c) && mid in c.table && (c.table[mid].state.Queued? || c.table[mid].state.ReadyToPublish?)
        ensures P(Start(c, mid, true).0)
      {
        StartQueued(c, mid);
      }
    }
    assert Loops.KeptByResume(P) by {
      forall c: Session, mid | P(c) && mid in c.table && c.table[mid].qos == 2 && c.table[mid].state.ResendPubrel?
        ensures P(ResumePubrel(c, mid))
      {
        ResumeQueued(c, mid);
      }
    }
    assert Loops.KeptByWrite(P) by {
      forall c: Session | P(c) ensures P(LoopWrite(c).0) {
        WriteCounts(c);
      }
    }
    Loops.ConnackKeeps(P, c, 0);
  }

  lemma ResumeQueued(c: Session, mid: nat)
    requires mid in c.table && QueuedOnlyIfFull(c)
    ensures QueuedOnlyIfFull(ResumePubrel(c, mid))
  {
  }

  lemma StartQueued(c: Session, mid: nat)
    requires mid in c.table && QueuedOnlyIfFull(c)
    ensures QueuedOnlyIfFull(Start(c, mid, true).0)
  {
  }

  /** Up to a failed write, which closes the socket, the table stays as promised. */
  ghost predicate StillQueued(c: Session, r: Session, rc: Rc) {
    && r.config == c.config
    && (if rc.Success? then QueuedOnlyIfFull(r) else r.link.Down?)
    && (c.config.maxInflight > 0 ==> r.inflight <= Max(c.inflight, c.config.maxInflight))
  }

  lemma AckQueued(c: Session, mid: nat)
    requires (forall k :: k in c.order <==> k in c.table) && QueuedOnlyIfFull(c)
    ensures StillQueued(c, HandlePubackcomp(c, mid).0, HandlePubackcomp(c, mid).1)
  {
    hide Refill;
    if mid in c.table {
      RefillWorks(Complete(c, mid));
    }
  }

  lemma PubrelQueued(c: Session, mid: nat)
    requires (forall k :: k in c.order <==> k in c.table) && QueuedOnlyIfFull(c)
    ensures StillQueued(c, HandlePubrel(c, mid).0, HandlePubrel(c, mid).1)
  {
    hide Refill;
    if mid in c.inbox {
      RefillWorks(Release(c, mid));
    }
  }

  lemma ProcessQueued(c: Session, p: Packet)
    requires (forall k :: k in c.order <==> k in c.table) && QueuedOnlyIfFull(c)
    ensures var r := Process(c, p);
      && (r.link.Up? ==> QueuedOnlyIfFull(r))
      && (c.config.maxInflight > 0 && !p.Connack? ==> r.inflight <= Max(c.inflight, c.config.maxInflight))
  {
    hide HandleConnack, HandlePubackcomp, HandlePubrel, HandlePubrec, HandlePublish, QueuedOnlyIfFull;
    match p
    case Connack => ConnackQueued(c); ClosedQueued(HandleConnack(c, 0).0, Process(c, p));
    case Puback(mid) => AckQueued(c, mid);
    case Pubcomp(mid) => AckQueued(c, mid);
    case Pubrel(mid) => PubrelQueued(c, mid);
    case Pubrec(mid) => PubrecQueued(c, mid);
    case Publish(mid, qos, _, body) => DeliveryQueued(c, mid, qos, body);
    case Connect(_) =>
  }

  lemma ClosedQueued(c: Session, c1: Session)
    requires QueuedOnlyIfFull(c) && c1 == c.(link := c1.link)
    ensures QueuedOnlyIfFull(c1)
  {
  }

  lemma PubrecQueued(c: Session, mid: nat)
    requires QueuedOnlyIfFull(c)
    ensures StillQueued(c, HandlePubrec(c, mid).0, HandlePubrec(c, mid).1)
  {
  }

  lemma DeliveryQueued(c: Session, mid: nat, qos: nat, body: nat)
    requires QueuedOnlyIfFull(c)
    ensures var r := HandlePublish(c, mid, qos, body).0; QueuedOnlyIfFull(r) && r.inflight == c.inflight
    ensures var (r, rc) := HandlePublish(c, mid, qos, body); rc == Protocol || StillQueued(c, r, rc)
  {
  }

  lemma PublishQueued(c: Session, qos: nat)
    requires c.link.Up? ==> QueuedOnlyIfFull(c)
    ensures var r := PublishMessage(c, qos).0;
      && (r.link.Up? ==> QueuedOnlyIfFull(r))
      && (c.config.maxInflight > 0 ==> r.inflight <= Max(c.inflight, c.config.maxInflight))
  {
  }

  // ---------- the steps of the system ----------

  lemma NewMessageRanked(c: Session, qos: nat)
    requires (forall k :: k in c.order <==> k in c.table) && QueuedOnlyIfFull(c)
    requires Ranked(c.order, c.table, 0) && 1 <= qos <= 2 && c.link.Up?
    ensures Keyed(PublishMessage(c, qos).0) && Ranked(PublishMessage(c, qos).0.order, PublishMessage(c, qos).0.table, 0)
  {
    var mid := NextMid(c.lastMid);
    var r := PublishMessage(c, qos).0;
    if r.order != c.order {
      NewMessageRank(c, qos);
      AppendRanked(c.order, c.table, mid, r.table[mid]);
    }
  }

  lemma AppendRanked(order: seq<nat>, table: map<nat, Msg>, mid: nat, m: Msg)
    requires (forall k :: k in order <==> k in table) && Ranked(order, table, 0) && mid !in table
    requires Rank(m) == 2 || (Rank(m) == 1 && forall k :: k in table ==> !table[k].state.Queued?)
    ensures Ranked(order + [mid], table[mid := m], 0)
  {
    forall i | 0 <= i < |order| ensures order[i] in table {
    }
  }

  /** A new message waits behind the others, or starts when none is held back. */
  lemma NewMessageRank(c: Session, qos: nat)
    requires QueuedOnlyIfFull(c) && 1 <= qos <= 2 && c.link.Up? && PublishMessage(c, qos).0.order != c.order
    ensures var mid := NextMid(c.lastMid); var r := PublishMessage(c, qos).0;
      && r.order == c.order + [mid] && mid !in c.table && mid in r.table && r.table == c.table[mid := r.table[mid]]
      && (Rank(r.table[mid]) == 2 || (Rank(r.table[mid]) == 1 && !Full(c)))
  {
  }

  lemma SubmitSteady(s: System, qos: nat)
    requires Steady(s)
    ensures Steady(Next(s, Submit(qos)))
  {
    hide Ok, PublishMessage, Accounted, QueuedOnlyIfFull, Ranked, Sorted, Wired;
    NextKeeps(s, Submit(qos));
    if qos == 1 || qos == 2 {
      OkIndex(s);
      PublishAccounted(s.client, qos);
      PublishQueued(s.client, qos);
      PublishGrows(s.client, qos);
      if s.client.link.Up? && Pending(s) {
        NewMessageRanked(s.client, qos);
      }
      if s.client.link.Up? {
        SubmitPending(s, qos);
      }
    }
  }

  lemma OkIndex(s: System)
    requires Ok(s)
    ensures forall k :: k in s.client.order <==> k in s.client.table
  {
  }

  lemma OkRows(s: System)
    requires Ok(s)
    ensures Sorted(s.client.order, s.client.table) && Rows(s.client.table, s.client.accepted)
  {
  }

  lemma SubmitPending(s: System, qos: nat)
    requires Ok(s) && 1 <= qos <= 2 && s.client.link.Up?
    ensures Pending(Next(s, Submit(qos))) ==> Pending(s)
  {
    hide PublishMessage, Wired;
    PublishGrows(s.client, qos);
  }

  lemma ReceivePending(s: System)
    requires Ok(s) && s.client.link.Up? && s.toClient != []
    ensures !Pending(Next(s, ClientReceive))
  {
    hide Process, Wired;
    WiredKeyed(s.client, s.toClient);
    ProcessGrows(s.client, s.toClient[0]);
  }

  lemma ClientReceiveSteady(s: System)
    requires Steady(s)
    ensures Steady(Next(s, ClientReceive))
  {
    hide Ok, Process, Accounted, QueuedOnlyIfFull, Pending, Ranked;
    NextKeeps(s, ClientReceive);
    OkIndex(s);
    if s.client.link.Up? && s.toClient != [] {
      HeadFits(s);
      ReceivePending(s);
      ProcessAccounted(s.client, s.toClient[0]);
      ProcessQueued(s.client, s.toClient[0]);
    }
  }

  lemma HeadFits(s: System)
    requires Ok(s) && s.toClient != []
    ensures IsAck(s.toClient[0]) ==> AckFits(s.client.table, s.toClient[0])
  {
    hide Sorted, Rows, Single, SendsFit, ConnectionOk;
  }

  lemma ResetSteady(c: Session, clean: bool, link: Link)
    requires forall k :: k in c.order <==> k in c.table
    ensures var r := Reconnect(c, clean, link);
      && Accounted(r) && QueuedOnlyIfFull(r) && Keyed(r) && Ranked(r.order, r.table, 0)
  {
    hide ResetOut, ResetIn;
    ResetEmpties(c, clean);
    ResetFields(c, clean, link);
  }

  lemma ResetFields(c: Session, clean: bool, link: Link)
    ensures var r := Reconnect(c, clean, link);
      && r.table == ResetOut(c, clean).table && r.table.Keys == c.table.Keys && r.order == c.order
      && r.inflight == 0 && r.released == 0 && r.config == c.config
  {
  }

  lemma AsideSteady(s: System, step: Step)
    requires Steady(s) && IsAside(step)
    ensures Steady(Next(s, step))
  {
    NextKeeps(s, step);
    OkIndex(s);
    hide Ok, Next;
    StepAside(s, step);
  }

  lemma ReopenSteady(s: System, clean: bool, link: Link)
    requires Steady(s)
    ensures Steady(Next(s, Reopen(clean, link)))
  {
    hide Ok, Reconnect, Accounted, QueuedOnlyIfFull, Ranked;
    NextKeeps(s, Reopen(clean, link));
    OkIndex(s);
    ResetSteady(s.client, clean, link);
  }

  lemma BrokerReceiveSteady(s: System)
    requires Steady(s)
    ensures Steady(Next(s, BrokerReceive))
  {
    hide Ok, Receive;
    NextKeeps(s, BrokerReceive);
    BrokerPending(s);
  }

  lemma BrokerPending(s: System)
    requires Ok(s)
    ensures Pending(Next(s, BrokerReceive)) ==> Pending(s)
  {
    hide Wired;
  }

  lemma NextSteady(s: System, step: Step)
    requires Steady(s)
    ensures Steady(Next(s, step))
  {
    hide Ok, Process, PublishMessage, Reconnect, Receive;
    match step
    case Submit(qos) => SubmitSteady(s, qos);
    case ClientReceive => ClientReceiveSteady(s);
    case BrokerReceive => BrokerReceiveSteady(s);
    case SubmitPlain(_) => AsideSteady(s, step);
    case Ack(_, _) => AsideSteady(s, step);
    case Reopen(clean, link) => ReopenSteady(s, clean, link);
    case BrokerSend(_) => NextKeeps(s, step); OkIndex(s);
    case OtherMid => AsideSteady(s, step);
    case Grant(_) => NextKeeps(s, step);
    case Drop => NextKeeps(s, step);
  }

  lemma {:induction false} RunSteady(s: System, steps: seq<Step>)
    requires Steady(s)
    ensures Steady(Run(s, steps))
    decreases |steps|
  {
    if steps != [] {
      NextSteady(s, steps[0]);
      RunSteady(Next(s, steps[0]), steps[1..]);
    }
  }

  lemma InitialSteady(config: Config, early: bool)
    ensures Steady(Initial(config, early))
  {
    InitialOk(config, early);
  }

  // ---------- the results ----------

  /** In every run the counter is exact, and while connected a message is held back only
      when the window is full. */
  lemma CounterIsExact(config: Config, early: bool, steps: seq<Step>)
    ensures var c := Run(Initial(config, early), steps).client;
      && c.inflight == |Waiting(c.table)| - c.released
      && (c.link.Up? ==> QueuedOnlyIfFull(c))
  {
    InitialSteady(config, early);
    RunSteady(Initial(config, early), steps);
  }

  /** With a positive window only the resend loop can take the counter above both its old
      value and the window. */
  lemma WindowRespected(s: System, step: Step)
    requires Ok(s) && s.client.config.maxInflight > 0 && (s.client.link.Up? ==> QueuedOnlyIfFull(s.client))
    requires step == ClientReceive && s.toClient != [] ==> !s.toClient[0].Connack?
    ensures Next(s, step).client.inflight <= Max(s.client.inflight, s.client.config.maxInflight)
  {
    hide QueuedOnlyIfFull, PublishMessage, Process, Wired, Aside;
    OkIndex(s);
    if step.Submit? {
      PublishQueued(s.client, step.qos);
    } else if step.ClientReceive? {
      if s.client.link.Up? && s.toClient != [] {
        ProcessQueued(s.client, s.toClient[0]);
      }
    } else if IsAside(step) {
      StepAside(s, step);
      AsideCounter(s.client, Next(s, step).client);
    } else if step.Reopen? {
      ResetCounter(s.client, step.clean, step.link);
      hide Reconnect;
    }
  }

  lemma AsideCounter(c: Session, c1: Session)
    requires Aside(c, c1)
    ensures c1.inflight == c.inflight
  {
  }

  lemma ResetCounter(c: Session, clean: bool, link: Link)
    ensures Reconnect(c, clean, link).inflight == 0
  {
  }

  lemma ProcessConnack(c: Session)
    requires Sorted(c.order, c.table) && Rows(c.table, c.accepted) && Ranked(c.order, c.table, 0)
    requires c.link.Up? && c.link.writes > |c.order|
    ensures AllResent(c, Process(c, Connack))
  {
    ConnackResendsAll(c);
  }

  lemma ConnackStep(s: System)
    requires Steady(s) && s.toClient != [] && s.toClient[0].Connack?
    requires s.client.link.Up? && s.client.link.writes > |s.client.order|
    ensures Keyed(s.client) && AllResent(s.client, Next(s, ClientReceive).client)
  {
    hide Process, Ok, Accounted, QueuedOnlyIfFull, AllResent;
    OkIndex(s);
    OkRows(s);
    ProcessConnack(s.client);
    assert Next(s, ClientReceive).client == Process(s.client, Connack);
  }

  /** In every run, when the client handles a CONNACK and its writes succeed, every message
      that needs sending again is sent once, in order of acceptance, and none is left over. */
  lemma ConnackCompletes(config: Config, early: bool, steps: seq<Step>)
    requires var s := Run(Initial(config, early), steps);
      s.toClient != [] && s.toClient[0].Connack? && s.client.link.Up? && s.client.link.writes > |s.client.order|
    ensures var s := Run(Initial(config, early), steps);
      && Sorted(s.client.order, s.client.table)
      && AllResent(s.client, Next(s, ClientReceive).client)
  {
    InitialSteady(config, early);
    RunSteady(Initial(config, early), steps);
    ConnackStep(Run(Initial(config, early), steps));
  }

  /** The resend loop ignores the window: after it the counter is above the window exactly
      when more messages are counted or owed than the window allows. */
  lemma OvershootExactly(s: System)
    requires Steady(s) && s.toClient != [] && s.toClient[0].Connack?
    requires s.client.link.Up? && s.client.link.writes > |s.client.order|
    ensures Keyed(s.client)
    ensures Next(s, ClientReceive).client.inflight > s.client.config.maxInflight
        <==> s.client.inflight + |Owed(s.client.order, s.client.table)| > s.client.config.maxInflight
  {
    ConnackStep(s);
  }

  /** A client with a window of one and two messages accepted while offline. */
  function TwoOffline(link: Link, outPacket: seq<Packet>): Session {
    Session(Config(1, 0, false), [1, 2],
            map[1 := Msg(0, 1, ReadyToPublish, false), 2 := Msg(1, 1, ReadyToPublish, false)],
            map[], 0, 2, link, outPacket, 2, [], [], 0, [], 0)
  }

  lemma Offline(early: bool)
    ensures Run(Initial(Config(1, 0, false), early), [Submit(1)] + [Submit(1)])
         == System(TwoOffline(Down, []), Broker(early, false, map[], []), [])
  {
    var s0 := Initial(Config(1, 0, false), early);
    RunSnoc(s0, [Submit(1)], Submit(1));
    RunSnoc(s0, [], Submit(1));
    assert [] + [Submit(1)] == [Submit(1)];
    OfflineFirst(early);
    OfflineSecond(early);
    hide Next;
  }

  function OneOffline(): Session {
    Session(Config(1, 0, false), [1], map[1 := Msg(0, 1, ReadyToPublish, false)],
            map[], 0, 1, Down, [], 1, [], [], 0, [], 0)
  }

  lemma OfflineFirst(early: bool)
    ensures Next(Initial(Config(1, 0, false), early), Submit(1))
         == System(OneOffline(), Broker(early, false, map[], []), [])
  {
  }

  lemma OfflineSecond(early: bool)
    ensures Keyed(OneOffline())
    ensures Next(System(OneOffline(), Broker(early, false, map[], []), []), Submit(1))
         == System(TwoOffline(Down, []), Broker(early, false, map[], []), [])
  {
  }

  lemma Reopened(early: bool, clean: bool)
    ensures Next(System(TwoOffline(Down, []), Broker(early, false, map[], []), []), Reopen(clean, Up(9)))
         == System(TwoOffline(Up(8), [Connect(clean)]), Broker(early, false, map[], []), [])
  {
  }

  lemma Online(early: bool, clean: bool)
    ensures Next(System(TwoOffline(Up(8), [Connect(clean)]), Broker(early, false, map[], []), []), BrokerReceive)
         == System(TwoOffline(Up(8), []), Broker(early, true, map[], []), [Connack])
  {
  }

  lemma BothStarted()
    ensures Process(TwoOffline(Up(8), []), Connack).inflight == 2
  {
    var c := TwoOffline(Up(8), []);
    var c1 := LoopWrite(Start(c, 1, true).0).0;
    assert HandleConnack(c, 0) == HandleConnack(c1, 1);
    var c2 := LoopWrite(Start(c1, 2, true).0).0;
    assert HandleConnack(c1, 1) == HandleConnack(c2, 2);
  }

  lemma BothResent(early: bool)
    ensures Next(System(TwoOffline(Up(8), []), Broker(early, true, map[], []), [Connack]), ClientReceive)
              .client.inflight == 2
  {
    BothStarted();
    hide Process;
  }

  lemma InitialKeyed(early: bool)
    ensures Keyed(Initial(Config(1, 0, false), early).client)
  {
  }

  /** With a window of one, both messages are in flight once CONNACK has been handled. */
  lemma OvershootHappens(early: bool, clean: bool)
    ensures exists steps :: Run(Initial(Config(1, 0, false), early), steps).client.inflight == 2
  {
    hide Next, TwoOffline, Initial, Keyed;
    var s0 := Initial(Config(1, 0, false), early);
    InitialKeyed(early);
    var steps := [Submit(1)] + [Submit(1)];
    Offline(early);
    hide Run;
    RunSnoc(s0, steps, Reopen(clean, Up(9)));
    Reopened(early, clean);
    RunSnoc(s0, steps + [Reopen(clean, Up(9))], BrokerReceive);
    Online(early, clean);
    RunSnoc(s0, steps + [Reopen(clean, Up(9))] + [BrokerReceive], ClientReceive);
    BothResent(early);
  }
}
