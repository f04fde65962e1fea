/** In which order the PUBLISH packets of one connection go out (section 4.6 of MQTT 3.1.1). */
module Order {
  import opened QosSession
  import opened Network
  import opened Wire
  import opened Resend
  import opened Rounds
  import opened Window
  import Demotion
  import Duplicates
  import InFlight
  import Loops

  /** What was put on the connection that the last reset opened. */
  function Here(c: Session): seq<Packet> {
    if c.sentBefore <= |c.sent| then c.sent[c.sentBefore..] else []
  }

  /** Messages are numbered in the order in which they were accepted. */
  ghost predicate Ascending(q: seq<Packet>) {
    forall i, j :: 0 <= i < j < |q| && q[i].Publish? && q[j].Publish? ==> q[i].body < q[j].body
  }

  ghost predicate AllBelow(q: seq<Packet>, body: nat) {
    forall p :: p in q && p.Publish? ==> p.body < body
  }

  /** In order so far, and no message still to be sent was overtaken. */
  ghost predicate InLine(c: Session) {
    && c.sentBefore <= |c.sent|
    && Ascending(Here(c)) && AllBelow(Here(c), c.accepted)
    && (c.link.Up? ==> Unpassed(c.table, Here(c)))
  }

  ghost predicate Unpassed(table: map<nat, Msg>, q: seq<Packet>) {
    forall k :: k in table && Duplicates.Waits(table[k]) ==> AllBelow(q, table[k].body)
  }

  ghost predicate NoneOwed(table: map<nat, Msg>) {
    forall k :: k in table ==> !table[k].state.ReadyToPublish?
  }

  /** Once the CONNACK was handled, no PUBLISH is owed any more. */
  ghost predicate Settled(s: System) {
    s.client.link.Up? && !Pending(s) ==> NoneOwed(s.client.table)
  }

  // ---------- sending one message ----------

  lemma AscendingMore(q: seq<Packet>, p: Packet)
    requires Ascending(q) && p.Publish? && AllBelow(q, p.body)
    ensures Ascending(q + [p]) && AllBelow(q + [p], p.body + 1)
  {
    var r := q + [p];
    forall i, j | 0 <= i < j < |r| && r[i].Publish? && r[j].Publish? ensures r[i].body < r[j].body {
      assert r[i] in q;
    }
    forall x | x in r && x.Publish? ensures x.body < p.body + 1 {
      assert x in q || x == p;
    }
  }

  lemma HereMore(c: Session, p: Packet)
    requires c.sentBefore <= |c.sent|
    ensures Here(c.(sent := c.sent + [p])) == Here(c) + [p]
  {
  }

  lemma BelowMore(q: seq<Packet>, a: nat, b: nat)
    requires AllBelow(q, a) && a <= b
    ensures AllBelow(q, b)
  {
  }

  /** The message at position `i` is the first that waits. */
  ghost predicate FirstAt(c: Session, i: nat)
    requires i <= |c.order| && forall k :: k in c.order ==> k in c.table
  {
    forall j :: 0 <= j < i ==> !Duplicates.Waits(c.table[c.order[j]])
  }

  lemma OthersLater(c: Session, i: nat, k: nat)
    requires Sorted(c.order, c.table) && i < |c.order| && FirstAt(c, i) && k in c.table && k != c.order[i]
    requires Duplicates.Waits(c.table[k])
    ensures c.table[c.order[i]].body < c.table[k].body
  {
    assert k in c.order;
    var j :| 0 <= j < |c.order| && c.order[j] == k;
    assert j > i;
  }

  lemma StartSends(c: Session, mid: nat, inCallback: bool)
    requires mid in c.table
    ensures var (c1, rc) := Start(c, mid, inCallback); var m := c.table[mid].(state := FirstState(c.table[mid].qos));
      && c1.table == c.table[mid := m] && c1.order == c.order
      && c1.accepted == c.accepted && c1.sentBefore == c.sentBefore
      && (c.link.Down? ==> c1.sent == c.sent && c1.link.Down?)
      && (c.link.Up? ==> c1.sent == c.sent + [PublishOf(mid, m)])
      && (rc.Success? ==> c.link.Up? && c1.link.Up?)
      && (c1.link.Up? ==> rc.Success?)
  {
  }

  lemma StartInLine(c: Session, i: nat, inCallback: bool)
    requires InLine(c) && Sorted(c.order, c.table) && i < |c.order| && FirstAt(c, i)
    requires Duplicates.Waits(c.table[c.order[i]]) && c.table[c.order[i]].body < c.accepted
    ensures var c1 := Start(c, c.order[i], inCallback).0;
      InLine(c1) && Sorted(c1.order, c1.table) && Keyed(c1) && FirstAt(c1, i + 1)
  {
    var mid := c.order[i];
    var m := c.table[mid].(state := FirstState(c.table[mid].qos));
    StartSends(c, mid, inCallback);
    hide Start, InLine;
    var c1 := Start(c, mid, inCallback).0;
    ChangeOne(c, mid, m);
    if c.link.Up? {
      StartedInLine(c, i, c1);
    } else {
      LineIs(c, c1);
    }
    FirstNext(c, i, c1);
  }

  /** Without a connection nothing is sent. */
  lemma LineIs(c: Session, c1: Session)
    requires InLine(c) && c1.link.Down?
    requires c1.sent == c.sent && c1.sentBefore == c.sentBefore && c1.accepted == c.accepted
    ensures InLine(c1)
  {
  }

  lemma StartedInLine(c: Session, i: nat, c1: Session)
    requires InLine(c) && Sorted(c.order, c.table) && i < |c.order| && FirstAt(c, i) && c.link.Up?
    requires Duplicates.Waits(c.table[c.order[i]]) && c.table[c.order[i]].body < c.accepted
    requires var mid := c.order[i]; var m := c.table[mid].(state := FirstState(c.table[mid].qos));
      && c1.table == c.table[mid := m] && c1.sent == c.sent + [PublishOf(mid, m)] && c1.accepted == c.accepted
      && c1.sentBefore == c.sentBefore
    ensures InLine(c1)
  {
    hide Here, Ascending, AllBelow;
    var mid := c.order[i];
    var m := c.table[mid].(state := FirstState(c.table[mid].qos));
    var p := PublishOf(mid, m);
    HereMore(c, p);
    HereIs(c1, c.(sent := c.sent + [p]));
    AscendingMore(Here(c), p);
    BelowMore(Here(c1), m.body + 1, c.accepted);
    forall k | k in c1.table && Duplicates.Waits(c1.table[k]) ensures AllBelow(Here(c1), c1.table[k].body) {
      OthersLater(c, i, k);
      BelowMore(Here(c1), m.body + 1, c1.table[k].body);
    }
  }

  lemma HereIs(c: Session, c1: Session)
    requires c.sent == c1.sent && c.sentBefore == c1.sentBefore
    ensures Here(c) == Here(c1)
  {
  }

  lemma ChangeOne(c: Session, mid: nat, m: Msg)
    requires Sorted(c.order, c.table) && mid in c.table && m.body == c.table[mid].body
    ensures Sorted(c.order, c.table[mid := m])
  {
  }

  lemma FirstNext(c: Session, i: nat, c1: Session)
    requires Sorted(c.order, c.table) && i < |c.order| && FirstAt(c, i) && c1.order == c.order
    requires c1.table.Keys == c.table.Keys && !Duplicates.Waits(c1.table[c.order[i]])
    requires forall k :: k in c.table && k != c.order[i] ==> c1.table[k] == c.table[k]
    ensures FirstAt(c1, i + 1)
  {
  }

  // ---------- the loops ----------

  /** The same log and the same or a lost connection; no message waits that did not wait before. */
  ghost predicate Quiet(c: Session, c1: Session) {
    && c1.sent == c.sent && c1.sentBefore == c.sentBefore && c1.accepted == c.accepted
    && (c1.link.Up? ==> c.link.Up?)
    && (forall k :: k in c1.table && Duplicates.Waits(c1.table[k]) ==>
          exists l :: l in c.table && Duplicates.Waits(c.table[l]) && c.table[l].body == c1.table[k].body)
  }

  lemma QuietInLine(c: Session, c1: Session)
    requires InLine(c) && Quiet(c, c1)
    ensures InLine(c1)
  {
    hide Ascending, AllBelow;
    HereIs(c, c1);
  }

  lemma ResumeQuiet(c: Session, mid: nat)
    requires mid in c.table
    ensures var c1 := LoopWrite(ResumePubrel(c, mid)).0;
      && Quiet(c, c1) && c1.order == c.order && c1.table == c.table[mid := c.table[mid].(state := WaitForPubcomp)]
  {
  }

  lemma WriteQuiet(c: Session)
    ensures var c1 := LoopWrite(c).0; Quiet(c, c1) && c1.order == c.order && c1.table == c.table
  {
    hide Quiet;
    SameQuiet(c, LoopWrite(c).0);
  }

  lemma ResumeFirst(c: Session, i: nat)
    requires Sorted(c.order, c.table) && i < |c.order| && FirstAt(c, i)
    ensures var c1 := LoopWrite(ResumePubrel(c, c.order[i])).0;
      Sorted(c1.order, c1.table) && Keyed(c1) && FirstAt(c1, i + 1)
  {
    var mid := c.order[i];
    ResumeQuiet(c, mid);
    ChangeOne(c, mid, c.table[mid].(state := WaitForPubcomp));
    hide LoopWrite, ResumePubrel;
    FirstNext(c, i, LoopWrite(ResumePubrel(c, mid)).0);
  }

  ghost predicate BodiesKnown(c: Session) {
    forall k :: k in c.table ==> c.table[k].body < c.accepted
  }

  ghost predicate ReadyAt(c: Session, i: nat) {
    && Keyed(c) && InLine(c) && Sorted(c.order, c.table) && BodiesKnown(c)
    && (forall k :: k in c.table ==> StateFits(c.table[k]))
    && i <= |c.order| && FirstAt(c, i)
  }

  lemma StartReady(c: Session, i: nat, inCallback: bool)
    requires ReadyAt(c, i) && i < |c.order| && c.order[i] in c.table && Duplicates.Waits(c.table[c.order[i]])
    ensures ReadyAt(Start(c, c.order[i], inCallback).0, i + 1)
    ensures NoneOwed(c.table) ==> NoneOwed(Start(c, c.order[i], inCallback).0.table)
  {
    hide InLine, Sorted, FirstAt, Start;
    StartInLine(c, i, inCallback);
    StartSends(c, c.order[i], inCallback);
  }

  lemma ResumeReady(c: Session, i: nat)
    requires ReadyAt(c, i) && i < |c.order| && c.order[i] in c.table && c.table[c.order[i]].state.ResendPubrel?
    ensures ReadyAt(LoopWrite(ResumePubrel(c, c.order[i])).0, i + 1)
  {
    hide InLine, Sorted, FirstAt, LoopWrite, ResumePubrel, Quiet;
    var mid := c.order[i];
    assert StateFits(c.table[mid]);
    ResumeQuiet(c, mid);
    ResumeFirst(c, i);
    QuietInLine(c, LoopWrite(ResumePubrel(c, mid)).0);
    QuietAccepted(c, LoopWrite(ResumePubrel(c, mid)).0);
  }

  lemma QuietAccepted(c: Session, c1: Session)
    requires Quiet(c, c1)
    ensures c1.accepted == c.accepted
  {
  }

  lemma WriteReady(c: Session, i: nat)
    requires ReadyAt(c, i)
    ensures ReadyAt(LoopWrite(c).0, i)
  {
    hide InLine, Sorted, FirstAt, LoopWrite, Quiet;
    WriteQuiet(c);
    QuietInLine(c, LoopWrite(c).0);
    QuietAccepted(c, LoopWrite(c).0);
    SameFirst(c, LoopWrite(c).0, i);
  }

  /** One turn of the resend loop. */
  lemma RoundReady(c: Session, i: nat)
    requires ReadyAt(c, i) && i < |c.order| && c.order[i] in c.table && !c.table[c.order[i]].state.Queued?
    ensures Keyed(Round(c, c.order[i]))
    ensures ReadyAt(Round(c, c.order[i]), i + 1) && |Round(c, c.order[i]).order| == |c.order|
  {
    ReadyKeyed(c, i);
    hide ReadyAt, Start, ResumePubrel, LoopWrite, InLine, Sorted, Keyed, StateFits;
    var mid := c.order[i];
    RoundOrder(c, mid);
    RoundKeyed(c, mid);
    if c.table[mid].state.ReadyToPublish? {
      StartReady(c, i, true);
      WriteReady(Start(c, mid, true).0, i + 1);
    } else if c.table[mid].state.ResendPubrel? {
      ResumeReady(c, i);
    } else {
      SkipReady(c, i);
      WriteReady(c, i + 1);
    }
  }

  lemma RoundKeyed(c: Session, mid: nat)
    requires mid in c.table && Keyed(c)
    ensures Keyed(Round(c, mid))
  {
  }

  lemma RoundOrder(c: Session, mid: nat)
    requires mid in c.table
    ensures Round(c, mid).order == c.order
  {
  }

  lemma ReadyKeyed(c: Session, i: nat)
    requires ReadyAt(c, i)
    ensures Keyed(c) && InLine(c) && (forall k :: k in c.table ==> StateFits(c.table[k])) && Sorted(c.order, c.table)
  {
    hide InLine;
  }

  lemma SkipReady(c: Session, i: nat)
    requires ReadyAt(c, i) && i < |c.order| && c.order[i] in c.table && !Duplicates.Waits(c.table[c.order[i]])
    ensures ReadyAt(c, i + 1)
  {
    hide InLine, Sorted;
    SkipFirst(c, i);
  }

  /** Where a turn of the loop leads. */
  lemma ConnackTurns(c: Session, i: nat)
    requires Keyed(c) && i < |c.order| && StateFits(c.table[c.order[i]]) && !c.table[c.order[i]].state.Queued?
    ensures Keyed(Round(c, c.order[i]))
    ensures HandleConnack(c, i) == HandleConnack(Round(c, c.order[i]), i + 1)
      || (c.table[c.order[i]].state.ReadyToPublish? && HandleConnack(c, i) == Start(c, c.order[i], true))
  {
  }

  lemma ConnackEnds(c: Session, i: nat)
    requires Keyed(c) && i <= |c.order| && (i < |c.order| ==> c.table[c.order[i]].state.Queued?)
    ensures HandleConnack(c, i) == (if i < |c.order| then LoopWrite(c).0 else c, Success)
  {
  }

  lemma ReadyLine(c: Session, i: nat)
    requires ReadyAt(c, i)
    ensures InLine(c) && i <= |c.order|
  {
    hide InLine, FirstAt, Sorted;
  }

  lemma OrderAt(c: Session, i: nat)
    requires Keyed(c) && i < |c.order|
    ensures c.order[i] in c.table
  {
  }

  lemma {:induction false} ConnackInLine(c: Session, i: nat)
    requires ReadyAt(c, i) && Keyed(c)
    ensures InLine(HandleConnack(c, i).0)
    decreases |c.order| - i
  {
    hide Start, LoopWrite, HandleConnack, InLine, ReadyAt, Round, Keyed;
    ReadyLine(c, i);
    if i == |c.order| {
      ConnackEnds(c, i);
    } else {
      OrderAt(c, i);
      if c.table[c.order[i]].state.Queued? {
        ConnackEnds(c, i);
        WriteReady(c, i);
        ReadyLine(LoopWrite(c).0, i);
      } else {
        RoundReady(c, i);
        ConnackInLine(Round(c, c.order[i]), i + 1);
        TurnInLine(c, i);
      }
    }
  }

  lemma TurnInLine(c: Session, i: nat)
    requires ReadyAt(c, i) && Keyed(c) && i < |c.order| && !c.table[c.order[i]].state.Queued?
    requires Keyed(Round(c, c.order[i])) && InLine(HandleConnack(Round(c, c.order[i]), i + 1).0)
    ensures InLine(HandleConnack(c, i).0)
  {
    ReadyKeyed(c, i);
    hide Start, HandleConnack, InLine, Sorted, ReadyAt, Round;
    ConnackTurns(c, i);
    if c.table[c.order[i]].state.ReadyToPublish? {
      StartReady(c, i, true);
      ReadyKeyed(Start(c, c.order[i], true).0, i + 1);
    }
  }

  lemma SkipFirst(c: Session, i: nat)
    requires i < |c.order| && (forall k :: k in c.order ==> k in c.table) && FirstAt(c, i)
    requires !Duplicates.Waits(c.table[c.order[i]])
    ensures FirstAt(c, i + 1)
  {
  }

  lemma SameFirst(c: Session, c1: Session, i: nat)
    requires i <= |c.order| && (forall k :: k in c.order ==> k in c.table) && FirstAt(c, i)
    requires c1.order == c.order && c1.table == c.table && c1.accepted == c.accepted
    requires Sorted(c.order, c.table)
    ensures Keyed(c1) && FirstAt(c1, i) && Sorted(c1.order, c1.table) && (BodiesKnown(c) ==> BodiesKnown(c1))
  {
  }

  /** With no PUBLISH owed, the messages held back are sent in their order. */
  lemma {:induction false} RefillInLine(c: Session, i: nat)
    requires ReadyAt(c, i) && Keyed(c) && NoneOwed(c.table)
    ensures InLine(UpdateInflight(c, i).0)
    decreases |c.order| - i
  {
    hide Start, InLine, ReadyAt, UpdateInflight, Keyed, NoneOwed;
    ReadyLine(c, i);
    RefillTurn(c, i);
    if i < |c.order| && c.inflight < c.config.maxInflight {
      OrderAt(c, i);
      var mid := c.order[i];
      if c.table[mid].state.Queued? {
        StartReady(c, i, false);
        ReadyLine(Start(c, mid, false).0, i + 1);
        StartKeyed(c, mid);
        RefillInLine(Start(c, mid, false).0, i + 1);
      } else {
        OwedNot(c, mid);
        SkipReady(c, i);
        RefillInLine(c, i + 1);
      }
    }
  }

  lemma StartKeyed(c: Session, mid: nat)
    requires Keyed(c) && mid in c.table
    ensures Keyed(Start(c, mid, false).0) && |Start(c, mid, false).0.order| == |c.order|
  {
    hide Start;
  }

  lemma OwedNot(c: Session, mid: nat)
    requires NoneOwed(c.table) && mid in c.table && !c.table[mid].state.Queued?
    ensures !Duplicates.Waits(c.table[mid])
  {
  }

  /** Where a turn of the refill leads. */
  lemma RefillTurn(c: Session, i: nat)
    requires Keyed(c) && i <= |c.order|
    ensures !(i < |c.order| && c.inflight < c.config.maxInflight) ==> UpdateInflight(c, i) == (c, Success)
    ensures i < |c.order| && c.inflight < c.config.maxInflight ==>
      if c.table[c.order[i]].state.Queued? then
        var (c1, rc) := Start(c, c.order[i], false);
        Keyed(c1) && UpdateInflight(c, i) == if rc.Success? then UpdateInflight(c1, i + 1) else (c1, rc)
      else UpdateInflight(c, i) == UpdateInflight(c, i + 1)
  {
    hide Start;
  }

  /** No PUBLISH is owed before position `i`, and behind it the table is ranked. */
  ghost predicate SettledTo(c: Session, i: nat) {
    && (forall k :: k in c.order <==> k in c.table) && Distinct(c.order) && i <= |c.order|
    && (forall k :: k in c.order ==> k in c.table && StateFits(c.table[k]))
    && Ranked(c.order, c.table, i)
    && (forall j :: 0 <= j < i ==> !c.table[c.order[j]].state.ReadyToPublish?)
  }

  lemma SettledKeyed(c: Session, i: nat)
    requires SettledTo(c, i)
    ensures Keyed(c) && i <= |c.order| && forall k :: k in c.order ==> StateFits(c.table[k])
  {
  }

  lemma SettledTurn(c: Session, i: nat)
    requires SettledTo(c, i) && i < |c.order| && !c.table[c.order[i]].state.Queued?
    requires c.link.Up? && c.link.writes > 0
    ensures SettledTo(Round(c, c.order[i]), i + 1) && |Round(c, c.order[i]).order| == |c.order|
  {
    var mid := c.order[i];
    var c1 := Round(c, mid);
    RoundAdvances(c, mid);
    hide Round;
    RankedNext(c, i, c1);
    SettledNext(c, i, c1);
  }

  lemma SettledNext(c: Session, i: nat, c1: Session)
    requires SettledTo(c, i) && i < |c.order| && !c.table[c.order[i]].state.Queued?
    requires c1.order == c.order && c1.table == c.table[c.order[i] := Advanced(c.table[c.order[i]])]
    requires forall k :: k in c1.order ==> k in c1.table && StateFits(c1.table[k])
    requires Ranked(c1.order, c1.table, i + 1)
    ensures SettledTo(c1, i + 1)
  {
    hide Ranked, StateFits;
  }

  /** When the resend loop ends with the connection still up, no PUBLISH is owed. */
  lemma {:induction false} ConnackSettles(c: Session, i: nat)
    requires Keyed(c) && SettledTo(c, i)
    ensures var (r, rc) := HandleConnack(c, i); rc.Success? && r.link.Up? ==> NoneOwed(r.table)
    decreases |c.order| - i
  {
    SettledKeyed(c, i);
    hide Round, HandleConnack, LoopWrite, SettledTo, NoneOwed;
    if i == |c.order| {
      NoneBehind(c, i);
      ConnackEnds(c, i);
    } else if c.table[c.order[i]].state.Queued? {
      NoneBehind(c, i);
      ConnackEnds(c, i);
      WriteQuiet(c);
    } else if c.link.Up? && c.link.writes > 0 {
      SettledTurn(c, i);
      RoundContinues(c, i);
      ConnackSettles(Round(c, c.order[i]), i + 1);
    } else {
      LostIsLost(c, i);
    }
  }

  lemma NoneBehind(c: Session, i: nat)
    requires SettledTo(c, i) && (i < |c.order| ==> c.table[c.order[i]].state.Queued?)
    ensures NoneOwed(c.table)
  {
    forall k | k in c.table ensures !c.table[k].state.ReadyToPublish? {
      assert k in c.order;
      var j :| 0 <= j < |c.order| && c.order[j] == k;
      if j > i {
        assert Rank(c.table[c.order[i]]) <= Rank(c.table[c.order[j]]);
      }
    }
  }

  /** Without a connection the loop does not get one. */
  lemma {:induction false} DownStays(c: Session, i: nat)
    requires Keyed(c) && c.link.Down?
    ensures HandleConnack(c, i).0.link.Down?
    decreases |c.order| - i
  {
    if i < |c.order| {
      var mid := c.order[i];
      if c.table[mid].state.Queued? || c.table[mid].state.ReadyToPublish? {
      } else if c.table[mid].qos == 2 && c.table[mid].state.ResendPubrel? {
        DownStays(LoopWrite(ResumePubrel(c, mid)).0, i + 1);
      } else {
        DownStays(LoopWrite(c).0, i + 1);
      }
    }
  }

  lemma LostIsLost(c: Session, i: nat)
    requires Keyed(c) && i < |c.order| && !c.table[c.order[i]].state.Queued?
    requires c.link.Down? || c.link.writes == 0
    ensures HandleConnack(c, i).0.link.Down?
  {
    var mid := c.order[i];
    if c.table[mid].state.ReadyToPublish? {
      if c.link.Up? {
        DownStays(LoopWrite(Start(c, mid, true).0).0, i + 1);
      }
    } else if c.table[mid].qos == 2 && c.table[mid].state.ResendPubrel? {
      DownStays(LoopWrite(ResumePubrel(c, mid)).0, i + 1);
    } else {
      DownStays(LoopWrite(c).0, i + 1);
    }
  }

  // ---------- no PUBLISH owed behind the CONNACK ----------

  ghost predicate Tidy(s: System) {
    Steady(s) && Settled(s)
  }

  lemma PendingIsConnack(s: System)
    requires Ok(s) && s.toClient != []
    ensures Pending(s) <==> s.toClient[0].Connack?
  {
    hide Wired;
  }

  lemma StillPending(s: System, step: Step)
    requires Ok(s) && Pending(s) && !step.Reopen? && !(step.ClientReceive? && s.client.link.Up?)
    ensures Pending(Next(s, step))
  {
    hide Wired, PublishMessage, Process, Aside;
    WiredKeyed(s.client, s.toClient);
    if step.Submit? && 1 <= step.qos <= 2 {
      PublishGrows(s.client, step.qos);
    } else if IsAside(step) {
      StepAside(s, step);
      AsideGrown(s.client, Next(s, step).client);
    }
  }

  lemma PublishSettled(c: Session, qos: nat)
    requires NoneOwed(c.table) && c.link.Up?
    ensures NoneOwed(PublishMessage(c, qos).0.table)
  {
  }

  lemma RefillSettled(c: Session)
    requires Keyed(c) && NoneOwed(c.table)
    ensures NoneOwed(Refill(c).0.table)
  {
    hide UpdateInflight, Start;
    var P := (c1: Session) => NoneOwed(c1.table);
    assert Loops.KeptByStart(P, false) by {
      forall c1: Session, mid |
        P(c1) && mid in c1.table && (c1.table[mid].state.Queued? || c1.table[mid].state.ReadyToPublish?)
        ensures P(Start(c1, mid, false).0)
      {
        StartSends(c1, mid, false);
      }
    }
    if c.config.maxInflight > 0 {
      Loops.UpdateInflightKeeps(P, c, 0);
    }
  }

  lemma RemovedSettled(c: Session, p: Packet)
    requires Keyed(c) && NoneOwed(c.table)
    ensures NoneOwed(InFlight.Removed(c, p).table)
  {
  }

  lemma ProcessSettled(c: Session, p: Packet)
    requires Keyed(c) && NoneOwed(c.table) && !p.Connack?
    ensures NoneOwed(Process(c, p).table)
  {
    RemovedSettled(c, p);
    if InFlight.Refills(c, p) {
      hide NoneOwed, Refill, InFlight.Removed, InFlight.Refills;
      RefillSettled(InFlight.Removed(c, p));
      InFlight.ProcessRefills(c, p);
    }
  }

  /** The loop starts with nothing to show. */
  lemma SettledStart(s: System)
    requires Steady(s) && s.client.link.Up? && s.toClient != [] && s.toClient[0].Connack?
    ensures SettledTo(s.client, 0)
  {
    OkRows(s);
    SortedDistinct(s.client);
    PendingIsConnack(s);
    hide Ok, Pending;
  }

  lemma ProcessIsConnack(c: Session)
    requires Keyed(c)
    ensures var (r, rc) := HandleConnack(c, 0);
      Process(c, Connack) == if rc.Success? then r else r.(link := Down)
  {
    hide HandleConnack;
  }

  lemma ConnackSettled(s: System)
    requires Steady(s) && s.client.link.Up? && s.toClient != [] && s.toClient[0].Connack?
    ensures Keyed(s.client)
    ensures Next(s, ClientReceive).client.link.Up? ==> NoneOwed(Next(s, ClientReceive).client.table)
  {
    SettledStart(s);
    SettledKeyed(s.client, 0);
    hide Steady, SettledTo, HandleConnack, NoneOwed, Process, Keyed;
    ConnackSettles(s.client, 0);
    ProcessIsConnack(s.client);
  }

  lemma ReceiveSettled(s: System)
    requires Tidy(s)
    ensures Settled(Next(s, ClientReceive))
  {
    if s.client.link.Up? && s.toClient != [] {
      PendingIsConnack(s);
      OkIndex(s);
      if s.toClient[0].Connack? {
        hide Process, Pending, Ok;
        ConnackSettled(s);
      } else {
        hide Process, Pending, Ok;
        ProcessSettled(s.client, s.toClient[0]);
      }
    }
  }

  lemma NextSettled(s: System, step: Step)
    requires Tidy(s)
    ensures Settled(Next(s, step))
  {
    hide Process, PublishMessage, Reconnect, Receive, Ok, Pending, NoneOwed, Wired, Aside;
    OkIndex(s);
    if step.ClientReceive? {
      ReceiveSettled(s);
    } else if step.Reopen? {
      ReopenPending(s, step.clean, step.link);
    } else {
      if Pending(s) {
        StillPending(s, step);
      }
      if step.Submit? {
        if s.client.link.Up? && NoneOwed(s.client.table) {
          PublishSettled(s.client, step.qos);
        }
        PublishLink(s.client, step.qos);
      } else if IsAside(step) {
        StepAside(s, step);
        AsideTable(s.client, Next(s, step).client);
      }
    }
  }

  lemma AsideTable(c: Session, c1: Session)
    requires Aside(c, c1)
    ensures c1.table == c.table && (c1.link.Up? ==> c.link.Up?) && Quiet(c, c1)
  {
  }

  lemma PublishLink(c: Session, qos: nat)
    ensures PublishMessage(c, qos).0.link.Up? ==> c.link.Up?
  {
  }

  lemma ReopenPending(s: System, clean: bool, link: Link)
    requires Keyed(s.client)
    ensures Next(s, Reopen(clean, link)).client.link.Up? ==> Pending(Next(s, Reopen(clean, link)))
  {
    ReopenChannel(s.client, clean, link);
  }

  // ---------- exactly when a message is overtaken ----------

  predicate Refused(c: Session) {
    (c.config.maxQueued > 0 && |c.order| >= c.config.maxQueued) || NextMid(c.lastMid) in c.table
  }

  /** A message is published and put on the connection while an older one is still owed to it. */
  ghost predicate Overtakes(c: Session, qos: nat) {
    && 1 <= qos <= 2 && !Refused(c) && c.link.Up? && c.link.writes > 0
    && (c.config.maxInflight == 0 || c.inflight < c.config.maxInflight)
    && !NoneOwed(c.table)
  }

  lemma SubmitWaits(c: Session, qos: nat)
    requires 1 <= qos <= 2
    ensures var c1 := PublishMessage(c, qos).0; var mid := NextMid(c.lastMid);
      var starts := !Refused(c) && c.link.Up? && (c.config.maxInflight == 0 || c.inflight < c.config.maxInflight);
      && (Refused(c) ==> Quiet(c, c1) && c1.table == c.table)
      && (!Refused(c) ==>
           && mid in c1.table && c1.table == c.table[mid := c1.table[mid]] && mid !in c.table
           && c1.accepted == c.accepted + 1 && c1.table[mid].body == c.accepted
           && (Duplicates.Waits(c1.table[mid]) <==> !starts))
      && c1.sentBefore == c.sentBefore
      && c1.sent == (if starts then c.sent + [PublishOf(mid, c1.table[mid])] else c.sent)
      && (c1.link.Up? <==> c.link.Up? && (starts ==> c.link.writes > 0))
  {
  }

  /** A new message that waits behind all others. */
  lemma WaitsInLine(c: Session, c1: Session, mid: nat)
    requires InLine(c) && mid in c1.table && c1.table == c.table[mid := c1.table[mid]]
    requires c1.table[mid].body == c.accepted && c1.accepted == c.accepted + 1
    requires c1.sent == c.sent && c1.sentBefore == c.sentBefore && (c1.link.Up? ==> c.link.Up?)
    ensures InLine(c1)
  {
    HereIs(c1, c);
    hide Here, Ascending, AllBelow;
    BelowMore(Here(c), c.accepted, c.accepted + 1);
  }

  /** A new message that is sent at once. */
  lemma SentInLine(c: Session, c1: Session, mid: nat)
    requires InLine(c) && BodiesKnown(c) && mid !in c.table
    requires mid in c1.table && c1.table == c.table[mid := c1.table[mid]]
    requires c1.table[mid].body == c.accepted && c1.accepted == c.accepted + 1 && !Duplicates.Waits(c1.table[mid])
    requires c1.sent == c.sent + [PublishOf(mid, c1.table[mid])] && c1.sentBefore == c.sentBefore
    requires forall k :: k in c.table ==> !c.table[k].state.Queued?
    ensures InLine(c1) <==> c1.link.Down? || NoneOwed(c.table)
  {
    var p := PublishOf(mid, c1.table[mid]);
    HereMore(c, p);
    HereIs(c1, c.(sent := c.sent + [p]));
    hide Here, Ascending, AllBelow;
    AscendingMore(Here(c), p);
    NotBelow(Here(c), p);
    if !NoneOwed(c.table) {
      var k :| k in c.table && c.table[k].state.ReadyToPublish?;
      assert c1.table[k] == c.table[k] && Duplicates.Waits(c1.table[k]);
      NotBelowLess(Here(c1), p.body, c1.table[k].body);
    }
  }

  lemma SubmitInLine(c: Session, qos: nat)
    requires 1 <= qos <= 2 && InLine(c) && BodiesKnown(c) && (c.link.Up? ==> QueuedOnlyIfFull(c))
    ensures InLine(PublishMessage(c, qos).0) <==> !Overtakes(c, qos)
  {
    var c1, mid := PublishMessage(c, qos).0, NextMid(c.lastMid);
    SubmitWaits(c, qos);
    hide PublishMessage, InLine, Quiet, BodiesKnown, NoneOwed, Duplicates.Waits;
    if Refused(c) {
      QuietInLine(c, c1);
    } else if c1.sent == c.sent {
      WaitsInLine(c, c1, mid);
    } else {
      SentInLine(c, c1, mid);
    }
  }

  lemma NotBelow(q: seq<Packet>, p: Packet)
    requires p.Publish?
    ensures !AllBelow(q + [p], p.body)
  {
    assert p in q + [p];
  }

  lemma NotBelowLess(q: seq<Packet>, a: nat, b: nat)
    requires !AllBelow(q, a) && b <= a
    ensures !AllBelow(q, b)
  {
  }

  lemma RemovedReady(c: Session, p: Packet)
    requires ReadyAt(c, 0)
    ensures Keyed(InFlight.Removed(c, p)) && ReadyAt(InFlight.Removed(c, p), 0)
  {
    var c1 := InFlight.Removed(c, p);
    assert Quiet(c, c1);
    QuietInLine(c, c1);
    if (p.Puback? || p.Pubcomp?) && p.mid in c.table {
      hide InLine;
      CompleteSorted(c.order, c.table, p.mid);
    }
  }

  lemma ReadySteady(s: System)
    requires Steady(s) && InLine(s.client)
    ensures ReadyAt(s.client, 0) && Keyed(s.client)
  {
    OkRows(s);
    hide InLine, Ok;
  }

  lemma ProcessQuiet(c: Session, p: Packet)
    requires Keyed(c) && !p.Connack?
    ensures Quiet(if InFlight.Refills(c, p) then Refill(InFlight.Removed(c, p)).0 else c, Process(c, p))
  {
    var c0 := if InFlight.Refills(c, p) then Refill(InFlight.Removed(c, p)).0 else c;
    HandleQuiet(c, p);
    hide HandlePacket, Quiet, Refill, InFlight.Refills, InFlight.Removed;
    ClosedQuiet(c0, HandlePacket(c, p).0, Process(c, p));
  }

  lemma HandleQuiet(c: Session, p: Packet)
    requires Keyed(c) && !p.Connack?
    ensures Quiet(if InFlight.Refills(c, p) then Refill(InFlight.Removed(c, p)).0 else c, HandlePacket(c, p).0)
  {
    hide Refill, Quiet, HandlePubrec, HandlePubrel, HandlePublish, Complete, Release;
    SameQuiet(c, c);
    match p
    case Pubrec(mid) => PubrecQuiet(c, mid);
    case Pubrel(mid) => PubrelQuiet(c, mid);
    case Publish(mid, qos, _, body) => DeliveryQuiet(c, mid, qos, body);
    case Puback(mid) =>
      if mid in c.table {
        SameQuiet(Refill(Complete(c, mid)).0, Refill(Complete(c, mid)).0);
      }
    case Pubcomp(mid) =>
      if mid in c.table {
        SameQuiet(Refill(Complete(c, mid)).0, Refill(Complete(c, mid)).0);
      }
    case Connect(_) =>
  }

  lemma PubrelQuiet(c: Session, mid: nat)
    requires Keyed(c)
    ensures Quiet(if mid in c.inbox then Refill(Release(c, mid)).0 else c, HandlePubrel(c, mid).0)
  {
    hide Refill, Quiet;
    SameQuiet(if mid in c.inbox then Refill(Release(c, mid)).0 else c, HandlePubrel(c, mid).0);
  }

  lemma DeliveryQuiet(c: Session, mid: nat, qos: nat, body: nat)
    ensures Quiet(c, HandlePublish(c, mid, qos, body).0)
  {
    hide Quiet;
    SameQuiet(c, HandlePublish(c, mid, qos, body).0);
  }

  lemma SameQuiet(c: Session, c1: Session)
    requires c1.table == c.table && c1.sent == c.sent && c1.sentBefore == c.sentBefore && c1.accepted == c.accepted
    requires c1.link.Up? ==> c.link.Up?
    ensures Quiet(c, c1)
  {
  }

  lemma PubrecQuiet(c: Session, mid: nat)
    ensures Quiet(c, HandlePubrec(c, mid).0)
  {
  }

  lemma ClosedQuiet(c: Session, c1: Session, c2: Session)
    requires Quiet(c, c1) && c2 == c1.(link := c2.link) && (c2.link.Up? ==> c1.link.Up?)
    ensures Quiet(c, c2)
  {
  }

  lemma ProcessInLine(c: Session, p: Packet)
    requires ReadyAt(c, 0) && Keyed(c) && !p.Connack? && (c.link.Up? ==> NoneOwed(c.table)) && c.link.Up?
    ensures InLine(Process(c, p))
  {
    ReadyKeyed(c, 0);
    hide InLine, ReadyAt, Process, Refill, InFlight.Refills, InFlight.Removed, Quiet, NoneOwed, Sorted;
    ProcessQuiet(c, p);
    if InFlight.Refills(c, p) {
      RemovedReady(c, p);
      RemovedSettled(c, p);
      ReadyKeyed(InFlight.Removed(c, p), 0);
      RefillLine(InFlight.Removed(c, p));
      QuietInLine(Refill(InFlight.Removed(c, p)).0, Process(c, p));
    } else {
      QuietInLine(c, Process(c, p));
    }
  }

  lemma RefillLine(c: Session)
    requires ReadyAt(c, 0) && Keyed(c) && NoneOwed(c.table)
    ensures InLine(Refill(c).0)
  {
    ReadyKeyed(c, 0);
    hide InLine, ReadyAt, UpdateInflight;
    RefillInLine(c, 0);
  }

  lemma ConnackLine(c: Session)
    requires ReadyAt(c, 0) && Keyed(c)
    ensures InLine(Process(c, Connack))
  {
    ConnackInLine(c, 0);
    hide InLine, ReadyAt, HandleConnack;
    DownInLine(HandleConnack(c, 0).0);
  }

  lemma DownInLine(c: Session)
    requires InLine(c)
    ensures InLine(c.(link := Down))
  {
    HereIs(c, c.(link := Down));
    hide Here, Ascending, AllBelow;
  }

  lemma ReopenInLine(c: Session, clean: bool, link: Link)
    ensures InLine(Reconnect(c, clean, link))
  {
    assert Here(Reconnect(c, clean, link)) == [];
  }

  lemma ReceiveInLine(s: System)
    requires Tidy(s) && InLine(s.client)
    ensures InLine(Next(s, ClientReceive).client)
  {
    OkIndex(s);
    if s.client.link.Up? && s.toClient != [] {
      PendingIsConnack(s);
      ReadySteady(s);
      hide InLine, ReadyAt, Process, Steady, Pending;
      if s.toClient[0].Connack? {
        ConnackLine(s.client);
      } else {
        ProcessInLine(s.client, s.toClient[0]);
      }
    }
  }

  /** Every step keeps the line, except exactly a publish that overtakes. */
  lemma NextInLine(s: System, step: Step)
    requires Tidy(s) && InLine(s.client)
    ensures InLine(Next(s, step).client) <==> !(step.Submit? && Overtakes(s.client, step.qos))
  {
    OkRows(s);
    OkIndex(s);
    hide InLine, Process, PublishMessage, Reconnect, Ok, Overtakes, Quiet, Sorted, Aside;
    match step
    case Submit(qos) =>
      if 1 <= qos <= 2 {
        SubmitInLine(s.client, qos);
      } else {
        NoOvertaking(s.client, qos);
      }
    case ClientReceive => ReceiveInLine(s);
    case Reopen(clean, link) => ReopenInLine(s.client, clean, link);
    case _ =>
      OtherQuiet(s, step);
      QuietInLine(s.client, Next(s, step).client);
  }

  lemma NoOvertaking(c: Session, qos: nat)
    requires !(1 <= qos <= 2)
    ensures !Overtakes(c, qos)
  {
  }

  lemma OtherQuiet(s: System, step: Step)
    requires Keyed(s.client) && !step.Submit? && !step.ClientReceive? && !step.Reopen?
    ensures Quiet(s.client, Next(s, step).client)
  {
    if IsAside(step) {
      hide Next, Aside, Quiet;
      StepAside(s, step);
      AsideTable(s.client, Next(s, step).client);
    }
  }

  // ---------- every run ----------

  ghost predicate NeverOvertakes(s: System, steps: seq<Step>)
    requires Keyed(s.client)
    decreases |steps|
  {
    steps != [] ==>
      && !(steps[0].Submit? && Overtakes(s.client, steps[0].qos))
      && NeverOvertakes(Next(s, steps[0]), steps[1..])
  }

  lemma NextTidy(s: System, step: Step)
    requires Tidy(s)
    ensures Tidy(Next(s, step))
  {
    hide Steady, Settled, Next;
    NextSteady(s, step);
    NextSettled(s, step);
  }

  lemma TidyKeyed(s: System)
    requires Tidy(s)
    ensures Keyed(s.client)
  {
    OkIndex(s);
    hide Ok;
  }

  lemma {:induction false} RunInLine(s: System, steps: seq<Step>)
    requires Tidy(s) && InLine(s.client) && Keyed(s.client) && NeverOvertakes(s, steps)
    ensures Tidy(Run(s, steps)) && InLine(Run(s, steps).client)
    decreases |steps|
  {
    hide Tidy, InLine, Overtakes, Next;
    if steps != [] {
      NextTidy(s, steps[0]);
      NextInLine(s, steps[0]);
      RunInLine(Next(s, steps[0]), steps[1..]);
    }
  }

  lemma {:induction false} RunTidy(s: System, steps: seq<Step>)
    requires Tidy(s) && Keyed(s.client)
    ensures Tidy(Run(s, steps))
    decreases |steps|
  {
    hide Tidy, Next;
    if steps != [] {
      NextTidy(s, steps[0]);
      RunTidy(Next(s, steps[0]), steps[1..]);
    }
  }

  lemma InitialTidy(config: Config, early: bool)
    ensures Tidy(Initial(config, early)) && InLine(Initial(config, early).client)
  {
    InitialSteady(config, early);
  }

  /** In every run in which no publish overtakes, the PUBLISH packets of each connection go out in the
      order in which their messages were accepted. */
  lemma InOrder(config: Config, early: bool, steps: seq<Step>)
    requires NeverOvertakes(Initial(config, early), steps)
    ensures Ascending(Here(Run(Initial(config, early), steps).client))
  {
    InitialTidy(config, early);
    RunInLine(Initial(config, early), steps);
  }

  // ---------- and otherwise it is lost ----------

  predicate NoSubmit(steps: seq<Step>) {
    forall i :: 0 <= i < |steps| ==> !steps[i].Submit?
  }

  /** The resend loop sends an owed PUBLISH behind a later one. */
  lemma OwedIsLate(c: Session, r: Session, k: nat, p: Packet)
    requires Sorted(c.order, c.table) && AllResent(c, r) && Duplicates.Logged(c, r) && c.sentBefore <= |c.sent|
    requires k in c.table && c.table[k].state.ReadyToPublish?
    requires p in Here(c) && p.Publish? && c.table[k].body < p.body
    ensures !Ascending(Here(r))
  {
    assert k in c.order;
    var i := OwedHas(c.order, c.table, k);
    hide Owed;
    var q := PublishOf(k, c.table[k]);
    assert r.outPacket[|c.outPacket| + i] == q;
    LateOne(c, r, p, q);
  }

  lemma LateOne(c: Session, r: Session, p: Packet, q: Packet)
    requires c.sentBefore <= |c.sent| && c.sent <= r.sent && r.sentBefore == c.sentBefore
    requires p in Here(c) && q in r.sent[|c.sent|..] && p.Publish? && q.Publish? && q.body < p.body
    ensures !Ascending(Here(r))
  {
    var i :| 0 <= i < |Here(c)| && Here(c)[i] == p;
    var j :| 0 <= j < |r.sent[|c.sent|..]| && r.sent[|c.sent|..][j] == q;
    var l := |c.sent| - c.sentBefore + j;
    assert Here(r)[i] == p && Here(r)[l] == q;
  }

  /** From a connection whose CONNACK is still to come, with writes that succeed. */
  lemma ToConnack(s: System) returns (steps: seq<Step>, c: Session)
    requires Tidy(s) && Keyed(s.client) && Pending(s) && s.client.link.Up?
    ensures NoReset(steps) && NoSubmit(steps)
    ensures c == s.client.(link := c.link, outPacket := c.outPacket) && Sorted(c.order, c.table) && Keyed(c)
    ensures AllResent(c, Run(s, steps).client) && Duplicates.Logged(c, Run(s, steps).client)
  {
    hide Tidy, AllResent, Next, Run, Keyed, Pending, Sorted, Duplicates.Logged, NoReset, NoSubmit;
    var a: seq<Step> := if s.toClient == [] then [BrokerReceive] else [];
    var n := |s.client.order| + 1;
    PendingAt(s);
    var s1 := Run(s, a);
    RunTidy(s, a);
    RunConcat(s, a, [Grant(n)] + [ClientReceive]);
    InFlight.RunTwo(s1, Grant(n), ClientReceive);
    NextTidy(s1, Grant(n));
    GrantTurn(s1, n);
    var s2 := Next(s1, Grant(n));
    ResendsAll(s2);
    steps := a + ([Grant(n)] + [ClientReceive]);
    OnlyDeliveries(a, n);
    c := s2.client;
  }

  lemma OnlyDeliveries(a: seq<Step>, n: nat)
    requires a == [] || a == [BrokerReceive]
    ensures NoReset(a + ([Grant(n)] + [ClientReceive])) && NoSubmit(a + ([Grant(n)] + [ClientReceive]))
  {
  }

  lemma PendingAt(s: System)
    requires Tidy(s) && Keyed(s.client) && Pending(s) && s.client.link.Up?
    ensures var a: seq<Step> := if s.toClient == [] then [BrokerReceive] else [];
      var s1 := Run(s, a);
      && s1.toClient != [] && s1.toClient[0].Connack? && s1.client.link.Up? && s1.client.order == s.client.order
      && s1.client == s.client.(outPacket := s1.client.outPacket)
  {
    if s.toClient == [] {
      hide Wired;
      RunSnoc(s, [], BrokerReceive);
      assert [] + [BrokerReceive] == [BrokerReceive];
    } else {
      PendingIsConnack(s);
    }
  }

  lemma ResendsAll(s: System)
    requires Tidy(s) && s.toClient != [] && s.toClient[0].Connack?
    requires s.client.link.Up? && s.client.link.writes > |s.client.order|
    ensures Keyed(s.client) && Sorted(s.client.order, s.client.table)
    ensures AllResent(s.client, Next(s, ClientReceive).client)
    ensures Duplicates.Logged(s.client, Next(s, ClientReceive).client)
  {
    hide Ok, AllResent, HandleConnack, Duplicates.Logged;
    ConnackStep(s);
    OkRows(s);
    Duplicates.ConnackLogged(s.client);
    Duplicates.ProcessConnackLogs(s.client);
    SameLogged(s.client, HandleConnack(s.client, 0).0, Next(s, ClientReceive).client);
  }

  lemma SameLogged(c: Session, c1: Session, c2: Session)
    requires Duplicates.Logged(c, c1) && c2.outPacket == c1.outPacket && c2.sent == c1.sent
    ensures Duplicates.Logged(c, c2)
  {
  }

  lemma OvertakenLate(s: System, qos: nat) returns (more: seq<Step>)
    requires Tidy(s) && Keyed(s.client) && InLine(s.client) && Overtakes(s.client, qos)
    ensures NoReset(more) && NoSubmit(more)
    ensures !Ascending(Here(Run(s, [Submit(qos)] + more).client))
  {
    var s1 := Next(s, Submit(qos));
    var k, p := OvertakenBy(s, qos);
    NextTidy(s, Submit(qos));
    hide Ascending, AllResent, Next, Run, Overtakes, InLine;
    var c;
    more, c := ToConnack(s1);
    HereIs(c, s1.client);
    hide Here;
    OwedIsLate(c, Run(s1, more).client, k, p);
    RunConcat(s, [Submit(qos)], more);
    RunSnoc(s, [], Submit(qos));
    Demotion.RunEmpty(s);
    assert [] + [Submit(qos)] == [Submit(qos)];
  }

  lemma OvertakenBy(s: System, qos: nat) returns (k: nat, p: Packet)
    requires Tidy(s) && Keyed(s.client) && InLine(s.client) && Overtakes(s.client, qos)
    ensures var s1 := Next(s, Submit(qos)); var c := s1.client;
      && Pending(s1) && c.link.Up? && c.sentBefore <= |c.sent|
      && k in c.table && c.table[k].state.ReadyToPublish?
      && p in Here(c) && p.Publish? && c.table[k].body < p.body
  {
    var s1 := Next(s, Submit(qos));
    SubmitWaits(s.client, qos);
    NextSettled(s, Submit(qos));
    OkRows(s);
    hide PublishMessage, Quiet, Settled, Ok, Pending;
    k :| k in s.client.table && s.client.table[k].state.ReadyToPublish?;
    p := s1.client.sent[|s.client.sent|];
    assert s1.client.table[k] == s.client.table[k];
    assert Here(s1.client)[|s.client.sent| - s.client.sentBefore] == p;
    OwedPending(s1, k);
  }

  lemma OwedPending(s: System, k: nat)
    requires Settled(s) && s.client.link.Up? && k in s.client.table && s.client.table[k].state.ReadyToPublish?
    ensures Pending(s)
  {
  }

  lemma {:induction false} NoSubmitNeverOvertakes(s: System, steps: seq<Step>)
    requires Keyed(s.client) && NoSubmit(steps)
    ensures NeverOvertakes(s, steps)
    decreases |steps|
  {
    if steps != [] {
      NoSubmitNeverOvertakes(Next(s, steps[0]), steps[1..]);
    }
  }

  lemma NotOvertaken(s: System, qos: nat, more: seq<Step>)
    requires Tidy(s) && Keyed(s.client) && InLine(s.client) && !Overtakes(s.client, qos) && NoSubmit(more)
    ensures Ascending(Here(Run(s, [Submit(qos)] + more).client))
  {
    hide Tidy, Overtakes, Next, Run;
    var s1 := Next(s, Submit(qos));
    NextTidy(s, Submit(qos));
    NextInLine(s, Submit(qos));
    NoSubmitNeverOvertakes(s1, more);
    RunInLine(s1, more);
    RunConcat(s, [Submit(qos)], more);
    RunSnoc(s, [], Submit(qos));
    Demotion.RunEmpty(s);
    assert [] + [Submit(qos)] == [Submit(qos)];
  }

  /** A publish on a connection that is in order so far: what follows it without another publish or reset
      can put the PUBLISH packets of the connection out of order exactly when it overtakes. */
  lemma OutOfOrderExactly(s: System, qos: nat)
    requires Tidy(s) && Keyed(s.client) && InLine(s.client)
    ensures Overtakes(s.client, qos)
       <==> exists more :: NoReset(more) && NoSubmit(more)
              && !Ascending(Here(Run(s, [Submit(qos)] + more).client))
  {
    hide Tidy, InLine, Overtakes, Run, Ascending, Here, Keyed;
    if Overtakes(s.client, qos) {
      var more := OvertakenLate(s, qos);
    } else {
      forall more | NoReset(more) && NoSubmit(more)
        ensures Ascending(Here(Run(s, [Submit(qos)] + more).client))
      {
        NotOvertaken(s, qos, more);
      }
    }
  }

  // ---------- it happens ----------

  /** The client of the run below, with the states of its two messages. */
  function Two(first: MessageState, second: MessageState, inflight: int, lastMid: nat, link: Link,
        outPacket: seq<Packet>, sent: seq<Packet>): Session
  {
    Session(Config(20, 0, false), [1, 2], map[1 := Msg(0, 1, first, false), 2 := Msg(1, 1, second, false)], map[],
            inflight, lastMid, link, outPacket, 2, [], [], 0, sent, 0)
  }

  function Older(): Packet {
    Publish(1, 1, false, 0)
  }

  function Newer(): Packet {
    Publish(2, 1, false, 1)
  }

  function OvertakeSteps(): seq<Step> {
    [Submit(1)] + [Reopen(false, Up(9))] + [Submit(1)]
    + ([BrokerReceive] + [ClientReceive] + [BrokerReceive])
    + ([BrokerReceive])
  }

  lemma OvertakesOlder(early: bool)
    ensures var s := Initial(Config(20, 0, false), early);
      Next(Next(Next(s, Submit(1)), Reopen(false, Up(9))), Submit(1))
        == System(Two(ReadyToPublish, WaitForPuback, 1, 2, Up(7), [Connect(false), Newer()], [Newer()]),
                  Broker(early, false, map[], []), [])
  {
    Older1(early);
    Older2(early);
    Older3(early);
    hide Next;
  }

  /** A message was published before there was a connection. */
  function OneOwed(link: Link, outPacket: seq<Packet>): Session {
    Session(Config(20, 0, false), [1], map[1 := Msg(0, 1, ReadyToPublish, false)], map[], 0, 1, link, outPacket, 1,
            [], [], 0, [], 0)
  }

  lemma Older1(early: bool)
    ensures Next(Initial(Config(20, 0, false), early), Submit(1))
         == System(OneOwed(Down, []), Broker(early, false, map[], []), [])
    ensures Keyed(OneOwed(Down, [])) && Keyed(OneOwed(Up(8), [Connect(false)]))
  {
  }

  lemma Older2(early: bool)
    ensures Next(System(OneOwed(Down, []), Broker(early, false, map[], []), []), Reopen(false, Up(9)))
         == System(OneOwed(Up(8), [Connect(false)]), Broker(early, false, map[], []), [])
  {
  }

  lemma Older3(early: bool)
    ensures Next(System(OneOwed(Up(8), [Connect(false)]), Broker(early, false, map[], []), []), Submit(1))
         == System(Two(ReadyToPublish, WaitForPuback, 1, 2, Up(7), [Connect(false), Newer()], [Newer()]),
                   Broker(early, false, map[], []), [])
  {
  }

  lemma ConnackOwes()
    ensures Keyed(Two(ReadyToPublish, WaitForPuback, 1, 2, Up(7), [Newer()], [Newer()]))
    ensures Process(Two(ReadyToPublish, WaitForPuback, 1, 2, Up(7), [Newer()], [Newer()]), Connack)
      == Two(WaitForPuback, WaitForPuback, 2, 2, Up(5), [Newer(), Older()], [Newer(), Older()])
  {
    var c := Two(ReadyToPublish, WaitForPuback, 1, 2, Up(7), [Newer()], [Newer()]);
    var c1 := LoopWrite(Start(c, 1, true).0).0;
    assert c1 == Two(WaitForPuback, WaitForPuback, 2, 2, Up(6), [Newer(), Older()], [Newer(), Older()]);
    assert HandleConnack(c, 0) == HandleConnack(c1, 1);
    assert HandleConnack(c1, 1) == HandleConnack(LoopWrite(c1).0, 2);
  }

  lemma NewerFirst(early: bool)
    ensures var s := System(Two(ReadyToPublish, WaitForPuback, 1, 2, Up(7), [Connect(false), Newer()], [Newer()]),
                            Broker(early, false, map[], []), []);
      Keyed(s.client) &&
      Next(Next(Next(s, BrokerReceive), ClientReceive), BrokerReceive)
        == System(Two(WaitForPuback, WaitForPuback, 2, 2, Up(5), [Older()], [Newer(), Older()]),
                  Broker(early, true, map[], [1]), [Puback(2)])
  {
    ConnackOwes();
    hide Process;
    var c := Two(ReadyToPublish, WaitForPuback, 1, 2, Up(7), [Newer()], [Newer()]);
    assert [Connect(false), Newer()][1..] == [Newer()] && [Newer(), Older()][1..] == [Older()];
  }

  lemma OlderSecond(early: bool)
    ensures var s := System(Two(WaitForPuback, WaitForPuback, 2, 2, Up(5), [Older()], [Newer(), Older()]),
                            Broker(early, true, map[], [1]), [Puback(2)]);
      Keyed(s.client) && Next(s, BrokerReceive).broker.onward == [1, 0]
  {
  }

  /** A run in which a message published between the reconnection and its CONNACK reaches the broker before
      an older one. */
  lemma OvertakeHappens(early: bool)
    ensures Run(Initial(Config(20, 0, false), early), OvertakeSteps()).broker.onward == [1, 0]
  {
    hide Next, Run, Initial, Keyed, Two;
    var s0 := Initial(Config(20, 0, false), early);
    Demotion.StartsKeyed(early);
    var a := [Submit(1)] + [Reopen(false, Up(9))] + [Submit(1)];
    var b := [BrokerReceive] + [ClientReceive] + [BrokerReceive];
    RunThree(s0, Submit(1), Reopen(false, Up(9)), Submit(1));
    OvertakesOlder(early);
    RunThree(Run(s0, a), BrokerReceive, ClientReceive, BrokerReceive);
    NewerFirst(early);
    RunConcat(s0, a, b);
    OlderSecond(early);
    RunSnoc(s0, a + b, BrokerReceive);
  }
}
