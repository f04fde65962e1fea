/** The resend loop run when the broker accepts a connection: complete, and in the order in
    which the messages were accepted (sections 4.4 and 4.6 of MQTT 3.1.1). */
module Resend {
  import opened QosSession
  import opened Wire

  /** 0: needs sending again; 1: under way on this connection; 2: waiting for the window. */
  function Rank(m: Msg): nat {
    match m.state
    case ReadyToPublish => 0
    case ResendPubrel => 0
    case Queued => 2
    case _ => 1
  }

  /** From position `i` on, no message that needs sending again stands behind one that does
      not, and the queued ones stand last. */
  ghost predicate Ranked(order: seq<nat>, table: map<nat, Msg>, i: nat)
    requires forall k :: k in order ==> k in table
  {
    forall a, b :: i <= a < b < |order| ==> Rank(table[order[a]]) <= Rank(table[order[b]])
  }

  /** The packets owed to the broker, oldest message first. */
  function Owed(order: seq<nat>, table: map<nat, Msg>): seq<Packet>
    requires forall k :: k in order ==> k in table
  {
    if order == [] then []
    else
      var m := table[order[0]];
      (match m.state
       case ReadyToPublish => [PublishOf(order[0], m)]
       case ResendPubrel => [Pubrel(order[0])]
       case _ => [])
      + Owed(order[1..], table)
  }

  function Advanced(m: Msg): Msg {
    match m.state
    case ReadyToPublish => m.(state := FirstState(m.qos))
    case ResendPubrel => m.(state := WaitForPubcomp)
    case _ => m
  }

  lemma {:induction false} OwedFrame(order: seq<nat>, t1: map<nat, Msg>, t2: map<nat, Msg>)
    requires forall k :: k in order ==> k in t1 && k in t2 && t1[k] == t2[k]
    ensures Owed(order, t1) == Owed(order, t2)
  {
    if order != [] {
      assert order[0] in order;
      forall k | k in order[1..] ensures k in order {
      }
      OwedFrame(order[1..], t1, t2);
    }
  }

  lemma {:induction false} NothingOwed(order: seq<nat>, table: map<nat, Msg>)
    requires forall k :: k in order ==> k in table && Rank(table[k]) > 0
    ensures Owed(order, table) == []
  {
    if order != [] {
      assert order[0] in order;
      NothingOwed(order[1..], table);
    }
  }

  ghost predicate Distinct(order: seq<nat>) {
    forall a, b :: 0 <= a < b < |order| ==> order[a] != order[b]
  }

  lemma {:induction false} WithoutDistinct(order: seq<nat>, mid: nat)
    requires Distinct(order)
    ensures Distinct(Without(order, mid))
  {
    if order != [] {
      var rest := order[1..];
      WithoutDistinct(rest, mid);
      assert forall k :: k in rest ==> k != order[0];
      forall b | 0 <= b < |Without(rest, mid)| ensures Without(rest, mid)[b] in rest {
      }
    }
  }

  /** What the loop does from position `i` on. */
  ghost predicate ResentFrom(c: Session, i: nat, r: Session)
    requires i <= |c.order| && forall k :: k in c.order ==> k in c.table
  {
    && (forall k :: k in c.order[i..] ==> k in c.table)
    && r.order == c.order && r.table.Keys == c.table.Keys
    && r.outPacket == c.outPacket + Owed(c.order[i..], c.table)
    && r.inflight == c.inflight + |Owed(c.order[i..], c.table)|
    && (forall k :: k in c.table ==> r.table[k] == if k in c.order[i..] then Advanced(c.table[k]) else c.table[k])
    && r.link.Up?
    && r == c.(table := r.table, inflight := r.inflight, outPacket := r.outPacket, link := r.link,
               sent := r.sent)
  }

  /** `c1` is `c` with the message at position `i` dealt with. */
  ghost predicate Advances(c: Session, i: nat, c1: Session)
    requires i < |c.order| && c.order[i] in c.table
  {
    && c1.table == c.table[c.order[i] := Advanced(c.table[c.order[i]])]
    && c1.outPacket == c.outPacket + Owed([c.order[i]], c.table)
    && c1.inflight == c.inflight + |Owed([c.order[i]], c.table)|
    && c1 == c.(table := c1.table, inflight := c1.inflight, outPacket := c1.outPacket, link := c1.link,
                sent := c1.sent)
  }

  lemma OwedSplit(order: seq<nat>, table: map<nat, Msg>, i: nat, table1: map<nat, Msg>)
    requires i < |order| && Distinct(order) && (forall k :: k in order ==> k in table)
    requires table1 == table[order[i] := Advanced(table[order[i]])]
    ensures forall k :: k in order[i + 1..] ==> k in table && k != order[i]
    ensures Owed(order[i..], table) == Owed([order[i]], table) + Owed(order[i + 1..], table1)
    ensures order[i..] == [order[i]] + order[i + 1..]
  {
    var rest := order[i + 1..];
    hide Distinct;
    BehindIt(order, i);
    OwedFrame(rest, table, table1);
    OwedFirst(order[i], rest, table);
  }

  lemma BehindIt(order: seq<nat>, i: nat)
    requires i < |order| && Distinct(order)
    ensures forall k :: k in order[i + 1..] ==> k in order && k != order[i]
    ensures order[i..] == [order[i]] + order[i + 1..]
  {
    var rest := order[i + 1..];
    forall k | k in rest ensures k in order && k != order[i] {
      var j :| 0 <= j < |rest| && rest[j] == k;
      assert rest[j] == order[i + 1 + j];
    }
  }

  lemma OwedFirst(k: nat, rest: seq<nat>, table: map<nat, Msg>)
    requires k in table && forall l :: l in rest ==> l in table
    ensures forall l :: l in [k] + rest ==> l in table
    ensures Owed([k] + rest, table) == Owed([k], table) + Owed(rest, table)
  {
    assert ([k] + rest)[1..] == rest && [k][1..] == [];
    assert Owed([], table) == [];
  }

  lemma OneMore(c: Session, i: nat, c1: Session, r: Session)
    requires i < |c.order| && Distinct(c.order) && (forall k :: k in c.order ==> k in c.table)
    requires Advances(c, i, c1) && ResentFrom(c1, i + 1, r)
    ensures ResentFrom(c, i, r)
  {
    hide Owed, Distinct;
    OwedSplit(c.order, c.table, i, c1.table);
    assert c1.order == c.order;
  }

  /** The session after the loop has dealt with one message that is not queued. */
  function Round(c: Session, mid: nat): Session
    requires mid in c.table
  {
    if c.table[mid].state.ReadyToPublish? then LoopWrite(Start(c, mid, true).0).0
    else if c.table[mid].state.ResendPubrel? then LoopWrite(ResumePubrel(c, mid)).0
    else LoopWrite(c).0
  }

  lemma RoundAdvances(c: Session, mid: nat)
    requires mid in c.table && !c.table[mid].state.Queued? && c.link.Up? && c.link.writes > 0
    ensures Round(c, mid).link == Up(c.link.writes - 1)
    ensures forall i :: 0 <= i < |c.order| && c.order[i] == mid ==> Advances(c, i, Round(c, mid))
  {
    assert [mid][1..] == [];
    assert Owed([], c.table) == [];
  }

  lemma RoundContinues(c: Session, i: nat)
    requires Keyed(c) && i < |c.order| && StateFits(c.table[c.order[i]])
    requires !c.table[c.order[i]].state.Queued? && c.link.Up? && c.link.writes > 0
    ensures Keyed(Round(c, c.order[i]))
    ensures HandleConnack(c, i) == HandleConnack(Round(c, c.order[i]), i + 1)
  {
  }

  lemma RankedNext(c: Session, i: nat, c1: Session)
    requires i < |c.order| && Distinct(c.order) && (forall k :: k in c.order ==> k in c.table && StateFits(c.table[k]))
    requires Ranked(c.order, c.table, i)
    requires c1.order == c.order && c1.table == c.table[c.order[i] := Advanced(c.table[c.order[i]])]
    ensures (forall k :: k in c1.order ==> k in c1.table && StateFits(c1.table[k])) && Ranked(c1.order, c1.table, i + 1)
  {
  }

  lemma QueuedRest(c: Session, i: nat)
    requires i < |c.order| && (forall k :: k in c.order ==> k in c.table)
    requires Ranked(c.order, c.table, i) && c.table[c.order[i]].state.Queued?
    ensures forall k :: k in c.order[i..] ==>
              k in c.table && Rank(c.table[k]) == 2 && Advanced(c.table[k]) == c.table[k]
    ensures Owed(c.order[i..], c.table) == []
  {
    forall k | k in c.order[i..] ensures k in c.table && c.table[k].state.Queued? {
      var j :| 0 <= j < |c.order[i..]| && c.order[i..][j] == k;
      assert c.order[i + j] == k;
    }
    NothingOwed(c.order[i..], c.table);
  }

  lemma EmptyOwed(c: Session)
    ensures Owed([], c.table) == []
  {
  }

  lemma {:induction false} ConnackFrom(c: Session, i: nat)
    requires i <= |c.order| && Distinct(c.order) && (forall k :: k in c.order ==> k in c.table && StateFits(c.table[k]))
    requires Ranked(c.order, c.table, i)
    requires c.link.Up? && c.link.writes > |c.order| - i
    ensures HandleConnack(c, i).1.Success?
    ensures ResentFrom(c, i, HandleConnack(c, i).0)
    decreases |c.order| - i
  {
    hide Round, Owed;
    if i == |c.order| {
      EmptyOwed(c);
      assert c.order[i..] == [];
    } else {
      var mid := c.order[i];
      assert mid in c.order;
      if c.table[mid].state.Queued? {
        QueuedRest(c, i);
      } else {
        var c1 := Round(c, mid);
        RoundAdvances(c, mid);
        RoundContinues(c, i);
        RankedNext(c, i, c1);
        ConnackFrom(c1, i + 1);
        OneMore(c, i, c1, HandleConnack(c1, i + 1).0);
      }
    }
  }

  lemma SortedDistinct(c: Session)
    requires Sorted(c.order, c.table)
    ensures Distinct(c.order)
  {
    forall a, b | 0 <= a < b < |c.order| ensures c.order[a] != c.order[b] {
      assert c.table[c.order[a]].body < c.table[c.order[b]].body;
    }
  }

  /** Each message that needs sending again is sent once, as the right kind of packet, oldest
      first; none is skipped; the others are left alone. */
  ghost predicate AllResent(c: Session, r: Session)
    requires forall k :: k in c.order ==> k in c.table
  {
    && r.table.Keys == c.table.Keys
    && r.outPacket == c.outPacket + Owed(c.order, c.table)
    && (forall k :: k in c.table ==> r.table[k] == Advanced(c.table[k]) && Rank(r.table[k]) > 0)
    && r.inflight == c.inflight + |Owed(c.order, c.table)|
    && r.link.Up?
    && r == c.(table := r.table, inflight := r.inflight, outPacket := r.outPacket, link := r.link,
               sent := r.sent)
  }

  lemma FromStart(c: Session, r: Session)
    requires (forall k :: k in c.order <==> k in c.table) && ResentFrom(c, 0, r)
    ensures AllResent(c, r)
  {
    assert c.order[0..] == c.order;
  }

  lemma ConnackResendsAll(c: Session)
    requires Sorted(c.order, c.table) && Rows(c.table, c.accepted) && Ranked(c.order, c.table, 0)
    requires c.link.Up? && c.link.writes > |c.order|
    ensures HandleConnack(c, 0).1.Success?
    ensures AllResent(c, HandleConnack(c, 0).0)
  {
    SortedDistinct(c);
    ConnackFrom(c, 0);
    FromStart(c, HandleConnack(c, 0).0);
  }

  // ---------- on every connection ----------

  /** What `n` attempts to write leave of a connection. */
  function Attempts(link: Link, n: nat): Link {
    match link
    case Down => Down
    case Up(writes) => if n > writes then Down else Up(writes - n)
  }

  /** The loop deals with the message at position `j`, which it reaches after `n` attempts to write. */
  predicate GoesOn(m: Msg, link: Link, n: nat) {
    !m.state.Queued? && (m.state.ReadyToPublish? ==> Attempts(link, n).Up?)
  }

  /** From position `i` on the loop deals with the messages before position `n` and stops there: behind the last
      message, at one that waits for the window, or at one that must be published when the connection is lost. */
  ghost predicate StopsAt(c: Session, i: nat, n: nat, r: Session, rc: Rc)
    requires forall k :: k in c.order ==> k in c.table
  {
    && i <= n <= |c.order| && (forall k :: k in c.order[i..n] ==> k in c.table)
    && (forall j :: i <= j < n ==> GoesOn(c.table[c.order[j]], c.link, j - i))
    && (n < |c.order| ==> !GoesOn(c.table[c.order[n]], c.link, n - i))
    && r.outPacket == c.outPacket + Owed(c.order[i..n], c.table)
    && var waits := n < |c.order| && c.table[c.order[n]].state.Queued?;
      && r.link == Attempts(c.link, if waits then n - i + 1 else n - i)
      && rc == if waits || n == |c.order| then Success else NoConn
  }

  lemma RoundGoes(c: Session, mid: nat)
    requires mid in c.table && GoesOn(c.table[mid], c.link, 0)
    ensures var c1 := Round(c, mid);
      && c1.order == c.order && c1.table == c.table[mid := Advanced(c.table[mid])]
      && c1.outPacket == c.outPacket + Owed([mid], c.table) && c1.link == Attempts(c.link, 1)
  {
    assert [mid][1..] == [];
    assert Owed([], c.table) == [];
  }

  lemma RoundTurns(c: Session, i: nat)
    requires Keyed(c) && i < |c.order| && StateFits(c.table[c.order[i]])
    requires GoesOn(c.table[c.order[i]], c.link, 0)
    ensures Keyed(Round(c, c.order[i])) && HandleConnack(c, i) == HandleConnack(Round(c, c.order[i]), i + 1)
  {
  }

  lemma RoundStops(c: Session, i: nat)
    requires Keyed(c) && i < |c.order| && !GoesOn(c.table[c.order[i]], c.link, 0)
    ensures var (r, rc) := HandleConnack(c, i); var waits := c.table[c.order[i]].state.Queued?;
      && r.outPacket == c.outPacket && r.link == (if waits then Attempts(c.link, 1) else c.link)
      && rc == (if waits then Success else NoConn) && c.link == Attempts(c.link, 0)
  {
  }

  lemma RangeSplit(order: seq<nat>, table: map<nat, Msg>, i: nat, n: nat, table1: map<nat, Msg>)
    requires i < n <= |order| && Distinct(order) && (forall k :: k in order ==> k in table)
    requires table1 == table[order[i] := Advanced(table[order[i]])]
    ensures forall j :: i < j < |order| ==> order[j] in table && table1[order[j]] == table[order[j]]
    ensures forall k :: k in order[i + 1..n] ==> k in table
    ensures Owed(order[i..n], table) == Owed([order[i]], table) + Owed(order[i + 1..n], table1)
  {
    var rest := order[i + 1..n];
    assert order[i..n] == [order[i]] + rest;
    assert forall k :: k in rest ==> k != order[i] && k in table;
    OwedFrame(rest, table, table1);
    OwedFirst(order[i], rest, table);
  }

  lemma StopsLater(c: Session, i: nat, c1: Session, n: nat, r: Session, rc: Rc)
    requires i < |c.order| && Distinct(c.order) && (forall k :: k in c.order ==> k in c.table)
    requires GoesOn(c.table[c.order[i]], c.link, 0)
    requires c1.order == c.order && c1.table == c.table[c.order[i] := Advanced(c.table[c.order[i]])]
    requires c1.outPacket == c.outPacket + Owed([c.order[i]], c.table) && c1.link == Attempts(c.link, 1)
    requires StopsAt(c1, i + 1, n, r, rc)
    ensures StopsAt(c, i, n, r, rc)
  {
    hide Owed, Distinct;
    RangeSplit(c.order, c.table, i, n, c1.table);
    hide Advanced;
  }

  /** How far the loop gets on any connection, what it sends and how it ends. */
  lemma {:induction false} ConnackStops(c: Session, i: nat) returns (n: nat)
    requires i <= |c.order| && Distinct(c.order) && (forall k :: k in c.order ==> k in c.table && StateFits(c.table[k]))
    ensures StopsAt(c, i, n, HandleConnack(c, i).0, HandleConnack(c, i).1)
    decreases |c.order| - i
  {
    hide Round, StateFits;
    n := i;
    EmptyOwed(c);
    assert c.order[i..i] == [];
    if i < |c.order| {
      var mid := c.order[i];
      assert mid in c.order;
      if GoesOn(c.table[mid], c.link, 0) {
        var c1 := Round(c, mid);
        RoundGoes(c, mid);
        RoundTurns(c, i);
        StillFit(c, mid, c1);
        n := ConnackStops(c1, i + 1);
        hide StopsAt, HandleConnack, Owed;
        StopsLater(c, i, c1, n, HandleConnack(c, i).0, HandleConnack(c, i).1);
      } else {
        RoundStops(c, i);
      }
    }
  }

  lemma StillFit(c: Session, mid: nat, c1: Session)
    requires mid in c.table && (forall k :: k in c.order ==> k in c.table && StateFits(c.table[k]))
    requires c1.order == c.order && c1.table == c.table[mid := Advanced(c.table[mid])]
    ensures forall k :: k in c1.order ==> k in c1.table && StateFits(c1.table[k])
  {
  }

  /** Handling a CONNACK sends what is owed for the messages before the one at which it stops, and tries to
      write once for each of them. */
  lemma ConnackExactly(c: Session) returns (n: nat)
    requires Sorted(c.order, c.table) && Rows(c.table, c.accepted)
    ensures StopsAt(c, 0, n, HandleConnack(c, 0).0, HandleConnack(c, 0).1)
  {
    SortedDistinct(c);
    n := ConnackStops(c, 0);
  }
}
