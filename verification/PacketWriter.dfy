/** The resumable packet writer: however the socket takes the bytes, what was sent and what is
    left make up the packets queued. */
module PacketWriting {
  import opened Bytes
  import opened Numbers
  import opened Options
  import opened PacketTypes

  /** An entry of the queue; `pos` bytes are sent, `toProcess` are left. */
  datatype OutPacket = OutPacket(command: Byte, mid: nat, qos: nat, packet: seq<Byte>, pos: nat, toProcess: nat)

  /** What a send call does: take up to `k` bytes, would block, meet an unusable socket, or fail. */
  datatype Event = Take(k: nat) | Block | Unusable | Failure

  datatype Sent = Taken(n: nat) | WouldBlock | NotUsable | Error

  /** What a send call answers to so many bytes. */
  function Answer(script: seq<Event>, size: nat): (r: Sent)
    ensures r.Taken? ==> r.n <= size
  {
    if script == [] then WouldBlock
    else match script[0]
      case Take(k) => Taken(Min(k, size))
      case Block => WouldBlock
      case Unusable => NotUsable
      case Failure => Error
  }

  function Later(script: seq<Event>): seq<Event> {
    if script == [] then [] else script[1..]
  }

  class Socket {
    var wire: seq<Byte>
    var script: seq<Event>
    /** Some call took nothing. */
    ghost var stalled: bool

    constructor (script: seq<Event>)
      ensures wire == [] && this.script == script && !stalled
    {
      wire, this.script, stalled := [], script, false;
    }

    method Send(data: seq<Byte>) returns (r: Sent)
      requires data != []
      modifies this
      ensures r == Answer(old(script), |data|) && script == Later(old(script))
      ensures wire == old(wire) + if r.Taken? then data[..r.n] else []
      ensures stalled == (old(stalled) || r == Taken(0))
    {
      if script == [] {
        return WouldBlock;
      }
      var event := script[0];
      script := script[1..];
      match event
      case Block => r := WouldBlock;
      case Unusable => r := NotUsable;
      case Failure => r := Error;
      case Take(k) =>
        var n := if k < |data| then k else |data|;
        wire := wire + data[..n];
        stalled := stalled || n == 0;
        r := Taken(n);
    }
  }

  // ---------- how far a script of the socket gets ----------

  datatype End = Done | Dry | Blocked | NoSocket | Failed | Stalled

  /** The bytes sent, the send calls made, and why there was not another. */
  datatype Drained = Drained(bytes: nat, used: nat, end: End)

  /** Send packets of which so many bytes are left. */
  function Drain(parts: seq<nat>, script: seq<Event>): Drained
    decreases |script|
  {
    if parts == [] then Drained(0, 0, Done)
    else if script == [] then Drained(0, 0, Dry)
    else match script[0]
      case Block => Drained(0, 1, Blocked)
      case Unusable => Drained(0, 1, NoSocket)
      case Failure => Drained(0, 1, Failed)
      case Take(k) =>
        var n := Min(k, parts[0]);
        if n == 0 then Drained(0, 1, Stalled)
        else
          var d := Drain(Shortened(parts, n), script[1..]);
          Drained(n + d.bytes, 1 + d.used, d.end)
  }

  /** `n` bytes less in the first. */
  function Shortened(parts: seq<nat>, n: nat): seq<nat>
    requires parts != [] && n <= parts[0]
  {
    if n < parts[0] then [parts[0] - n] + parts[1..] else parts[1..]
  }

  datatype Rc = Success | Again | ConnLost

  function RcOf(end: End): Rc {
    match end
    case Dry => Again
    case Blocked => Again
    case Failed => ConnLost
    case _ => Success
  }

  /** The bytes still to send. */
  function Unsent(q: seq<OutPacket>): seq<Byte> {
    if q == [] then [] else Drop(q[0].packet, q[0].pos) + Unsent(q[1..])
  }

  function AllBytes(history: seq<OutPacket>): seq<Byte> {
    if history == [] then [] else AllBytes(history[..|history| - 1]) + history[|history| - 1].packet
  }

  /** A PUBLISH of QoS 0. */
  predicate Publishes(p: OutPacket) {
    p.command / 16 == 3 && p.qos == 0
  }

  /** A DISCONNECT. */
  predicate Ends(p: OutPacket) {
    p.command / 16 == 14
  }

  /** The handles to be marked published when these packets are sent. */
  function Handles(sent: seq<OutPacket>): seq<nat> {
    if sent == [] then []
    else
      var p := sent[|sent| - 1];
      Handles(sent[..|sent| - 1]) + if Publishes(p) then [p.mid] else []
  }

  function Whole(p: OutPacket): OutPacket {
    p.(pos := 0, toProcess := |p.packet|)
  }

  function WholeQueue(q: seq<OutPacket>): seq<OutPacket> {
    if q == [] then [] else [Whole(q[0])] + WholeQueue(q[1..])
  }

  predicate Started(p: OutPacket) {
    p.pos + p.toProcess == |p.packet| && p.toProcess > 0
  }

  /** Only the head may be partly sent. */
  ghost predicate Queued(q: seq<OutPacket>) {
    (forall i :: 0 <= i < |q| ==> Started(q[i])) && forall i :: 0 < i < |q| ==> q[i].pos == 0
  }

  /** A DISCONNECT sent to its end is the last packet and the connection is closed. */
  ghost predicate EndsLast(finished: seq<OutPacket>, connected: bool) {
    forall i :: 0 <= i < |finished| && Ends(finished[i]) ==> i == |finished| - 1 && !connected
  }

  /** The sending side: bytes sent, queue, connection and handles marked published, together with
      every packet queued since the connection was made and those of them sent to the end. */
  datatype Sending = Sending(
    wire: seq<Byte>,
    queue: seq<OutPacket>,
    connected: bool,
    published: seq<nat>,
    history: seq<OutPacket>,
    finished: seq<OutPacket>)

  /** What is sent and what is left are the packets queued, in their order; exactly the QoS 0
      messages sent to their last byte are marked published; nothing follows a DISCONNECT. */
  ghost predicate Accounted(s: Sending) {
    && Queued(s.queue)
    && s.history == s.finished + WholeQueue(s.queue)
    && s.wire + Unsent(s.queue) == AllBytes(s.history)
    && s.published == Handles(s.finished)
    && EndsLast(s.finished, s.connected)
  }

  function Advanced(p: OutPacket, n: nat): OutPacket
    requires n <= p.toProcess
  {
    p.(pos := p.pos + n, toProcess := p.toProcess - n)
  }

  /** The head has `n` bytes more sent. */
  function AfterSend(s: Sending, n: nat): Sending
    requires s.queue != [] && n <= s.queue[0].toProcess
  {
    var p, rest := s.queue[0], s.queue[1..];
    var wire := s.wire + Slice(p.packet, p.pos, p.pos + n);
    if n < p.toProcess then s.(wire := wire, queue := [Advanced(p, n)] + rest)
    else s.(wire := wire, queue := rest, connected := s.connected && !Ends(p),
            published := s.published + (if Publishes(p) then [p.mid] else []),
            finished := s.finished + [Whole(p)])
  }

  lemma UnsentFirst(p: OutPacket, rest: seq<OutPacket>)
    ensures Unsent([p] + rest) == Drop(p.packet, p.pos) + Unsent(rest)
  {
    assert ([p] + rest)[1..] == rest;
  }

  lemma HeadQueued(p: OutPacket, rest: seq<OutPacket>, n: nat)
    requires Queued([p] + rest) && n <= p.toProcess
    ensures Started(p) && Queued(rest) && (n < p.toProcess ==> Queued([Advanced(p, n)] + rest))
  {
    var q := [p] + rest;
    assert Started(q[0]);
    forall i | 0 <= i < |rest| ensures Started(rest[i]) && rest[i].pos == 0 {
      assert rest[i] == q[i + 1];
    }
  }

  lemma Assoc<T>(a: seq<T>, b: seq<T>, c: seq<T>)
    ensures a + (b + c) == a + b + c && a + [] == a && [] + a == a && [] + c == c
  {
  }

  lemma Cut(b: seq<Byte>, i: nat, n: nat)
    requires i + n <= |b|
    ensures Drop(b, i) == Slice(b, i, i + n) + Drop(b, i + n) && |Slice(b, i, i + n)| == n
    ensures Drop(b, |b|) == []
  {
  }

  lemma Rejoined<T>(whole: seq<T>, left: seq<T>, a: seq<T>, b: seq<T>, tail: seq<T>)
    requires whole == (a + b) + tail && left == b + tail
    ensures whole == a + left
  {
  }

  /** The head is unfinished after `n` bytes more. */
  lemma PartUnsent(p: OutPacket, rest: seq<OutPacket>, n: nat)
    requires Started(p) && n < p.toProcess
    ensures Unsent([p] + rest) == Slice(p.packet, p.pos, p.pos + n) + Unsent([Advanced(p, n)] + rest)
    ensures |Slice(p.packet, p.pos, p.pos + n)| == n
  {
    hide Unsent, Drop, Slice;
    UnsentFirst(p, rest);
    UnsentFirst(Advanced(p, n), rest);
    Cut(p.packet, p.pos, n);
    Rejoined(Unsent([p] + rest), Unsent([Advanced(p, n)] + rest),
             Slice(p.packet, p.pos, p.pos + n), Drop(p.packet, p.pos + n), Unsent(rest));
  }

  /** All that was left of the head is sent. */
  lemma LastUnsent(p: OutPacket, rest: seq<OutPacket>)
    requires Started(p)
    ensures Unsent([p] + rest) == Slice(p.packet, p.pos, |p.packet|) + Unsent(rest)
    ensures |Slice(p.packet, p.pos, |p.packet|)| == p.toProcess
  {
    UnsentFirst(p, rest);
    assert Drop(p.packet, p.pos) == Slice(p.packet, p.pos, |p.packet|);
  }

  lemma HeadWhole(q: seq<OutPacket>, n: nat)
    requires q != [] && n <= q[0].toProcess
    ensures WholeQueue([Advanced(q[0], n)] + q[1..]) == WholeQueue(q) == [Whole(q[0])] + WholeQueue(q[1..])
  {
    assert ([Advanced(q[0], n)] + q[1..])[1..] == q[1..];
  }

  lemma WholeFirst(p: OutPacket, rest: seq<OutPacket>)
    ensures WholeQueue([p] + rest) == [Whole(p)] + WholeQueue(rest)
  {
    assert ([p] + rest)[1..] == rest;
  }

  lemma Nothing()
    ensures Unsent([]) == [] && WholeQueue([]) == []
  {
  }

  lemma {:induction false} Appended(q: seq<OutPacket>, p: OutPacket)
    requires p.packet != [] && p.pos == 0
    ensures Unsent(q + [p]) == Unsent(q) + p.packet && WholeQueue(q + [p]) == WholeQueue(q) + [Whole(p)]
    decreases |q|
  {
    hide Unsent, WholeQueue;
    Nothing();
    if q == [] {
      UnsentFirst(p, []);
      WholeFirst(p, []);
      Assoc(p.packet, [], []);
      Assoc([Whole(p)], [], []);
      assert q + [p] == [p] + [];
      assert Drop(p.packet, 0) == p.packet;
    } else {
      var h, t := q[0], q[1..];
      assert q == [h] + t && q + [p] == [h] + (t + [p]);
      Appended(t, p);
      UnsentFirst(h, t);
      UnsentFirst(h, t + [p]);
      WholeFirst(h, t);
      WholeFirst(h, t + [p]);
      hide Drop;
      Assoc(Drop(h.packet, h.pos), Unsent(t), p.packet);
      Assoc([Whole(h)], WholeQueue(t), [Whole(p)]);
    }
  }

  lemma MoreBytes(history: seq<OutPacket>, p: OutPacket)
    ensures AllBytes(history + [p]) == AllBytes(history) + p.packet
    ensures Handles(history + [p]) == Handles(history) + if Publishes(p) then [p.mid] else []
  {
    assert (history + [p])[..|history|] == history;
  }

  lemma EndsKept(finished: seq<OutPacket>, connected: bool, p: OutPacket)
    requires EndsLast(finished, connected) && connected
    ensures EndsLast(finished + [p], !Ends(p))
  {
    forall i | 0 <= i < |finished| ensures !Ends(finished[i]) {
    }
  }

  lemma StillAccounted(s: Sending, t: Sending, sent: seq<Byte>)
    requires Accounted(s) && Queued(t.queue) && t.history == s.history && t.wire == s.wire + sent
    requires t.finished + WholeQueue(t.queue) == s.finished + WholeQueue(s.queue)
    requires Unsent(s.queue) == sent + Unsent(t.queue)
    requires t.published == Handles(t.finished) && EndsLast(t.finished, t.connected)
    ensures Accounted(t) && |Unsent(t.queue)| == |Unsent(s.queue)| - |sent|
  {
    hide Unsent, WholeQueue, AllBytes, Handles, Queued, EndsLast;
    Assoc(s.wire, sent, Unsent(t.queue));
  }

  lemma PartSent(s: Sending, n: nat)
    requires Accounted(s) && s.connected && s.queue != [] && 0 < n < s.queue[0].toProcess
    ensures Accounted(AfterSend(s, n))
    ensures |Unsent(AfterSend(s, n).queue)| == |Unsent(s.queue)| - n
  {
    hide Unsent, WholeQueue, AllBytes, Handles, Queued, EndsLast, Slice;
    var p, rest := s.queue[0], s.queue[1..];
    assert s.queue == [p] + rest;
    HeadQueued(p, rest, n);
    PartUnsent(p, rest, n);
    HeadWhole(s.queue, n);
    StillAccounted(s, AfterSend(s, n), Slice(p.packet, p.pos, p.pos + n));
  }

  lemma AllSent(s: Sending)
    requires Accounted(s) && s.connected && s.queue != []
    ensures Accounted(AfterSend(s, s.queue[0].toProcess))
    ensures |Unsent(AfterSend(s, s.queue[0].toProcess).queue)| == |Unsent(s.queue)| - s.queue[0].toProcess
  {
    hide Unsent, WholeQueue, AllBytes, Handles, Queued, EndsLast, Slice, Publishes, Ends;
    var p, rest := s.queue[0], s.queue[1..];
    assert s.queue == [p] + rest;
    HeadQueued(p, rest, 0);
    LastUnsent(p, rest);
    WholeFirst(p, rest);
    MoreBytes(s.finished, Whole(p));
    EndsKept(s.finished, s.connected, Whole(p));
    SameHandle(p);
    Assoc(s.finished, [Whole(p)], WholeQueue(rest));
    StillAccounted(s, AfterSend(s, p.toProcess), Slice(p.packet, p.pos, |p.packet|));
  }

  lemma SameHandle(p: OutPacket)
    ensures Publishes(Whole(p)) == Publishes(p) && Ends(Whole(p)) == Ends(p) && Whole(p).mid == p.mid
  {
  }

  /** Sending some bytes of the head keeps the account and leaves less to send. */
  lemma SendKeeps(s: Sending, n: nat)
    requires Accounted(s) && s.connected && s.queue != [] && 0 < n <= s.queue[0].toProcess
    ensures Accounted(AfterSend(s, n))
    ensures |Unsent(AfterSend(s, n).queue)| < |Unsent(s.queue)|
  {
    hide Accounted, Unsent, AfterSend;
    if n < s.queue[0].toProcess {
      PartSent(s, n);
    } else {
      AllSent(s);
    }
  }

  lemma QueuedMore(q: seq<OutPacket>, p: OutPacket)
    requires Queued(q) && Started(p) && p.pos == 0
    ensures Queued(q + [p])
  {
  }

  lemma QueueKeeps(s: Sending, p: OutPacket)
    requires Accounted(s) && p.packet != [] && p == Whole(p)
    ensures Accounted(s.(queue := s.queue + [p], history := s.history + [p]))
  {
    Appended(s.queue, p);
    MoreBytes(s.history, p);
    QueuedMore(s.queue, p);
    hide Unsent, WholeQueue, AllBytes, Handles, Queued, EndsLast;
    Assoc(s.finished, WholeQueue(s.queue), [p]);
    Assoc(s.wire, Unsent(s.queue), p.packet);
  }

  /** A packet taken from the queue and not put back is lost with what was left of it. */
  lemma HeadLost(s: Sending)
    requires Accounted(s) && s.queue != []
    ensures |s.wire| + |Unsent(s.queue[1..])| < |AllBytes(s.history)|
  {
    assert Started(s.queue[0]);
    assert |s.wire + Unsent(s.queue)| == |AllBytes(s.history)|;
  }

  lemma {:induction false} BytesConcat(a: seq<OutPacket>, b: seq<OutPacket>)
    ensures AllBytes(a + b) == AllBytes(a) + AllBytes(b)
    decreases |b|
  {
    if b == [] {
      assert a + b == a;
    } else {
      var c := b[..|b| - 1];
      assert (a + b)[..|a + b| - 1] == a + c;
      BytesConcat(a, c);
      Assoc(AllBytes(a), AllBytes(c), b[|b| - 1].packet);
    }
  }

  lemma {:induction false} FreshBytes(q: seq<OutPacket>)
    requires forall i :: 0 <= i < |q| ==> q[i].pos == 0
    ensures AllBytes(WholeQueue(q)) == Unsent(q)
  {
    if q != [] {
      FreshBytes(q[1..]);
      BytesConcat([Whole(q[0])], WholeQueue(q[1..]));
      OneBytes(Whole(q[0]));
    }
  }

  lemma OneBytes(p: OutPacket)
    ensures AllBytes([p]) == p.packet
  {
    assert [p][..0] == [];
  }

  /** The bytes sent are the finished packets and the part of the head before its position: a
      packet counts as finished, and its handle is marked, no sooner than its last byte is sent. */
  lemma FinishedIsSent(s: Sending)
    requires Accounted(s)
    ensures s.wire == AllBytes(s.finished) + if s.queue == [] then [] else s.queue[0].packet[..s.queue[0].pos]
  {
    BytesConcat(s.finished, WholeQueue(s.queue));
    if s.queue != [] {
      var p, rest := s.queue[0], s.queue[1..];
      assert s.queue == [p] + rest;
      HeadQueued(p, rest, 0);
      FreshBytes(rest);
      BytesConcat([Whole(p)], WholeQueue(rest));
      OneBytes(Whole(p));
      assert p.packet == p.packet[..p.pos] + Drop(p.packet, p.pos);
      Regroup(s.wire, AllBytes(s.finished), p.packet[..p.pos], Drop(p.packet, p.pos), Unsent(rest));
    }
  }

  lemma Regroup(w: seq<Byte>, f: seq<Byte>, a: seq<Byte>, b: seq<Byte>, u: seq<Byte>)
    requires w + (b + u) == f + (a + b + u)
    ensures w == f + a
  {
    assert f + (a + b + u) == f + a + (b + u);
    assert w == (w + (b + u))[..|w|];
    assert f + a == (f + a + (b + u))[..|f + a|];
  }

  // ---------- one call of the writer ----------

  /** What is left of the packets, up to the first DISCONNECT. */
  function Parts(q: seq<OutPacket>): seq<nat> {
    if q == [] then [] else [q[0].toProcess] + if Ends(q[0]) then [] else Parts(q[1..])
  }

  /** The packets behind that. */
  function Behind(q: seq<OutPacket>): seq<OutPacket> {
    if q == [] then [] else if Ends(q[0]) then q[1..] else Behind(q[1..])
  }

  ghost predicate HasEnd(q: seq<OutPacket>) {
    exists p :: p in q && Ends(p)
  }

  /** As many bytes go out as the script takes, and the call ends as the script does. */
  ghost predicate Outcome(s: Sending, script: seq<Event>, t: Sending, more: seq<Event>, rc: Rc) {
    if !s.connected then t == s && more == script && rc == if s.queue == [] then Success else ConnLost
    else
      var d := Drain(Parts(s.queue), script);
      && rc == RcOf(d.end)
      && d.used <= |script| && more == script[d.used..]
      && d.bytes <= |Unsent(s.queue)| && t.wire == s.wire + Unsent(s.queue)[..d.bytes]
      && (d.end.Done? ==> t.queue == Behind(s.queue))
      && (t.connected <==> !(d.end.Done? && HasEnd(s.queue)))
      && (HasEnd(t.queue) ==> HasEnd(s.queue))
  }

  /** Part of the way: what the script does from `s` on is what it has done and what it does from `t` on. */
  ghost predicate Onward(s: Sending, script: seq<Event>, t: Sending, more: seq<Event>) {
    var d, e := Drain(Parts(s.queue), script), Drain(Parts(t.queue), more);
    && s.connected && t.connected
    && |more| <= |script| && more == script[|script| - |more|..]
    && s.wire + Unsent(s.queue) == t.wire + Unsent(t.queue) && |s.wire| <= |t.wire|
    && d.end == e.end && d.used == |script| - |more| + e.used && d.bytes == |t.wire| - |s.wire| + e.bytes
    && Behind(s.queue) == Behind(t.queue) && (HasEnd(s.queue) <==> HasEnd(t.queue))
  }

  lemma PartsOf(p: OutPacket, rest: seq<OutPacket>)
    ensures Parts([p] + rest) == [p.toProcess] + if Ends(p) then [] else Parts(rest)
    ensures Behind([p] + rest) == if Ends(p) then rest else Behind(rest)
    ensures HasEnd([p] + rest) <==> Ends(p) || HasEnd(rest)
  {
    assert ([p] + rest)[1..] == rest;
    if HasEnd(rest) {
      var e :| e in rest && Ends(e);
      assert e in [p] + rest;
    }
  }

  lemma OnwardStart(s: Sending, script: seq<Event>)
    requires s.connected
    ensures Onward(s, script, s, script)
  {
  }

  lemma DrainHead(p: OutPacket, rest: seq<OutPacket>, script: seq<Event>, n: nat)
    requires script != [] && script[0].Take? && n == Min(script[0].k, p.toProcess) && n > 0
    ensures var d := Drain(Parts([p] + rest), script);
      if n == p.toProcess && Ends(p) then d == Drained(n, 1, Done)
      else
        var e := Drain(Parts(if n < p.toProcess then [Advanced(p, n)] + rest else rest), script[1..]);
        d == Drained(n + e.bytes, 1 + e.used, e.end)
  {
    PartsOf(p, rest);
    PartsOf(Advanced(p, n), rest);
    hide Parts;
    var tail: seq<nat> := if Ends(p) then [] else Parts(rest);
    assert ([p.toProcess] + tail)[1..] == tail;
  }

  /** One send call takes one event, and the rest of the script goes on with the rest of the queue. */
  lemma OneDrained(t: Sending, more: seq<Event>, n: nat)
    requires t.connected && t.queue != [] && more != [] && n > 0
    requires more[0].Take? && n == Min(more[0].k, t.queue[0].toProcess)
    ensures var u := AfterSend(t, n); var d, e := Drain(Parts(t.queue), more), Drain(Parts(u.queue), more[1..]);
      if u.connected then
        && d == Drained(n + e.bytes, 1 + e.used, e.end)
        && Behind(u.queue) == Behind(t.queue) && (HasEnd(u.queue) <==> HasEnd(t.queue))
      else d == Drained(n, 1, Done) && Behind(t.queue) == u.queue && HasEnd(t.queue)
  {
    hide Drain, Parts, Behind, HasEnd;
    var p, rest := t.queue[0], t.queue[1..];
    assert t.queue == [p] + rest;
    PartsOf(p, rest);
    PartsOf(Advanced(p, n), rest);
    DrainHead(p, rest, more, n);
  }

  /** One send that takes `n` bytes of the head. */
  lemma OnwardSend(s: Sending, script: seq<Event>, t: Sending, more: seq<Event>, n: nat)
    requires Onward(s, script, t, more) && Accounted(t) && t.queue != [] && more != []
    requires more[0].Take? && n == Min(more[0].k, t.queue[0].toProcess) && n > 0 && Accounted(AfterSend(t, n))
    ensures var u := AfterSend(t, n);
      if u.connected then Onward(s, script, u, more[1..])
      else Outcome(s, script, u, more[1..], Success) && Drain(Parts(s.queue), script).end.Done?
  {
    hide Unsent, AllBytes, Drain, Parts, Behind, HasEnd;
    var u := AfterSend(t, n);
    OneDrained(t, more, n);
    SentBytes(t, n);
    assert more[1..] == script[|script| - |more[1..]|..];
    hide Accounted, AfterSend;
    if !u.connected {
      SentSoFar(s, u);
    }
  }

  lemma SentBytes(s: Sending, n: nat)
    requires Accounted(s) && s.queue != [] && n <= s.queue[0].toProcess && Accounted(AfterSend(s, n))
    ensures var u := AfterSend(s, n);
      && u.wire + Unsent(u.queue) == s.wire + Unsent(s.queue) && |u.wire| == |s.wire| + n
      && u.queue == (if n < s.queue[0].toProcess then [Advanced(s.queue[0], n)] + s.queue[1..] else s.queue[1..])
      && u.connected == (s.connected && !(n == s.queue[0].toProcess && Ends(s.queue[0])))
  {
    hide Unsent, AllBytes, WholeQueue, Handles, EndsLast;
  }

  lemma SentSoFar(s: Sending, t: Sending)
    requires s.wire + Unsent(s.queue) == t.wire + Unsent(t.queue) && |s.wire| <= |t.wire|
    ensures |t.wire| - |s.wire| <= |Unsent(s.queue)| && t.wire == s.wire + Unsent(s.queue)[..|t.wire| - |s.wire|]
  {
    hide Unsent;
    var all := s.wire + Unsent(s.queue);
    assert t.wire == all[..|t.wire|] && s.wire == all[..|s.wire|];
  }

  lemma QueueEmpty(s: Sending, script: seq<Event>, t: Sending, more: seq<Event>)
    requires Onward(s, script, t, more) && t.queue == []
    ensures Outcome(s, script, t, more, Success) && Drain(Parts(s.queue), script).end.Done?
  {
    hide Unsent;
    SentSoFar(s, t);
  }

  function RcFor(a: Sent): Rc {
    match a
    case WouldBlock => Again
    case Error => ConnLost
    case _ => Success
  }

  /** A send that takes nothing ends the call. */
  lemma SendEnds(s: Sending, script: seq<Event>, t: Sending, more: seq<Event>, u: Sending)
    requires Onward(s, script, t, more) && t.queue != [] && Started(t.queue[0])
    requires var a := Answer(more, t.queue[0].toProcess); a.Taken? ==> a.n == 0
    requires u.wire == t.wire && u.connected && (HasEnd(u.queue) ==> HasEnd(t.queue))
    ensures var a := Answer(more, t.queue[0].toProcess);
      && Outcome(s, script, u, Later(more), RcFor(a))
      && (Drain(Parts(s.queue), script).end.Stalled? <==> a.Taken?)
  {
    hide Unsent, Behind, HasEnd;
    SentSoFar(s, t);
    assert Parts(t.queue)[0] == t.queue[0].toProcess;
    assert more != [] ==> more[1..] == script[|script| - |more| + 1..];
  }

  lemma HeadStarted(s: Sending)
    requires Accounted(s) && s.queue != []
    ensures Started(s.queue[0])
  {
  }

  class PacketWriter {
    const socket: Socket
    var connected: bool
    var outPacket: seq<OutPacket>
    /** The mids of the QoS 0 messages whose handles are marked published, in order. */
    var published: seq<nat>
    ghost var history: seq<OutPacket>
    ghost var finished: seq<OutPacket>

    constructor (socket: Socket)
      requires socket.wire == []
      ensures this.socket == socket && State() == Sending([], [], true, [], [], []) && Accounted(State())
    {
      this.socket := socket;
      connected, outPacket, published := true, [], [];
      history, finished := [], [];
    }

    ghost function State(): Sending
      reads this, socket
    {
      Sending(socket.wire, outPacket, connected, published, history, finished)
    }

    method PacketQueue(command: Byte, packet: seq<Byte>, mid: nat, qos: nat)
      requires Accounted(State()) && packet != []
      modifies this`outPacket, this`history
      ensures Accounted(State())
      ensures history == old(history) + [OutPacket(command, mid, qos, packet, 0, |packet|)]
    {
      var mpkt := OutPacket(command, mid, qos, packet, 0, |packet|);
      hide Accounted;
      QueueKeeps(State(), mpkt);
      outPacket := outPacket + [mpkt];
      history := history + [mpkt];
    }

    /** Account for the `n` bytes of the packet just sent; false behind a DISCONNECT. */
    method Advance(packet: OutPacket, n: nat) returns (more: bool)
      requires 0 < n <= packet.toProcess && connected
      modifies this`outPacket, this`published, this`connected, this`finished
      ensures var s := AfterSend(Sending(socket.wire, [packet] + old(outPacket), true, old(published), history,
                                         old(finished)), n);
        State() == s.(wire := socket.wire)
      ensures more == connected
    {
      var p := packet.(toProcess := packet.toProcess - n, pos := packet.pos + n);
      assert ([packet] + outPacket)[1..] == outPacket;
      more := true;
      if p.toProcess == 0 {
        if Kind(p.command) == PUBLISH && p.qos == 0 {
          published := published + [p.mid];
        }
        finished := finished + [Whole(p)];
        if Kind(p.command) == DISCONNECT {
          connected, more := false, false;
        }
      } else {
        outPacket := [p] + outPacket;
      }
    }

    /** Send what the socket takes. Only a send that takes nothing breaks the account: what was
        left of the packet at the head is then lost. */
    method PacketWrite() returns (rc: Rc)
      requires Accounted(State()) && !socket.stalled
      modifies this`outPacket, this`published, this`connected, this`finished, socket
      ensures old(socket.wire) <= socket.wire
      ensures !socket.stalled ==> Accounted(State())
      ensures socket.stalled ==> rc == Success && |socket.wire| + |Unsent(outPacket)| < |AllBytes(history)|
      ensures Outcome(old(State()), old(socket.script), State(), socket.script, rc)
      ensures socket.stalled <==> old(connected) && Drain(Parts(old(outPacket)), old(socket.script)).end.Stalled?
    {
      hide Accounted, Unsent, AllBytes, AfterSend, Onward, Drain, Parts, Answer, Later;
      ghost var start, script := State(), socket.script;
      if connected {
        OnwardStart(start, script);
      }
      while true
        invariant Accounted(State()) && !socket.stalled && connected == start.connected
        invariant old(socket.wire) <= socket.wire
        invariant if connected then Onward(start, script, State(), socket.script)
                  else State() == start && socket.script == script
        decreases |Unsent(outPacket)|
      {
        if outPacket == [] {
          if connected {
            QueueEmpty(start, script, State(), socket.script);
          }
          return Success;
        }
        HeadStarted(State());
        ghost var before, events := State(), socket.script;
        var packet := outPacket[0];
        outPacket := outPacket[1..];
        assert before.queue == [packet] + outPacket;
        if !connected {
          outPacket := [packet] + outPacket;
          return ConnLost;
        }
        var sent := socket.Send(packet.packet[packet.pos..]);
        match sent
        case NotUsable =>
          outPacket := [packet] + outPacket;
          SendEnds(start, script, before, events, State());
          return Success;
        case WouldBlock =>
          outPacket := [packet] + outPacket;
          SendEnds(start, script, before, events, State());
          return Again;
        case Error =>
          outPacket := [packet] + outPacket;
          SendEnds(start, script, before, events, State());
          return ConnLost;
        case Taken(n) =>
          if n == 0 {
            HeadLost(before);
            SendEnds(start, script, before, events, State());
            break;
          }
          TookBytes(events, packet.toProcess, n);
          SendKeeps(before, n);
          OnwardSend(start, script, before, events, n);
          var more := Advance(packet, n);
          assert packet.packet[packet.pos..][..n] == Slice(packet.packet, packet.pos, packet.pos + n);
          Wires(before, n);
          assert State() == AfterSend(before, n);
          if !more {
            return Success;
          }
      }
      rc := Success;
    }
  }

  lemma TookBytes(script: seq<Event>, size: nat, n: nat)
    requires Answer(script, size) == Taken(n)
    ensures script != [] && script[0].Take? && n == Min(script[0].k, size) && Later(script) == script[1..]
  {
  }

  lemma Wires(s: Sending, n: nat)
    requires s.queue != [] && n <= s.queue[0].toProcess && s.connected
    ensures AfterSend(s, n).wire == s.wire + Slice(s.queue[0].packet, s.queue[0].pos, s.queue[0].pos + n)
    ensures AfterSend(s, n) == AfterSend(s.(wire := AfterSend(s, n).wire), n).(wire := AfterSend(s, n).wire)
  {
  }
}
