/** What a call of the packet writer sends and how it ends, told by the script of the socket and the sizes of
    the packets alone; and that repeated calls send everything. */
module PacketDraining {
  import opened Bytes
  import opened Numbers
  import opened Options
  import opened PacketWriting

  function Sum(parts: seq<nat>): nat {
    if parts == [] then 0 else parts[0] + Sum(parts[1..])
  }

  predicate Positive(parts: seq<nat>) {
    forall i :: 0 <= i < |parts| ==> parts[i] > 0
  }

  /** A send that takes something. */
  predicate Takes(e: Event) {
    e.Take? && e.k > 0
  }

  lemma ShortenedSum(parts: seq<nat>, n: nat)
    requires parts != [] && n <= parts[0] && Positive(parts)
    ensures Sum(Shortened(parts, n)) == Sum(parts) - n && Positive(Shortened(parts, n))
  {
    if n < parts[0] {
      assert Shortened(parts, n)[1..] == parts[1..];
    }
  }

  /** The call has sent everything exactly when it ends for that. */
  lemma {:induction false} DoneExactly(parts: seq<nat>, script: seq<Event>)
    requires Positive(parts)
    ensures var d := Drain(parts, script);
      d.bytes <= Sum(parts) && d.used <= |script| && (d.bytes == Sum(parts) <==> d.end.Done?)
    decreases |script|
  {
    if parts != [] && script != [] && script[0].Take? {
      var n := Min(script[0].k, parts[0]);
      if n > 0 {
        ShortenedSum(parts, n);
        DoneExactly(Shortened(parts, n), script[1..]);
      }
    }
  }

  /** Why there is no other send call. */
  predicate Stops(e: Option<Event>, end: End) {
    match end
    case Done => true
    case Dry => e == None
    case Blocked => e == Some(Block)
    case NoSocket => e == Some(Unusable)
    case Failed => e == Some(Failure)
    case Stalled => e == Some(Take(0))
  }

  /** Each send call but the last takes something, and the last event decides how the call ends: to be repeated
      after one that blocks or when there is none, lost after a failure, with success otherwise. */
  lemma {:induction false} EndExactly(parts: seq<nat>, script: seq<Event>)
    requires Positive(parts)
    ensures var d := Drain(parts, script);
      && d.used <= |script|
      && (forall i :: 0 <= i < d.used - 1 ==> Takes(script[i]))
      && (if d.end.Done? || d.end.Dry? then d.used > 0 ==> Takes(script[d.used - 1])
          else d.used > 0 && Stops(Some(script[d.used - 1]), d.end))
      && (d.end.Dry? ==> d.used == |script|)
    decreases |script|
  {
    if parts != [] && script != [] && script[0].Take? {
      var n := Min(script[0].k, parts[0]);
      if n > 0 {
        ShortenedSum(parts, n);
        EndExactly(Shortened(parts, n), script[1..]);
        var d, e := Drain(parts, script), Drain(Shortened(parts, n), script[1..]);
        forall i | 0 <= i < d.used - 1 ensures Takes(script[i]) {
          if i > 0 {
            assert script[i] == script[1..][i - 1];
          }
        }
        if d.used > 1 {
          assert script[d.used - 1] == script[1..][e.used - 1];
        }
      }
    }
  }

  // ---------- how much each send takes ----------

  /** What is left of the packet in which byte `x` of all stands. */
  function Room(parts: seq<nat>, x: nat): nat
    requires x < Sum(parts)
  {
    if x < parts[0] then parts[0] - x else Room(parts[1..], x - parts[0])
  }

  lemma {:induction false} ShortenedRoom(parts: seq<nat>, n: nat, x: nat)
    requires parts != [] && n <= parts[0] && Positive(parts) && n + x < Sum(parts)
    ensures x < Sum(Shortened(parts, n)) && Room(Shortened(parts, n), x) == Room(parts, n + x)
  {
    ShortenedSum(parts, n);
    if n < parts[0] {
      assert Shortened(parts, n)[1..] == parts[1..];
    }
  }

  /** With one event more, a send takes what it may, but not beyond the end of the packet that it is in. */
  lemma {:induction false} OneMoreSend(parts: seq<nat>, script: seq<Event>, e: Event)
    requires Positive(parts) && Drain(parts, script).end.Dry? && e.Take?
    ensures var x := Drain(parts, script).bytes;
      x < Sum(parts) && Drain(parts, script + [e]).bytes == x + Min(e.k, Room(parts, x))
    decreases |script|
  {
    DoneExactly(parts, script);
    if script == [] {
      assert [e][1..] == [] && ([] + [e])[0] == e;
      assert ([] + [e])[1..] == [];
    } else {
      var n := Min(script[0].k, parts[0]);
      assert (script + [e])[1..] == script[1..] + [e];
      ShortenedSum(parts, n);
      OneMoreSend(Shortened(parts, n), script[1..], e);
      ShortenedRoom(parts, n, Drain(Shortened(parts, n), script[1..]).bytes);
    }
  }

  /** Sends that all take something send everything when there is one for each byte. */
  lemma {:induction false} EnoughSends(parts: seq<nat>, script: seq<Event>)
    requires Positive(parts) && (forall i :: 0 <= i < |script| ==> Takes(script[i])) && |script| >= Sum(parts)
    ensures Drain(parts, script).end.Done?
    decreases |script|
  {
    if parts != [] {
      var n := Min(script[0].k, parts[0]);
      ShortenedSum(parts, n);
      forall i | 0 <= i < |script[1..]| ensures Takes(script[1..][i]) {
        assert script[1..][i] == script[i + 1];
      }
      EnoughSends(Shortened(parts, n), script[1..]);
    }
  }

  /** As many bytes as there are to send are not enough when they come in one event: a send call ends with its
      packet. */
  lemma NotAcrossPackets()
    ensures Drain([2, 2], [Take(4)]) == Drained(2, 1, Dry)
    ensures Drain([2, 2], [Take(2), Take(2)]) == Drained(4, 2, Done)
  {
    assert Shortened([2, 2], 2) == [2] && Shortened([2], 2) == [];
    assert [Take(2), Take(2)][1..] == [Take(2)] && [Take(4)][1..] == [] && [Take(2)][1..] == [];
  }

  /** What the sends may take together. */
  function Amount(script: seq<Event>): nat {
    if script == [] then 0 else Amount(script[1..]) + if script[0].Take? then script[0].k else 0
  }

  /** No send may take more than is left of the packet that it is in. */
  predicate Within(parts: seq<nat>, script: seq<Event>)
    decreases |script|
  {
    script != [] && parts != [] && script[0].Take? ==>
      script[0].k <= parts[0] && Within(Shortened(parts, script[0].k), script[1..])
  }

  lemma {:induction false} AmountBounds(parts: seq<nat>, script: seq<Event>)
    requires Positive(parts)
    ensures Drain(parts, script).bytes <= Amount(script)
    decreases |script|
  {
    if parts != [] && script != [] && script[0].Take? {
      var n := Min(script[0].k, parts[0]);
      ShortenedSum(parts, n);
      if n > 0 {
        AmountBounds(Shortened(parts, n), script[1..]);
      }
    }
  }

  lemma {:induction false} WithinDecides(parts: seq<nat>, script: seq<Event>)
    requires Positive(parts) && (forall i :: 0 <= i < |script| ==> Takes(script[i])) && Amount(script) <= Sum(parts)
    ensures Drain(parts, script).bytes == Amount(script) <==> Within(parts, script)
    decreases |script|
  {
    if parts != [] && script != [] {
      var rest, n := script[1..], Min(script[0].k, parts[0]);
      ShortenedSum(parts, n);
      assert forall i :: 0 <= i < |rest| ==> rest[i] == script[i + 1];
      if script[0].k <= parts[0] {
        WithinDecides(Shortened(parts, n), rest);
      } else {
        AmountBounds(Shortened(parts, n), rest);
      }
    }
  }

  /** Sends that may take just as much as there is send everything exactly when none reaches beyond its packet. */
  lemma AddsUpExactly(parts: seq<nat>, script: seq<Event>)
    requires Positive(parts) && (forall i :: 0 <= i < |script| ==> Takes(script[i])) && Amount(script) == Sum(parts)
    ensures Drain(parts, script).end.Done? <==> Within(parts, script)
  {
    WithinDecides(parts, script);
    DoneExactly(parts, script);
  }

  // ---------- call after call ----------

  /** The socket may block, but does not fail. */
  predicate Mild(script: seq<Event>) {
    forall i :: 0 <= i < |script| ==> Takes(script[i]) || script[i] == Block
  }

  function TakesIn(script: seq<Event>): nat {
    if script == [] then 0 else TakesIn(script[1..]) + if Takes(script[0]) then 1 else 0
  }

  function BlocksIn(script: seq<Event>): nat {
    if script == [] then 0 else BlocksIn(script[1..]) + if script[0] == Block then 1 else 0
  }

  /** A call on such a socket sends at least a byte for each event that takes something, and stops at most at
      the next that blocks. */
  lemma {:induction false} MildCall(parts: seq<nat>, script: seq<Event>)
    requires Positive(parts) && Mild(script) && TakesIn(script) >= Sum(parts)
    ensures var d := Drain(parts, script);
      && d.used <= |script| && d.bytes <= Sum(parts)
      && Mild(script[d.used..]) && TakesIn(script[d.used..]) >= Sum(parts) - d.bytes
      && (d.end.Done? || (d.end.Blocked? && BlocksIn(script[d.used..]) < BlocksIn(script)))
    decreases |script|
  {
    if parts != [] && script != [] {
      var rest := script[1..];
      assert forall i :: 0 <= i < |rest| ==> rest[i] == script[i + 1];
      if script[0] != Block {
        var n := Min(script[0].k, parts[0]);
        ShortenedSum(parts, n);
        MildCall(Shortened(parts, n), rest);
        var d, e := Drain(parts, script), Drain(Shortened(parts, n), rest);
        assert script[d.used..] == rest[e.used..];
      }
    } else {
      assert script[0..] == script;
    }
  }

  lemma {:induction false} PartsSum(q: seq<OutPacket>)
    requires forall i :: 0 <= i < |q| ==> Started(q[i])
    ensures Positive(Parts(q)) && Sum(Parts(q)) <= |Unsent(q)|
    ensures !HasEnd(q) ==> Sum(Parts(q)) == |Unsent(q)| && PacketWriting.Behind(q) == []
  {
    if q != [] {
      var p, rest := q[0], q[1..];
      assert q == [p] + rest;
      PartsOf(p, rest);
      forall i | 0 <= i < |rest| ensures Started(rest[i]) {
        assert rest[i] == q[i + 1];
      }
      PartsSum(rest);
      var tail: seq<nat> := if Ends(p) then [] else Parts(rest);
      assert Parts(q) == [p.toProcess] + tail && Parts(q)[1..] == tail;
    }
  }

  lemma QueuedParts(s: Sending)
    requires Accounted(s)
    ensures Positive(Parts(s.queue)) && Sum(Parts(s.queue)) <= |Unsent(s.queue)|
    ensures !HasEnd(s.queue) ==> Sum(Parts(s.queue)) == |Unsent(s.queue)| && PacketWriting.Behind(s.queue) == []
  {
    PartsSum(s.queue);
  }

  lemma StillUnsent(s: Sending, t: Sending, n: nat)
    requires Accounted(s) && Accounted(t) && s.history == t.history && n <= |Unsent(s.queue)|
    requires t.wire == s.wire + Unsent(s.queue)[..n]
    ensures Unsent(t.queue) == Unsent(s.queue)[n..]
  {
    var all := AllBytes(s.history);
    assert Unsent(t.queue) == all[|t.wire|..] && Unsent(s.queue) == all[|s.wire|..];
    hide Unsent, AllBytes, WholeQueue, Handles, EndsLast, Queued;
  }

  /** Called again and again on a socket that blocks but does not fail, and takes something often enough, the
      writer sends everything that was queued, in order. */
  method WriteToTheEnd(w: PacketWriter)
    requires Accounted(w.State()) && w.connected && !w.socket.stalled && !HasEnd(w.outPacket)
    requires Mild(w.socket.script) && TakesIn(w.socket.script) >= |Unsent(w.outPacket)|
    modifies w, w.socket
    ensures Accounted(w.State()) && w.outPacket == [] && w.connected
    ensures w.socket.wire == old(w.socket.wire) + Unsent(old(w.outPacket))
  {
    hide Accounted, Unsent, AllBytes, Drain, Parts, HasEnd, PacketWriting.Behind, Mild, TakesIn, BlocksIn;
    ghost var start := w.State();
    var rc := Again;
    while rc != Success
      invariant Accounted(w.State()) && w.connected && !w.socket.stalled && !HasEnd(w.outPacket)
      invariant Mild(w.socket.script) && TakesIn(w.socket.script) >= |Unsent(w.outPacket)|
      invariant w.socket.wire + Unsent(w.outPacket) == start.wire + Unsent(start.queue)
      invariant w.history == start.history
      invariant rc == Success ==> w.outPacket == []
      decreases rc != Success, BlocksIn(w.socket.script)
    {
      ghost var s, script := w.State(), w.socket.script;
      QueuedParts(s);
      MildCall(Parts(s.queue), script);
      rc := w.PacketWrite();
      StillUnsent(s, w.State(), Drain(Parts(s.queue), script).bytes);
      Rejoined(s.wire, Unsent(s.queue), Drain(Parts(s.queue), script).bytes);
    }
    Nothing();
    assert w.socket.wire + [] == w.socket.wire;
  }

  lemma Rejoined(wire: seq<Byte>, unsent: seq<Byte>, n: nat)
    requires n <= |unsent|
    ensures wire + unsent[..n] + unsent[n..] == wire + unsent
  {
  }
}
