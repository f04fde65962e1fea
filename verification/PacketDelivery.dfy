/** How a call of the packet reader ends, told by the receive calls that it makes; and that the reader gets
    to the end of whatever is delivered. */
module PacketDelivery {
  import opened Bytes
  import opened Numbers
  import opened Options
  import opened PacketStream
  import opened PacketReading

  // ---------- the receive calls of a call ----------

  function EventAt(script: seq<Event>, i: nat): Option<Event> {
    if i < |script| then Some(script[i]) else None
  }

  function Gifts(script: seq<Event>): nat {
    if script == [] then 0 else Gifts(script[1..]) + if script[0].Give? then 1 else 0
  }

  /** There is an event for each byte. */
  predicate Supplied(a: Arrival) {
    Gifts(a.script) >= |a.stream|
  }

  /** The receive calls between `a` and `b` met the events of the script one by one. */
  ghost predicate Met(a: Arrival, b: Arrival) {
    && a.calls <= b.calls && |b.stream| <= |a.stream| && (Supplied(a) ==> Supplied(b))
    && var n := b.calls - a.calls;
      && b.script == (if n <= |a.script| then a.script[n..] else [])
      && (n > 0 ==> b.last.event == EventAt(a.script, n - 1))
      && (n == 0 ==> b == a)
  }

  lemma MetTransitive(a: Arrival, b: Arrival, c: Arrival)
    requires Met(a, b) && Met(b, c)
    ensures Met(a, c) && a.calls <= b.calls <= c.calls && (b.calls == c.calls ==> b == c)
  {
  }

  /** The socket failed or reported the end. */
  predicate Lost(t: Turn) {
    t.event == Some(Failure) || t.event == Some(Closed)
  }

  /** The socket would have blocked. */
  predicate Waits(t: Turn) {
    t.event == None || t.event == Some(Block) || (t.event.value.Give? && t.left == 0)
  }

  lemma TakenMeets(a: Arrival, n: nat)
    requires n > 0
    ensures var (r, b) := Taken(a, n);
      && Met(a, b) && b.calls == a.calls + 1 && b.last.asked == n && b.last.left == |a.stream|
      && (r.WouldBlock? <==> Waits(b.last)) && (r.Error? || r == Data([]) <==> Lost(b.last))
      && (r.Data? && r.bytes != [] <==> Given(b.last) > 0)
      && (r.Data? ==> |r.bytes| == Given(b.last))
  {
  }

  lemma ByteMeets(a: Arrival)
    ensures var (byte, rc, b) := TakenByte(a);
      && Met(a, b) && b.calls == a.calls + 1
      && (byte.Some? <==> Given(b.last) > 0)
      && (byte == None ==> if rc == Again then Waits(b.last) else Lost(b.last))
      && (byte.Some? ==> !Waits(b.last) && !Lost(b.last))
  {
    TakenMeets(a, 1);
    hide Met;
  }

  // ---------- the parts of a call ----------

  function Used(r: Reader, r1: Reader): int {
    r1.arrival.calls - r.arrival.calls
  }

  lemma CommandEnds(r: Reader)
    ensures var (r1, stop) := TakeCommand(r);
      && Met(r.arrival, r1.arrival) && Used(r, r1) == 1
      && (stop == None ==> Given(r1.arrival.last) > 0)
      && (stop.Some? ==> r1 == r.(arrival := r1.arrival) && stop.value in {Again, ConnLost})
      && (stop == Some(ConnLost) <==> Lost(r1.arrival.last)) && (stop == Some(Again) <==> Waits(r1.arrival.last))
  {
    hide Met, TakenByte;
    ByteMeets(r.arrival);
  }

  lemma LengthByteEnds(r: Reader)
    ensures var (r1, stop) := TakeLengthByte(r);
      && Met(r.arrival, r1.arrival) && Used(r, r1) == 1 && r1.begun == r.begun
      && (stop == None || stop == Some(Protocol) ==> Given(r1.arrival.last) > 0)
      && (stop.Some? ==> stop.value in {Again, ConnLost, Protocol})
      && (stop.Some? ==> r1.inPacket.haveRemaining == r.inPacket.haveRemaining)
      && (stop == Some(ConnLost) <==> Lost(r1.arrival.last)) && (stop == Some(Again) <==> Waits(r1.arrival.last))
  {
    hide Met, TakenByte;
    ByteMeets(r.arrival);
  }

  /** The length field: `n` receive calls of a byte each. */
  predicate LengthEnd(r: Reader, r1: Reader, stop: Option<Rc>) {
    var n := Used(r, r1);
    && n >= 0 && r1.begun == r.begun
    && (n == 0 <==> r.inPacket.haveRemaining)
    && (stop == None ==>
          && r1.inPacket.haveRemaining && n == |r1.inPacket.remainingCount| - |r.inPacket.remainingCount|
          && (n > 0 ==> Given(r1.arrival.last) > 0 && HeaderBytes(r1) <= 5))
    && (stop.Some? ==> !r1.inPacket.haveRemaining && stop.value in {Again, ConnLost, Protocol})
    && (stop == Some(ConnLost) <==> n > 0 && Lost(r1.arrival.last))
    && (stop == Some(Again) <==> n > 0 && Waits(r1.arrival.last))
  }

  lemma {:induction false} LengthEnds(r: Reader)
    ensures var (r1, stop) := TakeLength(r); Met(r.arrival, r1.arrival) && LengthEnd(r, r1, stop)
    decreases 5 - |r.inPacket.remainingCount|
  {
    hide Met, TakeLengthByte, Lost, Waits, Given;
    if r.inPacket.haveRemaining {
      MetNone(r.arrival);
    } else {
      var (r1, stop) := TakeLengthByte(r);
      LengthByteEnds(r);
      LengthGrows(r);
      Apart(r1.arrival.last);
      if stop == None {
        LengthEnds(r1);
        MetTransitive(r.arrival, r1.arrival, TakeLength(r1).0.arrival);
      }
    }
  }

  lemma Apart(t: Turn)
    ensures Given(t) > 0 ==> !Waits(t) && !Lost(t)
    ensures !(Waits(t) && Lost(t))
  {
  }

  lemma MetNone(a: Arrival)
    ensures Met(a, a)
  {
  }

  /** The body: `n` receive calls, of at most `count`. */
  predicate BodyEnd(r: Reader, r1: Reader, stop: Option<Rc>, count: nat) {
    var n := Used(r, r1);
    && 0 <= n <= count && (n == 0 <==> r.inPacket.toProcess == 0)
    && r1.begun == r.begun && r1.inPacket.haveRemaining == r.inPacket.haveRemaining
    && r1.inPacket.remainingCount == r.inPacket.remainingCount
    && (stop == None ==> n < count && (n > 0 ==> Given(r1.arrival.last) > 0))
    && (stop.Some? ==> stop.value in {Again, ConnLost})
    && (stop == Some(ConnLost) <==> n > 0 && Lost(r1.arrival.last))
    && (stop == Some(Again) <==> n > 0 && (Waits(r1.arrival.last) || (n == count && Given(r1.arrival.last) > 0)))
  }

  lemma {:induction false} BodyEnds(r: Reader, count: nat)
    requires count > 0
    ensures var (r1, stop) := TakeBody(r, count); Met(r.arrival, r1.arrival) && BodyEnd(r, r1, stop, count)
    decreases r.inPacket.toProcess
  {
    hide Met, Taken, Lost, Waits, Given;
    if r.inPacket.toProcess == 0 {
      MetNone(r.arrival);
    } else {
      var (received, a) := Taken(r.arrival, r.inPacket.toProcess);
      TakenMeets(r.arrival, r.inPacket.toProcess);
      Apart(a.last);
      if received.Data? && received.bytes != [] && count > 1 {
        var r1 := WithData(r, received.bytes, a);
        BodyEnds(r1, count - 1);
        MetTransitive(r.arrival, a, TakeBody(r1, count - 1).0.arrival);
      }
    }
  }

  // ---------- a call ----------

  /** The bytes of the packet's header. */
  function HeaderBytes(r: Reader): nat {
    if r.begun then 1 + |r.inPacket.remainingCount| else 0
  }

  /** A hundred receive calls for the body, the last of which gave something. */
  predicate Hundred(r: Reader, r1: Reader) {
    && r1.begun && r1.inPacket.haveRemaining && Used(r, r1) == HeaderBytes(r1) - HeaderBytes(r) + 100
    && Given(r1.arrival.last) > 0
  }

  /** How a call ends is decided by the last event that it meets: the connection is lost when this is a failure
      or the end, and the call is to be repeated when the socket would block or a hundred receive calls for
      the body are used up. Only a call that finds a complete packet receives nothing. */
  ghost predicate EndsRight(r: Reader, r1: Reader, rc: Rc) {
    && Met(r.arrival, r1.arrival)
    && (rc == ConnLost <==> Used(r, r1) > 0 && Lost(r1.arrival.last))
    && (rc == Again <==> Used(r, r1) > 0 && (Waits(r1.arrival.last) || Hundred(r, r1)))
    && (FullPacket(r.inPacket) <==> Used(r, r1) == 0)
  }

  lemma HandOverStays(r: Reader)
    ensures var (r1, rc) := HandOver(r);
      r1.arrival == r.arrival && Reaches(rc) && (r1.begun ==> rc.Raised? && r1.inPacket == r.inPacket)
  {
  }

  lemma CallBodyEnds(r: Reader)
    requires r.inPacket.haveRemaining && r.begun
    ensures EndsRight(r, CallBody(r).0, CallBody(r).1)
  {
    hide Met, TakeBody, HandOver, Lost, Waits, Given;
    BodyEnds(r, 100);
    var r1 := TakeBody(r, 100).0;
    Apart(r1.arrival.last);
    HandOverStays(r1);
  }

  /** A call whose first receive calls, without which it is known to start, led from `r` to `r1`. */
  lemma EndsLater(r: Reader, r1: Reader, r2: Reader, rc: Rc)
    requires Met(r.arrival, r1.arrival) && !FullPacket(r.inPacket)
    requires Used(r, r1) == HeaderBytes(r1) - HeaderBytes(r) && Used(r, r1) > 0 && Given(r1.arrival.last) > 0
    requires HeaderBytes(r1) <= 5
    requires EndsRight(r1, r2, rc)
    ensures EndsRight(r, r2, rc)
  {
    MetTransitive(r.arrival, r1.arrival, r2.arrival);
    Apart(r1.arrival.last);
    hide Met, Lost, Waits, Given;
  }

  lemma CallLengthEnds(r: Reader)
    requires r.begun
    ensures EndsRight(r, CallLength(r).0, CallLength(r).1)
  {
    hide Met, TakeLength, CallBody, Lost, Waits, Given;
    LengthEnds(r);
    var (r1, stop) := TakeLength(r);
    Apart(r1.arrival.last);
    if r.inPacket.haveRemaining {
      NothingToRead(r);
      CallBodyEnds(r);
    } else if stop == None {
      CallBodyEnds(r1);
      EndsLater(r, r1, CallBody(r1).0, CallBody(r1).1);
    }
  }

  /** Every call on a stream that is read as the parser does ends in this way. */
  lemma CallEnds(r: Reader)
    requires Valid(r) && Resumable(r)
    ensures EndsRight(r, Call(r).0, Call(r).1)
  {
    hide Met, TakeCommand, CallLength, Lost, Waits, Given;
    if r.inPacket.command != 0 {
      Started(r);
      CallLengthEnds(r);
    } else {
      CommandEnds(r);
      var (r1, stop) := TakeCommand(r);
      Apart(r1.arrival.last);
      NotFull(r);
      if stop == None {
        FreshCommand(r);
        CallLengthEnds(r1);
        EndsLater(r, r1, CallLength(r1).0, CallLength(r1).1);
      }
    }
  }

  lemma NotFull(r: Reader)
    requires Valid(r) && Resumable(r) && r.inPacket.command == 0
    ensures !FullPacket(r.inPacket)
  {
  }

  /** A command byte begins a packet. */
  lemma FreshCommand(r: Reader)
    requires Valid(r) && Resumable(r) && r.inPacket.command == 0 && TakeCommand(r).1 == None
    ensures !r.begun && HeaderBytes(TakeCommand(r).0) == 1
  {
    hide Taken;
  }

  // ---------- what a script delivers ----------

  /** The bytes that a reader asks for who has `p` of a packet: one by one up to the end of the length field,
      and then all the rest. */
  function Wanted(p: seq<Byte>): nat {
    if p == [] then 1
    else match ReadLength(p[1..], 4)
      case Got(length, n) => if |p| < 1 + n + length then 1 + n + length - |p| else 1
      case _ => 1
  }

  /** A packet that is complete is put aside. */
  function PutAside(p: seq<Byte>): seq<Byte> {
    if ParseOne(p).Complete? then [] else p
  }

  /** What is left of the stream when the whole script is used up. */
  function Left(p: seq<Byte>, stream: seq<Byte>, script: seq<Event>): seq<Byte>
    decreases |script|
  {
    if script == [] then stream
    else match script[0]
      case Give(k) =>
        var m := Min(Min(if k == 0 then 1 else k, Wanted(p)), |stream|);
        Left(PutAside(p + stream[..m]), stream[m..], script[1..])
      case _ => Left(p, stream, script[1..])
  }

  /** The socket neither fails nor reports the end. */
  predicate Open(script: seq<Event>) {
    forall i :: 0 <= i < |script| ==> script[i].Give? || script[i].Block?
  }

  /** The part of a packet that is still to be completed. */
  function Partly(r: Reader): seq<Byte> {
    if FullPacket(r.inPacket) then [] else Pending(r)
  }

  function LeftOf(r: Reader): seq<Byte> {
    Left(Partly(r), r.arrival.stream, r.arrival.script)
  }

  lemma TakenLeft(p: seq<Byte>, a: Arrival)
    requires Open(a.script) && !ParseOne(p).Complete?
    ensures var (r, b) := Taken(a, Wanted(p));
      && Open(b.script) && !Lost(b.last)
      && Left(p, a.stream, a.script)
         == Left(if r.Data? && r.bytes != [] then PutAside(p + r.bytes) else p, b.stream, b.script)
  {
    hide ParseOne, ReadLength;
    if a.script != [] && a.script[0].Give? && a.stream == [] {
      assert p + a.stream[..0] == p && a.stream[0..] == a.stream;
    }
  }

  lemma PartlyParses(r: Reader)
    requires Valid(r)
    ensures !ParseOne(Partly(r)).Complete?
    ensures r.begun && !FullPacket(r.inPacket) ==> ParseOne(Pending(r)).Partial?
    ensures FullPacket(r.inPacket) ==> ParseOne(Pending(r)).Complete?
  {
    if r.begun {
      RawParses(r.inPacket);
    }
    hide ReadLength;
  }

  lemma WantedNow(r: Reader)
    requires Valid(r) && !FullPacket(r.inPacket)
    ensures Wanted(Partly(r)) == if r.inPacket.haveRemaining then r.inPacket.toProcess else 1
  {
    var p := r.inPacket;
    hide Low, Pow128, Parse;
    if r.begun {
      assert Raw(p)[1..] == p.remainingCount + p.packet;
      if !p.haveRemaining {
        NothingBehind(p.remainingCount, p.packet);
        UnfinishedLength(p.remainingCount, 4);
      }
    }
    hide ReadLength;
  }

  /** Bytes that complete nothing or a packet. */
  lemma Grows(r: Reader, r1: Reader, bytes: seq<Byte>)
    requires Valid(r) && Valid(r1) && !FullPacket(r.inPacket) && r1.begun && Pending(r1) == Pending(r) + bytes
    ensures PutAside(Partly(r) + bytes) == Partly(r1)
  {
    PartlyParses(r1);
    hide Valid, ParseOne;
  }

  /** A call, or a part of one, that keeps what the script leaves. */
  ghost predicate SameLeft(r: Reader, r1: Reader) {
    Open(r1.arrival.script) && LeftOf(r1) == LeftOf(r)
  }

  lemma Idle(r: Reader)
    requires Valid(r) && !r.begun
    ensures r.inPacket == NOTHING
  {
  }

  lemma TakenOne(a: Arrival)
    ensures var (byte, rc, b) := TakenByte(a); var (r, c) := Taken(a, 1);
      && b == c && (byte.Some? <==> r.Data? && r.bytes != []) && (byte.Some? ==> r.bytes == [byte.value])
  {
  }

  lemma InHeader(r: Reader)
    requires Valid(r) && !r.inPacket.haveRemaining
    ensures r.inPacket.packet == [] && |r.inPacket.remainingCount| <= 4
  {
  }

  lemma CommandLeft(r: Reader)
    requires Valid(r) && !r.begun && Open(r.arrival.script)
    ensures SameLeft(r, TakeCommand(r).0)
  {
    hide Valid, Faithful, Taken, Left, Wanted, ParseOne, Open;
    var r1 := TakeCommand(r).0;
    Idle(r);
    TakenOne(r.arrival);
    CommandKeeps(r);
    WantedNow(r);
    PartlyParses(r);
    TakenLeft([], r.arrival);
    if r1.begun {
      Grows(r, r1, [r1.inPacket.command]);
    }
  }

  lemma LengthByteLeft(r: Reader)
    requires Valid(r) && r.begun && !r.inPacket.haveRemaining && Open(r.arrival.script)
    requires TakeLengthByte(r).1 != Some(Protocol)
    ensures SameLeft(r, TakeLengthByte(r).0)
  {
    hide Valid, Faithful, Taken, Left, Wanted, ParseOne, Open;
    var r1 := TakeLengthByte(r).0;
    LengthByteKeeps(r);
    InHeader(r);
    TakenOne(r.arrival);
    WantedNow(r);
    PartlyParses(r);
    TakenLeft(Partly(r), r.arrival);
    var byte := TakenByte(r.arrival).0;
    if byte.Some? {
      assert Raw(WithByte(r.inPacket, byte.value)) == Raw(r.inPacket) + [byte.value];
      Grows(r, r1, [byte.value]);
    }
  }

  lemma {:induction false} LengthLeft(r: Reader)
    requires Valid(r) && r.begun && Open(r.arrival.script) && TakeLength(r).1 != Some(Protocol)
    ensures SameLeft(r, TakeLength(r).0)
    decreases 5 - |r.inPacket.remainingCount|
  {
    hide Valid, Faithful, ParseOne, TakeLengthByte, Pending, LeftOf, Open;
    if !r.inPacket.haveRemaining {
      LengthByteKeeps(r);
      LengthGrows(r);
      LengthByteLeft(r);
      var (r1, stop) := TakeLengthByte(r);
      if stop == None {
        LengthLeft(r1);
      }
    }
  }

  lemma DataLeft(r: Reader, data: seq<Byte>, a: Arrival)
    requires Valid(r) && r.begun && r.inPacket.haveRemaining && |data| <= r.inPacket.toProcess
    requires r.arrival.stream == data + a.stream
    ensures Pending(WithData(r, data, a)) == Pending(r) + data
  {
    DataRead(r.inPacket, data);
  }

  /** One receive call for the body. */
  lemma BodyStepLeft(r: Reader)
    requires Valid(r) && r.begun && r.inPacket.haveRemaining && r.inPacket.toProcess > 0 && Open(r.arrival.script)
    ensures var (received, a) := Taken(r.arrival, r.inPacket.toProcess);
      SameLeft(r, if received.Data? && received.bytes != [] then WithData(r, received.bytes, a) else r.(arrival := a))
  {
    var (received, a) := Taken(r.arrival, r.inPacket.toProcess);
    NotFullBody(r);
    WantedNow(r);
    PartlyParses(r);
    TakenLeft(Partly(r), r.arrival);
    hide Valid, Taken, Left, Wanted, ParseOne, Open, PutAside;
    if received.Data? && received.bytes != [] {
      DataKeeps(r, received.bytes, a);
      DataLeft(r, received.bytes, a);
      Grows(r, WithData(r, received.bytes, a), received.bytes);
    }
  }

  lemma {:induction false} BodyLeft(r: Reader, count: nat)
    requires count > 0 && Valid(r) && r.begun && r.inPacket.haveRemaining && Open(r.arrival.script)
    ensures SameLeft(r, TakeBody(r, count).0)
    decreases r.inPacket.toProcess
  {
    hide Valid, Taken, LeftOf, Open;
    if r.inPacket.toProcess > 0 {
      var (received, a) := Taken(r.arrival, r.inPacket.toProcess);
      BodyStepLeft(r);
      if received.Data? && received.bytes != [] {
        DataKeeps(r, received.bytes, a);
        if count > 1 {
          BodyLeft(WithData(r, received.bytes, a), count - 1);
        }
      }
    }
  }

  lemma NotFullBody(r: Reader)
    requires r.inPacket.toProcess > 0
    ensures !FullPacket(r.inPacket) && Partly(r) == Pending(r)
  {
  }

  lemma HandOverLeft(r: Reader)
    requires Valid(r) && r.begun && FullPacket(r.inPacket) && Open(r.arrival.script)
    ensures SameLeft(r, HandOver(r).0)
  {
  }

  lemma CallBodyLeft(r: Reader)
    requires Valid(r) && r.begun && r.inPacket.haveRemaining && Open(r.arrival.script)
    ensures SameLeft(r, CallBody(r).0)
  {
    hide TakeBody, HandOver, Valid, Open, LeftOf;
    BodyLeft(r, 100);
    BodyKeeps(r, 100);
    if TakeBody(r, 100).1 == None {
      HandOverLeft(TakeBody(r, 100).0);
    }
  }

  lemma CallLengthLeft(r: Reader)
    requires Valid(r) && r.begun && Open(r.arrival.script) && CallLength(r).1 != Protocol
    ensures SameLeft(r, CallLength(r).0)
  {
    hide TakeLength, CallBody, Valid, Open, LeftOf, ParseOne, Pending, Faithful;
    LengthKeeps(r);
    LengthLeft(r);
    if TakeLength(r).1 == None {
      CallBodyLeft(TakeLength(r).0);
    }
  }

  /** Whatever part of a packet a call takes, what the script leaves of the stream stays the same. */
  lemma CallLeft(r: Reader)
    requires Valid(r) && Resumable(r) && Open(r.arrival.script) && Call(r).1 != Protocol
    ensures SameLeft(r, Call(r).0)
  {
    hide TakeCommand, CallLength, Valid, Open, LeftOf, ParseOne, Pending, Faithful;
    if r.inPacket.command != 0 {
      Started(r);
      CallLengthLeft(r);
    } else if r.begun {
      NothingMore(r);
      NothingLeft(r);
    } else {
      CommandKeeps(r);
      CommandLeft(r);
      if TakeCommand(r).1 == None {
        CallLengthLeft(TakeCommand(r).0);
      }
    }
  }

  lemma {:induction false} NothingComes(p: seq<Byte>, script: seq<Event>)
    ensures Left(p, [], script) == []
    decreases |script|
  {
    hide ParseOne, Wanted;
    if script != [] {
      NothingComes(p, script[1..]);
      NothingComes(PutAside(p + []), script[1..]);
    }
  }

  lemma NothingLeft(r: Reader)
    requires Valid(r) && r.begun && r.inPacket.command == 0 && r.arrival.stream == [] && Open(r.arrival.script)
    requires !FullPacket(r.inPacket)
    ensures SameLeft(r, TakeCommand(r).0)
  {
    NothingComes(Partly(r), r.arrival.script);
    NothingComes(Partly(TakeCommand(r).0), TakeCommand(r).0.arrival.script);
    hide Left, Partly;
  }

  // ---------- to the end ----------

  /** What is still to be done: receive calls, and a packet that is complete. */
  function Undone(r: Reader): nat {
    2 * |r.arrival.script| + |r.verdicts| + if FullPacket(r.inPacket) then 1 else 0
  }

  predicate AtEnd(r: Reader) {
    r.arrival.script == [] && !FullPacket(r.inPacket)
  }

  /** The handler reports no error. */
  predicate Willing(verdicts: seq<Verdict>) {
    forall i :: 0 <= i < |verdicts| ==> verdicts[i] != Refuses
  }

  lemma HandOverVerdict(r: Reader)
    ensures var (r1, rc) := HandOver(r);
      && Reaches(rc) && VerdictOf(rc) == NextVerdict(r.verdicts)
      && r1.inPacket == (if rc.Raised? then r.inPacket else NOTHING)
      && r1.verdicts == if r.verdicts == [] then [] else r.verdicts[1..]
  {
  }

  /** The verdict of a call is the handler's next one, and is used up. */
  lemma CallVerdict(r: Reader)
    ensures var (r1, rc) := Call(r);
      if Reaches(rc) then
        && VerdictOf(rc) == NextVerdict(r.verdicts)
        && r1.verdicts == (if r.verdicts == [] then [] else r.verdicts[1..])
        && (!rc.Raised? ==> r1.inPacket == NOTHING)
      else r1.verdicts == r.verdicts
  {
    hide TakeCommand, TakeLength, TakeBody, HandOver, Met, Lost, Waits, Given;
    var r0 := if r.inPacket.command == 0 then TakeCommand(r).0 else r;
    CommandEnds(r);
    CommandVerdicts(r);
    LengthSame(r0);
    LengthEnds(r0);
    var r1 := TakeLength(r0).0;
    BodySame(r1, 100);
    BodyEnds(r1, 100);
    HandOverVerdict(TakeBody(r1, 100).0);
  }

  lemma CommandVerdicts(r: Reader)
    ensures TakeCommand(r).0.verdicts == r.verdicts
  {
    hide TakenByte;
  }

  lemma {:induction false} MalformedStays(s: seq<Byte>, t: seq<Byte>)
    requires ParseOne(Parse(s).1).Malformed?
    ensures ParseOne(Parse(s + t).1).Malformed?
  {
    hide ParseOne;
    var p := ParseOne(s);
    if p.Complete? {
      ParseOneMore(s, t);
      assert (s + t)[p.bytes..] == s[p.bytes..] + t;
      MalformedStays(s[p.bytes..], t);
    } else {
      ParseOneMore(s, t);
    }
  }

  /** A stream, a socket and a handler with which reading can go on to the end. */
  ghost predicate Readable(r: Reader) {
    && Valid(r) && Harmless(AllOf(r)) && !ParseOne(Parse(AllOf(r)).1).Malformed?
    && Open(r.arrival.script) && Willing(r.verdicts)
  }

  lemma NotMalformed(r: Reader, r1: Reader, rc: Rc)
    requires Kept(r, r1, rc) && !ParseOne(Parse(AllOf(r)).1).Malformed?
    ensures rc != Protocol
  {
    if rc == Protocol {
      assert ParseOne(Parse(r1.seen).1).Malformed?;
      MalformedStays(r1.seen, r1.arrival.stream);
    }
  }

  /** An open socket is not lost. */
  lemma NotLost(r: Reader, r1: Reader, rc: Rc)
    requires EndsRight(r, r1, rc) && Open(r.arrival.script)
    ensures rc != ConnLost
    ensures Used(r, r1) > 0 && r.arrival.script != [] ==> |r1.arrival.script| < |r.arrival.script|
    ensures |r1.arrival.script| <= |r.arrival.script|
    ensures r.arrival.script == [] && Used(r, r1) > 0 ==> rc == Again || !Reaches(rc)
  {
  }

  /** Without an event nothing is received, and so no packet is completed. */
  lemma StaysAtEnd(r: Reader, r1: Reader, rc: Rc)
    requires Valid(r) && Valid(r1) && AtEnd(r) && EndsRight(r, r1, rc) && AllOf(r1) == AllOf(r)
    requires LeftOf(r1) == LeftOf(r) && (rc == Again ==> r1.handled == r.handled)
    ensures AtEnd(r1) && rc == Again
  {
    assert r1.arrival.stream == r.arrival.stream;
    assert r.seen == AllOf(r)[..|r.seen|] && r1.seen == AllOf(r1)[..|r1.seen|];
    ValidFaithful(r);
    ValidFaithful(r1);
    hide Valid, Parse;
  }

  /** Each call brings the end nearer. */
  lemma CallProgresses(r: Reader)
    requires Readable(r)
    ensures var (r1, rc) := Call(r);
      && !Ends(rc) && Readable(r1) && AllOf(r1) == AllOf(r) && LeftOf(r1) == LeftOf(r)
      && if AtEnd(r) then AtEnd(r1) else Undone(r1) < Undone(r)
  {
    hide Valid, Harmless, Call, AllOf, ParseOne, Pending, Faithful, Open, LeftOf, Waits, Lost, Given, Resumable;
    HarmlessResumes(r);
    CallKeeps(r);
    CallEnds(r);
    CallVerdict(r);
    var (r1, rc) := Call(r);
    NotMalformed(r, r1, rc);
    NotLost(r, r1, rc);
    CallLeft(r);
    if AtEnd(r) {
      StaysAtEnd(r, r1, rc);
    }
    hide EndsRight;
  }

  lemma {:induction false} CallsProgress(r: Reader, n: nat)
    requires Readable(r)
    ensures var r1 := Calls(r, n);
      && Readable(r1) && AllOf(r1) == AllOf(r) && LeftOf(r1) == LeftOf(r)
      && (AtEnd(r) || n >= Undone(r) ==> AtEnd(r1))
    decreases n
  {
    hide Readable, Call, AllOf, LeftOf;
    if n > 0 {
      CallProgresses(r);
      CallsProgress(Call(r).0, n - 1);
    }
  }

  lemma StartReadable(stream: seq<Byte>, script: seq<Event>, verdicts: seq<Verdict>)
    requires Harmless(stream) && !ParseOne(Parse(stream).1).Malformed? && Open(script) && Willing(verdicts)
    ensures var r := Start(stream, script, verdicts);
      && Readable(r) && LeftOf(r) == Left([], stream, script) && AllOf(r) == stream
      && Undone(r) == 2 * |script| + |verdicts|
  {
    StartValid(stream, script, verdicts);
    hide Valid, Harmless, AllOf, ParseOne, Left;
  }

  /** Enough calls get to the end: all that the script delivers of the stream is received, and every packet that
      is complete in it has been handled; if it delivers the whole stream, these are the packets of the
      stream. The socket may block and the handler may raise as often as they like in between. */
  lemma ReadsToTheEnd(stream: seq<Byte>, script: seq<Event>, verdicts: seq<Verdict>, n: nat)
    requires Harmless(stream) && !ParseOne(Parse(stream).1).Malformed? && Open(script) && Willing(verdicts)
    requires n >= 2 * |script| + |verdicts|
    ensures var r := Calls(Start(stream, script, verdicts), n);
      && stream == r.seen + Left([], stream, script) && Parse(r.seen) == (r.handled, Pending(r))
      && (Left([], stream, script) == [] ==> r.handled == Parse(stream).0)
  {
    hide Harmless, Calls, Valid, Parse, ParseOne, Left, Pending, Open, Willing;
    var r0 := Start(stream, script, verdicts);
    StartReadable(stream, script, verdicts);
    CallsProgress(r0, n);
    var r := Calls(r0, n);
    ValidFaithful(r);
    EndLeft(r);
    assert r.seen + [] == r.seen;
  }

  lemma EndLeft(r: Reader)
    requires AtEnd(r)
    ensures LeftOf(r) == r.arrival.stream && Partly(r) == Pending(r)
  {
  }

  /** One event that gives a byte for each byte of the stream is always enough. */
  lemma {:induction false} EnoughEvents(p: seq<Byte>, stream: seq<Byte>, script: seq<Event>)
    requires Gifts(script) >= |stream|
    ensures Left(p, stream, script) == []
    decreases |script|
  {
    hide ParseOne;
    if script != [] {
      match script[0]
      case Give(k) =>
        var m := Min(Min(if k == 0 then 1 else k, Wanted(p)), |stream|);
        EnoughEvents(PutAside(p + stream[..m]), stream[m..], script[1..]);
      case _ => EnoughEvents(p, stream, script[1..]);
    }
  }

  /** A loop of `n` calls that all handle a packet handles `n`, and it ends as the first call that does not. */
  lemma {:induction false} LoopEnds(r: Reader, n: nat)
    ensures var (r1, rc) := Loop(r, n);
      if rc.Handled? then r1 == LoopOf(r, n) && AllHandled(r, n)
      else exists i: nat :: i < n && AllHandled(r, i) && Call(LoopOf(r, i)) == (r1, rc)
    decreases n
  {
    hide Call;
    if n > 0 {
      var (r1, rc) := Call(r);
      if rc.Handled? {
        LoopEnds(r1, n - 1);
        if !Loop(r1, n - 1).1.Handled? {
          var i: nat :| i < n - 1 && AllHandled(r1, i) && Call(LoopOf(r1, i)) == Loop(r1, n - 1);
          assert AllHandled(r, i + 1) && LoopOf(r, i + 1) == LoopOf(r1, i);
        }
      } else {
        assert AllHandled(r, 0) && LoopOf(r, 0) == r;
      }
    }
  }

  function LoopOf(r: Reader, n: nat): Reader
    decreases n
  {
    if n == 0 then r else LoopOf(Call(r).0, n - 1)
  }

  predicate AllHandled(r: Reader, n: nat)
    decreases n
  {
    n == 0 || (Call(r).1.Handled? && AllHandled(Call(r).0, n - 1))
  }
}
