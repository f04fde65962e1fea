/** The resumable packet reader, against the one-shot parser: what a call computes, whatever the
    socket does, and exactly which streams it reads as the parser does. */
module PacketReading {
  import opened Bytes
  import opened Numbers
  import opened Options
  import opened VarInt
  import opened PacketStream

  /** What the next receive calls will do: give up to `k` bytes, would block, fail, or report the end. */
  datatype Event = Give(k: nat) | Block | Failure | Closed

  datatype Received = Data(bytes: seq<Byte>) | WouldBlock | Error

  /** What the handler does with a packet: return success, return an error code, or raise. */
  datatype Verdict = Fine | Refuses | Raises

  /** One call of the handler. */
  datatype Handing = Handing(frame: Frame, verdict: Verdict)

  /** How a call ends: `Refused` is an error code of the handler, `Raised` an exception of it. */
  datatype Rc = Handled | Refused | Raised | Again | ConnLost | Protocol

  /** One receive call: the event that it met, if any was left, the bytes asked for, and those that were to come. */
  datatype Turn = Turn(event: Option<Event>, asked: nat, left: nat)

  /** The bytes that it gave. */
  function Given(t: Turn): nat {
    match t.event
    case Some(Give(k)) => Min(Min(if k == 0 then 1 else k, t.asked), t.left)
    case _ => 0
  }

  /** What is still to come on a socket, how many receive calls there were, and the last of them. */
  datatype Arrival = Arrival(stream: seq<Byte>, script: seq<Event>, calls: nat, last: Turn)

  const NO_TURN := Turn(None, 0, 0)

  /** A receive call: between one and `n` bytes, or none of the stream; no bytes is the end. */
  function Taken(a: Arrival, n: nat): (r: (Received, Arrival))
    requires n > 0
    ensures r.1.calls == a.calls + 1
    ensures r.0.Data? ==> |r.0.bytes| <= n && a.stream == r.0.bytes + r.1.stream
    ensures !r.0.Data? ==> r.1.stream == a.stream
  {
    if a.script == [] then (WouldBlock, a.(calls := a.calls + 1, last := Turn(None, n, |a.stream|)))
    else
      var b := Arrival(a.stream, a.script[1..], a.calls + 1, Turn(Some(a.script[0]), n, |a.stream|));
      match a.script[0]
      case Block => (WouldBlock, b)
      case Failure => (Error, b)
      case Closed => (Data([]), b)
      case Give(k) =>
        if a.stream == [] then (WouldBlock, b)
        else
          var m := Min(Min(if k == 0 then 1 else k, n), |a.stream|);
          (Data(a.stream[..m]), b.(stream := a.stream[m..]))
  }

  /** One byte, or the reason why there is none. */
  function TakenByte(a: Arrival): (r: (Option<Byte>, Rc, Arrival))
    ensures r.2.calls == a.calls + 1
    ensures r.0.Some? ==> a.stream == [r.0.value] + r.2.stream
    ensures r.0 == None ==> r.2.stream == a.stream && r.1 in {Again, ConnLost}
  {
    var (r, b) := Taken(a, 1);
    match r
    case WouldBlock => (None, Again, b)
    case Error => (None, ConnLost, b)
    case Data(bytes) =>
      if bytes == [] then (None, ConnLost, b)
      else
        assert bytes == [bytes[0]];
        (Some(bytes[0]), ConnLost, b)
  }

  /** A socket with the bytes still to arrive. */
  class Socket {
    var stream: seq<Byte>
    var script: seq<Event>
    ghost var calls: nat
    ghost var last: Turn

    constructor (stream: seq<Byte>, script: seq<Event>)
      ensures Now() == Arrival(stream, script, 0, NO_TURN)
    {
      this.stream, this.script, calls, last := stream, script, 0, NO_TURN;
    }

    ghost function Now(): Arrival
      reads this
    {
      Arrival(stream, script, calls, last)
    }

    method Recv(n: nat) returns (r: Received)
      requires n > 0
      modifies this
      ensures (r, Now()) == Taken(old(Now()), n)
    {
      calls := calls + 1;
      last := Turn(if script == [] then None else Some(script[0]), n, |stream|);
      if script == [] {
        return WouldBlock;
      }
      var event := script[0];
      script := script[1..];
      match event
      case Block => r := WouldBlock;
      case Failure => r := Error;
      case Closed => r := Data([]);
      case Give(k) =>
        if stream == [] {
          return WouldBlock;
        }
        var m := if k == 0 then 1 else k;
        if m > n {
          m := n;
        }
        if m > |stream| {
          m := |stream|;
        }
        r := Data(stream[..m]);
        stream := stream[m..];
    }

    method RecvByte() returns (byte: Option<Byte>, rc: Rc)
      modifies this
      ensures (byte, rc, Now()) == TakenByte(old(Now()))
    {
      hide Taken;
      var r := Recv(1);
      byte, rc := None, ConnLost;
      match r
      case WouldBlock => rc := Again;
      case Error =>
      case Data(bytes) =>
        if bytes != [] {
          byte := Some(bytes[0]);
        }
    }
  }

  function Pow128(n: nat): (r: nat)
    ensures r > 0
  {
    if n == 0 then 1 else 128 * Pow128(n - 1)
  }

  /** The value of length bytes that all announce another one. */
  function Low(b: seq<Byte>): nat {
    if b == [] then 0 else b[0] % 128 + 128 * Low(b[1..])
  }

  predicate Continuing(b: seq<Byte>) {
    forall i :: 0 <= i < |b| ==> b[i] >= 128
  }

  lemma {:induction false} LowSnoc(b: seq<Byte>, c: Byte)
    ensures Low(b + [c]) == Low(b) + c % 128 * Pow128(|b|)
  {
    if b == [] {
      assert [c][1..] == [];
    } else {
      LowSnoc(b[1..], c);
      assert (b + [c])[1..] == b[1..] + [c];
      var x, p := c % 128, Pow128(|b| - 1);
      assert 128 * (x * p) == x * (128 * p);
    }
  }

  /** A finished length field has the value added up byte by byte. */
  lemma {:induction false} FinishedLength(b: seq<Byte>, c: Byte, rest: seq<Byte>, budget: nat)
    requires |b| < budget && Continuing(b) && c < 128
    ensures ReadLength(b + [c] + rest, budget) == Got(Low(b + [c]), |b| + 1)
  {
    var s := b + [c] + rest;
    if b == [] {
      assert s[0] == c && Low([c][1..]) == 0;
      assert Low([c]) == c;
    } else {
      FinishedLength(b[1..], c, rest, budget - 1);
      assert s[1..] == b[1..] + [c] + rest;
      assert (b + [c])[1..] == b[1..] + [c];
      assert s[0] == b[0] && (b + [c])[0] == b[0];
    }
  }

  lemma {:induction false} UnfinishedLength(b: seq<Byte>, budget: nat)
    requires Continuing(b)
    ensures ReadLength(b, budget) == if |b| <= budget then Incomplete else TooLong
  {
    if b != [] && budget > 0 {
      UnfinishedLength(b[1..], budget - 1);
    }
  }

  /** The packet under way. */
  datatype InPacket = InPacket(
    command: Byte,
    haveRemaining: bool,
    remainingCount: seq<Byte>,
    remainingMult: nat,
    remainingLength: nat,
    packet: seq<Byte>,
    toProcess: nat)

  const NOTHING := InPacket(0, false, [], 1, 0, [], 0)

  /** The counters agree with the bytes collected. */
  ghost predicate Collected(p: InPacket) {
    && |p.remainingCount| <= 4 && p.remainingMult == Pow128(|p.remainingCount|)
    && p.remainingLength == Low(p.remainingCount)
    && (!p.haveRemaining ==> Continuing(p.remainingCount) && p.packet == [] && p.toProcess == 0)
    && (p.haveRemaining ==>
         && ReadLength(p.remainingCount + p.packet, 4) == Got(p.remainingLength, |p.remainingCount|)
         && |p.packet| + p.toProcess == p.remainingLength)
  }

  /** The bytes collected. */
  function Raw(p: InPacket): seq<Byte> {
    [p.command] + p.remainingCount + p.packet
  }

  predicate FullPacket(p: InPacket) {
    p.haveRemaining && p.toProcess == 0
  }

  lemma RawParses(p: InPacket)
    requires Collected(p)
    ensures !FullPacket(p) ==> ParseOne(Raw(p)).Partial?
    ensures FullPacket(p) ==> ParseOne(Raw(p)) == Complete(Frame(p.command, p.packet), |Raw(p)|)
  {
    hide Low, Pow128;
    assert Raw(p)[1..] == p.remainingCount + p.packet;
    if !p.haveRemaining {
      NothingBehind(p.remainingCount, p.packet);
      UnfinishedLength(p.remainingCount, 4);
    } else if p.toProcess == 0 {
      assert Raw(p)[1 + |p.remainingCount|..|Raw(p)|] == p.packet;
    }
    hide ReadLength;
  }

  lemma NothingBehind(a: seq<Byte>, b: seq<Byte>)
    requires b == []
    ensures a + b == a
  {
  }

  function WithByte(p: InPacket, byte: Byte): InPacket {
    var q := p.(remainingCount := p.remainingCount + [byte],
                remainingLength := p.remainingLength + byte % 128 * p.remainingMult,
                remainingMult := p.remainingMult * 128);
    if byte < 128 then q.(haveRemaining := true, toProcess := q.remainingLength) else q
  }

  lemma ByteRead(p: InPacket, byte: Byte)
    requires Collected(p) && !p.haveRemaining && |p.remainingCount| < 4
    ensures Collected(WithByte(p, byte)) && Raw(WithByte(p, byte)) == Raw(p) + [byte]
  {
    LowSnoc(p.remainingCount, byte);
    assert Pow128(|p.remainingCount| + 1) == 128 * Pow128(|p.remainingCount|);
    var q := WithByte(p, byte);
    if byte < 128 {
      FinishedLength(p.remainingCount, byte, [], 4);
      assert p.remainingCount + [byte] + [] == q.remainingCount + q.packet;
    }
    hide Low, Pow128, ReadLength;
  }

  lemma CommandRead(p: InPacket, byte: Byte)
    ensures |Raw(p.(command := byte))| == |Raw(p)|
    ensures p == NOTHING ==> Collected(p.(command := byte)) && Raw(p.(command := byte)) == [byte]
  {
  }

  lemma DataRead(p: InPacket, data: seq<Byte>)
    requires Collected(p) && p.haveRemaining && |data| <= p.toProcess
    ensures var q := p.(packet := p.packet + data, toProcess := p.toProcess - |data|);
      Collected(q) && Raw(q) == Raw(p) + data
  {
    hide Low, Pow128, ReadLength;
    ReadLengthMore(p.remainingCount + p.packet, data, 4);
    assert p.remainingCount + p.packet + data == p.remainingCount + (p.packet + data);
  }

  lemma FiveBytes(p: InPacket, byte: Byte)
    requires Collected(p) && !p.haveRemaining && |p.remainingCount| == 4
    ensures ParseOne(Raw(p) + [byte]).Malformed?
  {
    hide ReadLength, Low, Pow128;
    OverBudget(p.remainingCount, [byte], 4);
    assert (Raw(p) + [byte])[1..] == p.remainingCount + [byte];
  }

  lemma {:induction false} OverBudget(b: seq<Byte>, c: seq<Byte>, budget: nat)
    requires Continuing(b) && |b| == budget && c != []
    ensures ReadLength(b + c, budget) == TooLong
  {
    if b != [] {
      OverBudget(b[1..], c, budget - 1);
      assert (b + c)[1..] == b[1..] + c;
    }
  }

  // ---------- what a call computes ----------

  /** The packet under way, the packets done with and what the handler will do; and, as history, the calls of
      the handler, whether a packet has been started, all bytes received, and those of the packets done with. */
  datatype Reader = Reader(
    inPacket: InPacket,
    handled: seq<Frame>,
    verdicts: seq<Verdict>,
    given: seq<Handing>,
    begun: bool,
    seen: seq<Byte>,
    done: seq<Byte>,
    arrival: Arrival)

  function Start(stream: seq<Byte>, script: seq<Event>, verdicts: seq<Verdict>): Reader {
    Reader(NOTHING, [], verdicts, [], false, [], [], Arrival(stream, script, 0, NO_TURN))
  }

  function FrameOf(p: InPacket): Frame {
    Frame(p.command, p.packet)
  }

  /** The first byte of a packet. */
  function TakeCommand(r: Reader): (Reader, Option<Rc>) {
    var (byte, rc, a) := TakenByte(r.arrival);
    if byte == None then (r.(arrival := a), Some(rc))
    else (r.(inPacket := r.inPacket.(command := byte.value), begun := true, seen := r.seen + [byte.value],
             arrival := a), None)
  }

  /** One byte of the length field; the fifth is an error. */
  function TakeLengthByte(r: Reader): (Reader, Option<Rc>) {
    var (byte, rc, a) := TakenByte(r.arrival);
    if byte == None then (r.(arrival := a), Some(rc))
    else
      var p := r.inPacket;
      var q := r.(seen := r.seen + [byte.value], arrival := a);
      if |p.remainingCount| >= 4 then
        (q.(inPacket := p.(remainingCount := p.remainingCount + [byte.value])), Some(Protocol))
      else (q.(inPacket := WithByte(p, byte.value)), None)
  }

  function TakeLength(r: Reader): (Reader, Option<Rc>)
    decreases 5 - |r.inPacket.remainingCount|
  {
    if r.inPacket.haveRemaining then (r, None)
    else
      var (r1, stop) := TakeLengthByte(r);
      if stop.Some? then (r1, stop) else TakeLength(r1)
  }

  function WithData(r: Reader, data: seq<Byte>, a: Arrival): Reader
    requires |data| <= r.inPacket.toProcess
  {
    r.(inPacket := r.inPacket.(toProcess := r.inPacket.toProcess - |data|, packet := r.inPacket.packet + data),
       seen := r.seen + data, arrival := a)
  }

  /** The rest of the packet, in at most `count` receive calls. */
  function TakeBody(r: Reader, count: nat): (Reader, Option<Rc>)
    requires count > 0
    decreases r.inPacket.toProcess
  {
    if r.inPacket.toProcess == 0 then (r, None)
    else
      var (received, a) := Taken(r.arrival, r.inPacket.toProcess);
      match received
      case WouldBlock => (r.(arrival := a), Some(Again))
      case Error => (r.(arrival := a), Some(ConnLost))
      case Data(data) =>
        if data == [] then (r.(arrival := a), Some(ConnLost))
        else if count == 1 then (WithData(r, data, a), Some(Again))
        else TakeBody(WithData(r, data, a), count - 1)
  }

  function HandedOver(r: Reader): Reader {
    r.(inPacket := NOTHING, handled := r.handled + [FrameOf(r.inPacket)], begun := false, done := r.seen)
  }

  /** A handler without further orders succeeds. */
  function NextVerdict(verdicts: seq<Verdict>): Verdict {
    if verdicts == [] then Fine else verdicts[0]
  }

  /** The handler gets the packet. When it returns, the packet is freed; when it raises, it stays. */
  function HandOver(r: Reader): (Reader, Rc) {
    var v := NextVerdict(r.verdicts);
    var r1 := r.(given := r.given + [Handing(FrameOf(r.inPacket), v)],
                 verdicts := if r.verdicts == [] then [] else r.verdicts[1..]);
    match v
    case Fine => (HandedOver(r1), Handled)
    case Refuses => (HandedOver(r1), Refused)
    case Raises => (r1, Raised)
  }

  function CallBody(r: Reader): (Reader, Rc) {
    var (r1, stop) := TakeBody(r, 100);
    if stop.Some? then (r1, stop.value) else HandOver(r1)
  }

  function CallLength(r: Reader): (Reader, Rc) {
    var (r1, stop) := TakeLength(r);
    if stop.Some? then (r1, stop.value) else CallBody(r1)
  }

  /** One call: command byte, length field and body, as far as they come. The command byte 0 stands for
      "no packet started". */
  function Call(r: Reader): (Reader, Rc) {
    var (r1, stop) := if r.inPacket.command == 0 then TakeCommand(r) else (r, None);
    if stop.Some? then (r1, stop.value) else CallLength(r1)
  }

  /** The loop of `loop_read`. */
  function Loop(r: Reader, maxPackets: nat): (Reader, Rc)
    decreases maxPackets
  {
    if maxPackets == 0 then (r, Handled)
    else
      var (r1, rc) := Call(r);
      if rc.Handled? then Loop(r1, maxPackets - 1) else (r1, rc)
  }

  /** The error codes that close the connection. */
  predicate Ends(rc: Rc) {
    rc.Refused? || rc.ConnLost? || rc.Protocol?
  }

  /** A number of calls, as long as the connection lasts; an exception of the handler does not end it. */
  function Calls(r: Reader, n: nat): Reader
    decreases n
  {
    if n == 0 then r
    else
      var (r1, rc) := Call(r);
      if Ends(rc) then r1 else Calls(r1, n - 1)
  }

  // ---------- the reader ----------

  class PacketReader {
    const socket: Socket
    var inPacket: InPacket
    var handled: seq<Frame>
    var verdicts: seq<Verdict>
    ghost var given: seq<Handing>
    ghost var begun: bool
    ghost var seen: seq<Byte>
    ghost var done: seq<Byte>

    constructor (socket: Socket, verdicts: seq<Verdict>)
      ensures this.socket == socket && State() == Reader(NOTHING, [], verdicts, [], false, [], [], socket.Now())
    {
      this.socket := socket;
      inPacket, handled := NOTHING, [];
      this.verdicts, given := verdicts, [];
      begun, seen, done := false, [], [];
    }

    ghost function State(): Reader
      reads this, socket
    {
      Reader(inPacket, handled, verdicts, given, begun, seen, done, socket.Now())
    }

    method ReadCommand() returns (stop: Option<Rc>)
      modifies this, socket
      ensures (State(), stop) == TakeCommand(old(State()))
    {
      hide TakenByte;
      var byte, rc := socket.RecvByte();
      if byte == None {
        return Some(rc);
      }
      inPacket := inPacket.(command := byte.value);
      begun, seen := true, seen + [byte.value];
      stop := None;
    }

    method ReadLengthByte() returns (stop: Option<Rc>)
      modifies this, socket
      ensures (State(), stop) == TakeLengthByte(old(State()))
    {
      hide TakenByte;
      var byte, rc := socket.RecvByte();
      if byte == None {
        return Some(rc);
      }
      seen := seen + [byte.value];
      var p, count := inPacket, inPacket.remainingCount + [byte.value];
      inPacket := p.(remainingCount := count);
      if |count| > 4 {
        return Some(Protocol);
      }
      inPacket := inPacket.(remainingLength := p.remainingLength + byte.value % 128 * p.remainingMult,
                            remainingMult := p.remainingMult * 128);
      if byte.value < 128 {
        inPacket := inPacket.(haveRemaining := true, toProcess := inPacket.remainingLength);
      }
      stop := None;
    }

    method ReadRemaining() returns (stop: Option<Rc>)
      modifies this, socket
      ensures (State(), stop) == TakeLength(old(State()))
    {
      hide TakeLengthByte;
      while !inPacket.haveRemaining
        invariant TakeLength(State()) == TakeLength(old(State()))
        decreases !inPacket.haveRemaining, 5 - |inPacket.remainingCount|
      {
        LengthGrows(State());
        stop := ReadLengthByte();
        if stop.Some? {
          return;
        }
      }
      stop := None;
    }

    /** Collect the rest of the packet; at most a hundred receive calls at a time. */
    method ReadBody() returns (stop: Option<Rc>)
      modifies this, socket
      ensures (State(), stop) == TakeBody(old(State()), 100)
    {
      hide Taken;
      var count := 100;
      while inPacket.toProcess > 0
        invariant 0 < count <= 100 && TakeBody(State(), count) == TakeBody(old(State()), 100)
        decreases inPacket.toProcess
      {
        var r := socket.Recv(inPacket.toProcess);
        match r
        case WouldBlock => return Some(Again);
        case Error => return Some(ConnLost);
        case Data(data) =>
          if data == [] {
            return Some(ConnLost);
          }
          inPacket := inPacket.(toProcess := inPacket.toProcess - |data|, packet := inPacket.packet + data);
          seen := seen + data;
          count := count - 1;
          if count == 0 {
            return Some(Again);
          }
      }
      stop := None;
    }

    /** Give the packet to the handler and, unless it raises, start afresh. */
    method Handle() returns (rc: Rc)
      modifies this
      ensures (State(), rc) == HandOver(old(State()))
    {
      var frame, verdict := Frame(inPacket.command, inPacket.packet), Fine;
      if verdicts != [] {
        verdict, verdicts := verdicts[0], verdicts[1..];
      }
      given := given + [Handing(frame, verdict)];
      if verdict == Raises {
        return Raised;
      }
      handled := handled + [frame];
      inPacket := NOTHING;
      begun, done := false, seen;
      rc := if verdict == Fine then Handled else Refused;
    }

    /** _packet_read */
    method PacketRead() returns (rc: Rc)
      modifies this, socket
      ensures (State(), rc) == Call(old(State()))
    {
      hide TakeCommand, TakeLength, TakeBody, HandOver;
      if inPacket.command == 0 {
        var stop := ReadCommand();
        if stop.Some? {
          return stop.value;
        }
      }
      if !inPacket.haveRemaining {
        var stop := ReadRemaining();
        if stop.Some? {
          return stop.value;
        }
      } else {
        NothingToRead(State());
      }
      var stop := ReadBody();
      if stop.Some? {
        return stop.value;
      }
      rc := Handle();
    }

    method LoopRead(maxPackets: nat) returns (rc: Rc)
      modifies this, socket
      ensures (State(), rc) == Loop(old(State()), maxPackets)
    {
      hide Call;
      rc := Handled;
      for i := 0 to maxPackets
        invariant rc == Handled && Loop(State(), maxPackets - i) == Loop(old(State()), maxPackets)
      {
        rc := PacketRead();
        if rc != Handled {
          return;
        }
      }
    }
  }

  lemma LengthGrows(r: Reader)
    ensures var (r1, stop) := TakeLengthByte(r);
      stop == None ==>
        |r.inPacket.remainingCount| < 4 && |r1.inPacket.remainingCount| == |r.inPacket.remainingCount| + 1
  {
    hide TakenByte;
  }

  lemma NothingToRead(r: Reader)
    requires r.inPacket.haveRemaining
    ensures TakeLength(r) == (r, None)
  {
  }

  // ---------- what the reader keeps ----------

  /** The bytes of the packet under way. */
  function Pending(r: Reader): seq<Byte> {
    if r.begun then Raw(r.inPacket) else []
  }

  function AllOf(r: Reader): seq<Byte> {
    r.seen + r.arrival.stream
  }

  ghost predicate Valid(r: Reader) {
    && Collected(r.inPacket) && (!r.begun ==> r.inPacket == NOTHING)
    && r.seen == r.done + Pending(r) && Parse(r.done) == (r.handled, [])
  }

  /** The packets handled are those of the one-shot parse of all bytes received, and what is kept is the
      rest of it; a packet may be complete and left to the next call. */
  ghost predicate Faithful(r: Reader) {
    if FullPacket(r.inPacket) then Parse(r.seen) == (r.handled + [FrameOf(r.inPacket)], [])
    else Parse(r.seen) == (r.handled, Pending(r))
  }

  lemma ValidFaithful(r: Reader)
    requires Valid(r)
    ensures Faithful(r)
  {
    ParseConcat(r.done, Pending(r));
    RawParses(r.inPacket);
    hide ParseOne, Collected, Raw;
    if FullPacket(r.inPacket) {
      ParseSingle(Pending(r));
    } else if r.begun {
      assert Parse(Pending(r)) == ([], Pending(r));
      assert r.handled + [] == r.handled;
    } else {
      assert r.seen == r.done;
    }
  }

  lemma Moved(seen: seq<Byte>, bytes: seq<Byte>, stream: seq<Byte>)
    ensures seen + (bytes + stream) == seen + bytes + stream
  {
  }

  lemma CommandKeeps(r: Reader)
    requires Valid(r) && !r.begun
    ensures var (r1, stop) := TakeCommand(r);
      && Valid(r1) && AllOf(r1) == AllOf(r) && r1.handled == r.handled
      && r1.given == r.given && r1.verdicts == r.verdicts
      && !FullPacket(r.inPacket) && !FullPacket(r1.inPacket)
      && (if stop.Some? then stop.value in {Again, ConnLost} && !r1.begun
          else r1.begun && !r1.inPacket.haveRemaining)
  {
    hide Parse, Collected, Raw, TakenByte;
    var byte := TakenByte(r.arrival).0;
    if byte.Some? {
      Moved(r.seen, [byte.value], TakenByte(r.arrival).2.stream);
      CommandRead(r.inPacket, byte.value);
      assert r.done + [] == r.done;
    }
  }

  lemma LengthByteKeeps(r: Reader)
    requires Valid(r) && r.begun && !r.inPacket.haveRemaining
    ensures var (r1, stop) := TakeLengthByte(r);
      && AllOf(r1) == AllOf(r) && r1.handled == r.handled && r1.begun && r1.inPacket.command == r.inPacket.command
      && (stop != Some(Protocol) ==> Valid(r1))
      && (stop.Some? ==> !r1.inPacket.haveRemaining && stop.value in {Again, ConnLost, Protocol})
      && (stop == Some(Protocol) ==> Faithful(r1) && ParseOne(Pending(r1)).Malformed?)
  {
    assert |r.inPacket.remainingCount| <= 4;
    hide Valid, Faithful, TakenByte, WithByte, Raw, ParseOne;
    var (byte, rc, a) := TakenByte(r.arrival);
    if byte.Some? {
      Moved(r.seen, [byte.value], a.stream);
      if |r.inPacket.remainingCount| == 4 {
        FifthByte(r, byte.value, a);
      } else {
        ByteKeeps(r, byte.value, a);
      }
    } else {
      LaterKeeps(r, a);
    }
  }

  lemma LaterKeeps(r: Reader, a: Arrival)
    requires Valid(r)
    ensures Valid(r.(arrival := a))
  {
    hide Parse, Collected, Raw;
  }

  lemma FifthByte(r: Reader, byte: Byte, a: Arrival)
    requires Valid(r) && r.begun && !r.inPacket.haveRemaining && |r.inPacket.remainingCount| == 4
    ensures var p := r.inPacket.(remainingCount := r.inPacket.remainingCount + [byte]);
      var r1 := r.(inPacket := p, seen := r.seen + [byte], arrival := a);
      Faithful(r1) && ParseOne(Pending(r1)).Malformed?
  {
    FiveBytes(r.inPacket, byte);
    hide ParseOne, Collected;
    var p := r.inPacket.(remainingCount := r.inPacket.remainingCount + [byte]);
    assert Raw(p) == Raw(r.inPacket) + [byte] by {
      NoPacketYet(r.inPacket);
    }
    hide Raw;
    assert r.seen + [byte] == r.done + Raw(p);
    ParseConcat(r.done, Raw(p));
    assert r.handled + [] == r.handled;
  }

  lemma NoPacketYet(p: InPacket)
    requires Collected(p) && !p.haveRemaining
    ensures p.packet == []
  {
  }

  lemma ByteKeeps(r: Reader, byte: Byte, a: Arrival)
    requires Valid(r) && r.begun && !r.inPacket.haveRemaining && |r.inPacket.remainingCount| < 4
    ensures Valid(r.(inPacket := WithByte(r.inPacket, byte), seen := r.seen + [byte], arrival := a))
    ensures WithByte(r.inPacket, byte).command == r.inPacket.command
  {
    ByteRead(r.inPacket, byte);
    var raw := Raw(r.inPacket);
    hide Parse, Collected, Raw;
    assert r.done + raw + [byte] == r.done + (raw + [byte]);
  }

  lemma {:induction false} LengthKeeps(r: Reader)
    requires Valid(r) && r.begun
    ensures var (r1, stop) := TakeLength(r);
      && AllOf(r1) == AllOf(r) && r1.handled == r.handled && r1.begun && r1.inPacket.command == r.inPacket.command
      && (stop == None ==> Valid(r1) && r1.inPacket.haveRemaining)
      && (stop.Some? ==> !r1.inPacket.haveRemaining && stop.value in {Again, ConnLost, Protocol})
      && (stop.Some? && stop.value != Protocol ==> Valid(r1))
      && (stop == Some(Protocol) ==> Faithful(r1) && ParseOne(Pending(r1)).Malformed?)
    decreases 5 - |r.inPacket.remainingCount|
  {
    hide Valid, Faithful, ParseOne, TakeLengthByte, Pending;
    if !r.inPacket.haveRemaining {
      LengthByteKeeps(r);
      LengthGrows(r);
      var (r1, stop) := TakeLengthByte(r);
      if stop == None {
        LengthKeeps(r1);
      }
    }
  }

  lemma DataKeeps(r: Reader, data: seq<Byte>, a: Arrival)
    requires Valid(r) && r.begun && r.inPacket.haveRemaining && |data| <= r.inPacket.toProcess
    requires r.arrival.stream == data + a.stream
    ensures Valid(WithData(r, data, a)) && AllOf(WithData(r, data, a)) == AllOf(r)
  {
    DataRead(r.inPacket, data);
    Moved(r.done, Raw(r.inPacket), data);
    Moved(r.seen, data, a.stream);
    hide Parse, Collected, Raw;
  }

  lemma {:induction false} BodyKeeps(r: Reader, count: nat)
    requires count > 0 && Valid(r) && r.begun && r.inPacket.haveRemaining
    ensures var (r1, stop) := TakeBody(r, count);
      && Valid(r1) && AllOf(r1) == AllOf(r) && r1.handled == r.handled && r1.begun
      && r1.inPacket.haveRemaining && r1.inPacket.command == r.inPacket.command
      && (stop == None ==> r1.inPacket.toProcess == 0)
      && (stop.Some? ==> stop.value in {Again, ConnLost} && r.inPacket.toProcess > 0)
      && (stop.Some? && r1.inPacket.toProcess == 0 ==>
            stop.value == Again && r1.arrival.calls == r.arrival.calls + count)
    decreases r.inPacket.toProcess
  {
    hide Valid, Taken;
    if r.inPacket.toProcess > 0 {
      var (received, a) := Taken(r.arrival, r.inPacket.toProcess);
      if received.Data? && received.bytes != [] {
        DataKeeps(r, received.bytes, a);
        if count > 1 {
          BodyKeeps(WithData(r, received.bytes, a), count - 1);
        }
      } else {
        LaterKeeps(r, a);
      }
    }
  }

  lemma HandedOverKeeps(r: Reader)
    requires Valid(r) && r.begun && FullPacket(r.inPacket)
    ensures Valid(HandedOver(r)) && AllOf(HandedOver(r)) == AllOf(r)
  {
    ValidFaithful(r);
    NothingCollected();
    hide Parse, Collected, Raw;
    assert r.seen + [] == r.seen;
  }

  lemma NothingCollected()
    ensures Collected(NOTHING)
  {
  }

  function VerdictOf(rc: Rc): Verdict {
    if rc.Handled? then Fine else if rc.Refused? then Refuses else Raises
  }

  /** The handler got a packet, the complete one if there was one before, and gave its verdict. */
  ghost predicate GaveTo(r: Reader, r1: Reader, rc: Rc) {
    && |r1.given| == |r.given| + 1 && r1.given[..|r.given|] == r.given
    && var h := r1.given[|r.given|];
      && h.verdict == VerdictOf(rc)
      && (FullPacket(r.inPacket) ==> h.frame == FrameOf(r.inPacket))
      && (if rc.Raised? then FullPacket(r1.inPacket) && FrameOf(r1.inPacket) == h.frame && r1.handled == r.handled
          else !r1.begun && r1.handled == r.handled + [h.frame])
  }

  predicate Reaches(rc: Rc) {
    rc.Handled? || rc.Refused? || rc.Raised?
  }

  lemma HandOverKeeps(r: Reader)
    requires Valid(r) && r.begun && FullPacket(r.inPacket)
    ensures var (r1, rc) := HandOver(r);
      && Valid(r1) && AllOf(r1) == AllOf(r) && Reaches(rc) && GaveTo(r, r1, rc)
      && r1.seen == r.seen && r1.arrival == r.arrival
  {
    HandedOverKeeps(r);
    hide Parse, Collected, Raw;
  }

  /** What a call promises, whatever the socket and the handler do: the handler gets at most one packet, and it
      is freed when the handler returns and stays when it raises; nothing received is lost; a protocol error
      means a length field of five bytes; a packet that is complete and still there was left by an
      exception or took a hundred receive calls, and the next call gives it to the handler. */
  ghost predicate Kept(r: Reader, r1: Reader, rc: Rc) {
    && AllOf(r1) == AllOf(r)
    && (rc != Protocol ==> Valid(r1))
    && (rc == Protocol ==> Faithful(r1) && ParseOne(Pending(r1)).Malformed?)
    && (if Reaches(rc) then GaveTo(r, r1, rc) else r1.handled == r.handled && r1.given == r.given)
    && (FullPacket(r1.inPacket) ==> rc == Raised || (rc == Again && r1.arrival.calls >= r.arrival.calls + 100))
    && (FullPacket(r.inPacket) ==> Reaches(rc) && r1.seen == r.seen)
  }

  /** A started packet is recognised as such by the next call, or nothing more comes. */
  predicate Resumable(r: Reader) {
    r.begun && r.inPacket.command == 0 ==> r.arrival.stream == [] && !FullPacket(r.inPacket)
  }

  lemma CallBodyKeeps(r: Reader)
    requires Valid(r) && r.begun && r.inPacket.haveRemaining
    ensures Kept(r, CallBody(r).0, CallBody(r).1)
  {
    hide TakeBody, Valid, Faithful, ParseOne, Pending, AllOf;
    BodyKeeps(r, 100);
    var (r1, stop) := TakeBody(r, 100);
    BodySame(r, 100);
    if stop == None {
      HandOverKeeps(r1);
      if FullPacket(r.inPacket) {
        NoBody(r);
      }
    }
  }

  /** Receiving does not touch the handler. */
  lemma {:induction false} BodySame(r: Reader, count: nat)
    requires count > 0
    ensures TakeBody(r, count).0.given == r.given && TakeBody(r, count).0.verdicts == r.verdicts
    decreases r.inPacket.toProcess
  {
    hide Taken;
    if r.inPacket.toProcess > 0 {
      var (received, a) := Taken(r.arrival, r.inPacket.toProcess);
      if received.Data? && received.bytes != [] && count > 1 {
        BodySame(WithData(r, received.bytes, a), count - 1);
      }
    }
  }

  lemma {:induction false} LengthSame(r: Reader)
    ensures TakeLength(r).0.given == r.given && TakeLength(r).0.verdicts == r.verdicts
    decreases 5 - |r.inPacket.remainingCount|
  {
    hide TakenByte, WithByte;
    if !r.inPacket.haveRemaining {
      LengthGrows(r);
      if TakeLengthByte(r).1 == None {
        LengthSame(TakeLengthByte(r).0);
      }
    }
  }

  lemma NoBody(r: Reader)
    requires r.inPacket.toProcess == 0
    ensures TakeBody(r, 100) == (r, None)
  {
  }

  lemma CallLengthKeeps(r: Reader)
    requires Valid(r) && r.begun
    ensures Kept(r, CallLength(r).0, CallLength(r).1)
  {
    hide TakeLength, CallBody, Valid, Faithful, ParseOne, Pending, AllOf;
    LengthKeeps(r);
    LengthCalls(r);
    if r.inPacket.haveRemaining {
      NothingToRead(r);
    }
    var (r1, stop) := TakeLength(r);
    LengthSame(r);
    if stop == None {
      CallBodyKeeps(r1);
    }
  }

  lemma {:induction false} LengthCalls(r: Reader)
    ensures TakeLength(r).0.arrival.calls >= r.arrival.calls
    decreases 5 - |r.inPacket.remainingCount|
  {
    hide TakenByte, WithByte;
    if !r.inPacket.haveRemaining {
      LengthGrows(r);
      if TakeLengthByte(r).1 == None {
        LengthCalls(TakeLengthByte(r).0);
      }
    }
  }

  lemma CallKeeps(r: Reader)
    requires Valid(r) && Resumable(r)
    ensures Kept(r, Call(r).0, Call(r).1)
  {
    hide TakeCommand, CallLength, Valid, Faithful, ParseOne, Pending, AllOf;
    if r.inPacket.command != 0 {
      Started(r);
      CallLengthKeeps(r);
    } else if r.begun {
      NothingMore(r);
    } else {
      CommandKeeps(r);
      var (r1, stop) := TakeCommand(r);
      CommandCalls(r);
      if stop == None {
        CallLengthKeeps(r1);
      }
    }
  }

  lemma Started(r: Reader)
    requires Valid(r) && r.inPacket.command != 0
    ensures r.begun
  {
  }

  lemma CommandCalls(r: Reader)
    ensures TakeCommand(r).0.arrival.calls >= r.arrival.calls
  {
    hide TakenByte;
  }

  lemma NothingMore(r: Reader)
    requires Valid(r) && r.arrival.stream == [] && !FullPacket(r.inPacket)
    ensures var (r1, stop) := TakeCommand(r);
      && stop.Some? && stop.value in {Again, ConnLost}
      && r1 == r.(arrival := r1.arrival) && AllOf(r1) == AllOf(r) && Valid(r1)
  {
    LaterKeeps(r, TakenByte(r.arrival).2);
    hide Valid, TakenByte;
  }

  // ---------- what the handler is told ----------

  /** The packets with which the handler is done. */
  function Finished(given: seq<Handing>): seq<Frame> {
    if given == [] then []
    else
      var h := given[|given| - 1];
      Finished(given[..|given| - 1]) + if h.verdict.Raises? then [] else [h.frame]
  }

  /** The packet that the handler gets or got behind its call number `i`, as far as it is complete. */
  function NextFrame(given: seq<Handing>, p: InPacket, i: nat): Option<Frame> {
    if i + 1 < |given| then Some(given[i + 1].frame) else if FullPacket(p) then Some(FrameOf(p)) else None
  }

  /** A packet for which the handler raised is given to it again before any other, or is still there. */
  ghost predicate GivenAgain(given: seq<Handing>, p: InPacket) {
    forall i :: 0 <= i < |given| && given[i].verdict.Raises? ==> NextFrame(given, p, i) == Some(given[i].frame)
  }

  /** The packets done with are those for which the handler returned. */
  ghost predicate Told(r: Reader) {
    r.handled == Finished(r.given) && GivenAgain(r.given, r.inPacket)
  }

  lemma FinishedMore(given: seq<Handing>, h: Handing)
    ensures Finished(given + [h]) == Finished(given) + if h.verdict.Raises? then [] else [h.frame]
  {
    assert (given + [h])[..|given|] == given;
  }

  lemma GivenMore(given: seq<Handing>, p: InPacket, h: Handing, q: InPacket)
    requires GivenAgain(given, p) && (FullPacket(p) ==> h.frame == FrameOf(p))
    requires h.verdict.Raises? ==> FullPacket(q) && FrameOf(q) == h.frame
    ensures GivenAgain(given + [h], q)
  {
    var more := given + [h];
    forall i | 0 <= i < |more| && more[i].verdict.Raises? ensures NextFrame(more, q, i) == Some(more[i].frame) {
      if i < |given| {
        assert more[i] == given[i];
        assert NextFrame(given, p, i) == Some(given[i].frame);
      }
    }
  }

  lemma ToldMore(r: Reader, r1: Reader, rc: Rc)
    requires Told(r) && Reaches(rc) && GaveTo(r, r1, rc)
    ensures Told(r1)
  {
    hide Finished, GivenAgain, FullPacket, FrameOf;
    var h := r1.given[|r.given|];
    assert r1.given == r.given + [h];
    FinishedMore(r.given, h);
    GivenMore(r.given, r.inPacket, h, r1.inPacket);
  }

  lemma CallTold(r: Reader)
    requires Valid(r) && Resumable(r) && Told(r)
    ensures Told(Call(r).0)
  {
    hide Valid, Resumable, Call, AllOf, Faithful, ParseOne, Pending;
    CallKeeps(r);
    var (r1, rc) := Call(r);
    if Reaches(rc) {
      ToldMore(r, r1, rc);
    }
  }

  lemma {:induction false} CallsTold(r: Reader, n: nat)
    requires Valid(r) && Harmless(AllOf(r)) && Told(r)
    ensures Told(Calls(r, n))
    decreases n
  {
    hide Valid, Harmless, Told, Call, AllOf, Resumable;
    if n > 0 {
      HarmlessResumes(r);
      CallKeeps(r);
      CallTold(r);
      if !Ends(Call(r).1) {
        CallsTold(Call(r).0, n - 1);
      }
    }
  }

  /** On a stream that is read as the parser does, no packet passes the handler by: one for which it raised is
      given to it again by the next call, before any other. */
  lemma RaisedGivenAgain(stream: seq<Byte>, script: seq<Event>, verdicts: seq<Verdict>, n: nat)
    requires Harmless(stream)
    ensures Told(Calls(Start(stream, script, verdicts), n))
  {
    hide Harmless, Valid, Calls;
    StartValid(stream, script, verdicts);
    CallsTold(Start(stream, script, verdicts), n);
  }

  // ---------- the streams it reads as the parser does ----------

  /** No packet with the command byte 0 has a byte behind its first. */
  ghost predicate Harmless(s: seq<Byte>) {
    && (forall i :: 0 <= i < |Parse(s).0| ==> Parse(s).0[i].command != 0)
    && (|Parse(s).1| > 1 ==> Parse(s).1[0] != 0)
  }

  lemma FirstOf(s: seq<Byte>)
    requires s != []
    ensures Parse(s).0 != [] ==> Parse(s).0[0].command == s[0] && |s| > 1
    ensures Parse(s).0 == [] ==> Parse(s).1 == s
  {
  }

  lemma HarmlessNext(d: seq<Byte>, t: seq<Byte>)
    requires Parse(d).1 == [] && Harmless(d + t)
    ensures |t| > 1 ==> t[0] != 0
  {
    ParseConcat(d, t);
    if |t| > 1 {
      FirstOf(t);
      hide Parse;
      var before, frames := Parse(d).0, Parse(t).0;
      if frames != [] {
        assert (before + frames)[|before|] == frames[0];
      }
    }
  }

  lemma HarmlessResumes(r: Reader)
    requires Valid(r) && Harmless(AllOf(r))
    ensures Resumable(r)
  {
    var p := Pending(r);
    hide Parse, Harmless;
    assert r.seen + r.arrival.stream == r.done + (p + r.arrival.stream);
    HarmlessNext(r.done, p + r.arrival.stream);
    assert r.begun ==> (p + r.arrival.stream)[0] == r.inPacket.command;
    if FullPacket(r.inPacket) {
      FullIsLong(r.inPacket);
    }
  }

  lemma FullIsLong(p: InPacket)
    requires Collected(p) && FullPacket(p)
    ensures |Raw(p)| > 1
  {
    hide Low, Pow128;
  }

  lemma {:induction false} CallsKeep(r: Reader, n: nat)
    requires Valid(r) && Harmless(AllOf(r))
    ensures Faithful(Calls(r, n)) && AllOf(Calls(r, n)) == AllOf(r)
    decreases n
  {
    hide Valid, Harmless, Faithful, Call, AllOf;
    if n == 0 {
      ValidFaithful(r);
    } else {
      HarmlessResumes(r);
      CallKeeps(r);
      var (r1, rc) := Call(r);
      if !Ends(rc) {
        CallsKeep(r1, n - 1);
      } else if rc != Protocol {
        ValidFaithful(r1);
      }
    }
  }

  /** On such a stream, however its bytes arrive, one run of the loop of `loop_read` adds to the packets
      handled, and they stay those of the one-shot parse. */
  lemma {:induction false} LoopKeeps(r: Reader, maxPackets: nat)
    requires Valid(r) && Harmless(AllOf(r))
    ensures var (r1, rc) := Loop(r, maxPackets);
      && Faithful(r1) && AllOf(r1) == AllOf(r) && r.handled <= r1.handled
      && (rc != Protocol ==> Valid(r1)) && (rc == Protocol ==> ParseOne(Parse(r1.seen).1).Malformed?)
    decreases maxPackets
  {
    hide Valid, Harmless, Call, AllOf, Parse, ParseOne, Pending;
    if maxPackets == 0 {
      ValidFaithful(r);
    } else {
      HarmlessResumes(r);
      CallKeeps(r);
      var (r1, rc) := Call(r);
      if rc == Handled {
        LoopKeeps(r1, maxPackets - 1);
      } else if rc != Protocol {
        ValidFaithful(r1);
      }
    }
  }

  // ---------- and no others ----------

  /** Receive calls that give whatever is asked for. */
  function Gives(m: nat, k: nat): (r: seq<Event>)
    ensures |r| == m && forall i :: 0 <= i < m ==> r[i] == Give(k)
  {
    seq(m, _ => Give(k))
  }

  lemma ByteGiven(a: Arrival, m: nat, k: nat, more: seq<Event>)
    requires a.stream != [] && k > 0 && a.script == Gives(m + 1, k) + more
    ensures TakenByte(a).0 == Some(a.stream[0]) && TakenByte(a).2.stream == a.stream[1..]
    ensures TakenByte(a).2.script == Gives(m, k) + more
  {
    assert a.script[0] == Give(k) && a.script[1..] == Gives(m, k) + more;
  }

  lemma {:induction false} FieldShape(s: seq<Byte>, budget: nat)
    requires ReadLength(s, budget).Got?
    ensures var n := ReadLength(s, budget).bytes;
      n <= budget && n <= |s| && Continuing(s[..n - 1]) && s[n - 1] < 128
    ensures ReadLength(s[..ReadLength(s, budget).bytes], budget) == ReadLength(s, budget)
  {
    if s[0] >= 128 {
      FieldShape(s[1..], budget - 1);
      var n := ReadLength(s, budget).bytes;
      assert s[..n][1..] == s[1..][..n - 1];
      assert s[..n - 1] == [s[0]] + s[1..][..n - 2];
    }
  }

  /** The rest of the length field comes byte by byte. */
  lemma {:induction false} LengthGiven(r: Reader, n: nat, m: nat, k: nat, more: seq<Event>)
    requires !r.inPacket.haveRemaining && 0 < n <= |r.arrival.stream| && |r.inPacket.remainingCount| + n <= 4
    requires Continuing(r.arrival.stream[..n - 1]) && r.arrival.stream[n - 1] < 128
    requires k > 0 && r.arrival.script == Gives(m + n, k) + more
    ensures var (r1, stop) := TakeLength(r);
      && stop == None && r1.arrival.stream == r.arrival.stream[n..] && r1.arrival.script == Gives(m, k) + more
      && r1.seen == r.seen + r.arrival.stream[..n]
      && r1.inPacket.remainingCount == r.inPacket.remainingCount + r.arrival.stream[..n]
      && r1.inPacket.packet == r.inPacket.packet && r1.verdicts == r.verdicts
    decreases n
  {
    var b := r.arrival.stream[0];
    ByteGiven(r.arrival, m + n - 1, k, more);
    hide TakenByte;
    var (r1, stop) := TakeLengthByte(r);
    if n == 1 {
      assert r.arrival.stream[..1] == [b];
      hide TakeLengthByte;
      NothingToRead(r1);
    } else {
      assert r.arrival.stream[..n - 1][0] == b;
      assert r.arrival.stream[..n - 1][1..] == r1.arrival.stream[..n - 2];
      assert r.arrival.stream[..n] == [b] + r1.arrival.stream[..n - 1];
      hide TakeLengthByte;
      LengthGiven(r1, n - 1, m, k, more);
      Moved(r.seen, [b], r1.arrival.stream[..n - 1]);
      Moved(r.inPacket.remainingCount, [b], r1.arrival.stream[..n - 1]);
    }
  }

  /** The body comes in one receive call, and none when it is empty. */
  lemma BodyGiven(r: Reader, k: nat, more: seq<Event>)
    requires r.inPacket.toProcess <= |r.arrival.stream| <= k
    requires r.arrival.script == Gives(if r.inPacket.toProcess == 0 then 0 else 1, k) + more
    ensures var (r1, stop) := TakeBody(r, 100); var n := r.inPacket.toProcess;
      && stop == None && r1.arrival.stream == r.arrival.stream[n..] && r1.arrival.script == more
      && r1.seen == r.seen + r.arrival.stream[..n] && r1.verdicts == r.verdicts
  {
    if r.inPacket.toProcess == 0 {
      assert r.arrival.script == more;
    } else {
      var a := r.arrival;
      assert a.script[0] == Give(k) && a.script[1..] == more;
      var r1 := WithData(r, a.stream[..r.inPacket.toProcess], Taken(a, r.inPacket.toProcess).1);
      assert TakeBody(r1, 99) == (r1, None);
    }
  }

  /** The receive calls for the first packet of a stream. */
  function Receives(s: seq<Byte>): nat {
    if s == [] then 0
    else match ReadLength(s[1..], 4)
      case Got(length, n) => 1 + n + if length == 0 then 0 else 1
      case _ => 0
  }

  /** A packet that comes in one go is handled in one call. */
  lemma PacketGiven(r: Reader, k: nat, more: seq<Event>)
    requires Valid(r) && !r.begun && r.verdicts == []
    requires ParseOne(r.arrival.stream).Complete? && |r.arrival.stream| <= k
    requires r.arrival.script == Gives(Receives(r.arrival.stream), k) + more
    ensures var (r1, rc) := Call(r);
      && rc == Handled && Valid(r1) && !r1.begun && r1.verdicts == [] && r1.arrival.script == more
      && r1.arrival.stream == r.arrival.stream[ParseOne(r.arrival.stream).bytes..]
  {
    hide Valid, Call, ParseOne, ReadLength, TakeBody, Gives, AllOf, Faithful, Receives, Pending;
    var s := r.arrival.stream;
    var length, n := ReceivesIs(s);
    CallKeeps(r);
    var r1 := HeaderGiven(r, length, n, k, more);
    Suffixes(s, n, length);
    BodyGiven(r1, k, more);
  }

  lemma ReceivesIs(s: seq<Byte>) returns (length: nat, n: nat)
    requires ParseOne(s).Complete?
    ensures ReadLength(s[1..], 4) == Got(length, n) && Receives(s) == 1 + n + if length == 0 then 0 else 1
    ensures ParseOne(s).bytes == 1 + n + length <= |s|
  {
    var Got(v, b) := ReadLength(s[1..], 4);
    length, n := v, b;
  }

  lemma HeaderGiven(r: Reader, length: nat, n: nat, k: nat, more: seq<Event>) returns (r2: Reader)
    requires Valid(r) && !r.begun && r.arrival.stream != [] && |r.arrival.stream| <= k
    requires ReadLength(r.arrival.stream[1..], 4) == Got(length, n)
    requires r.arrival.script == Gives(1 + n + if length == 0 then 0 else 1, k) + more
    ensures Call(r) == CallBody(r2) && r2.inPacket.toProcess == length
    ensures r2.arrival.stream == r.arrival.stream[1 + n..]
    ensures r2.arrival.script == Gives(if length == 0 then 0 else 1, k) + more && r2.verdicts == r.verdicts
  {
    var s, left := r.arrival.stream, if length == 0 then 0 else 1;
    hide Valid, ReadLength, Call, CallBody, TakeLength, Gives, Continuing;
    var r1 := CommandGiven(r, left + n, k, more);
    FieldShape(s[1..], 4);
    LengthKeeps(r1);
    LengthGiven(r1, n, left, k, more);
    r2 := TakeLength(r1).0;
    assert [] + s[1..][..n] == s[1..][..n];
    LengthIs(r2, s[1..][..n], length, n);
    Suffixes(s, n, 0);
  }

  lemma Suffixes(s: seq<Byte>, n: nat, length: nat)
    requires 1 + n + length <= |s|
    ensures s[1..][n..] == s[1 + n..] && s[1 + n..][length..] == s[1 + n + length..]
  {
  }

  lemma CommandGiven(r: Reader, m: nat, k: nat, more: seq<Event>) returns (r1: Reader)
    requires Valid(r) && !r.begun && r.arrival.stream != [] && k > 0 && r.arrival.script == Gives(m + 1, k) + more
    ensures Call(r) == CallLength(r1) && Valid(r1) && r1.begun
    ensures !r1.inPacket.haveRemaining && r1.inPacket.remainingCount == [] && r1.inPacket.packet == []
    ensures r1.arrival.stream == r.arrival.stream[1..] && r1.arrival.script == Gives(m, k) + more
    ensures r1.verdicts == r.verdicts
  {
    ByteGiven(r.arrival, m, k, more);
    CommandKeeps(r);
    r1 := TakeCommand(r).0;
    assert r.inPacket == NOTHING;
    hide TakenByte, CallLength, Collected, Parse, Raw;
  }

  lemma LengthIs(r: Reader, b: seq<Byte>, length: nat, n: nat)
    requires Valid(r) && r.inPacket.haveRemaining && r.inPacket.packet == [] && r.inPacket.remainingCount == b
    requires ReadLength(b, 4) == Got(length, n)
    ensures r.inPacket.toProcess == length
  {
    assert b + [] == b;
    hide ReadLength, Low, Pow128, Parse, Raw;
  }

  // ---------- up to the harmful packet ----------

  /** The stream behind its first `m` packets, and the receive calls for these. */
  function Behind(s: seq<Byte>, m: nat): seq<Byte>
    requires m <= |Parse(s).0|
  {
    if m == 0 then s else Behind(s[ParseOne(s).bytes..], m - 1)
  }

  function ScriptFor(s: seq<Byte>, m: nat, k: nat): seq<Event>
    requires m <= |Parse(s).0|
  {
    if m == 0 then [] else Gives(Receives(s), k) + ScriptFor(s[ParseOne(s).bytes..], m - 1, k)
  }

  lemma {:induction false} BehindParses(s: seq<Byte>, m: nat)
    requires m <= |Parse(s).0|
    ensures Parse(Behind(s, m)) == (Parse(s).0[m..], Parse(s).1)
    decreases m
  {
    hide ParseOne;
    if m > 0 {
      BehindParses(s[ParseOne(s).bytes..], m - 1);
      assert Parse(s).0[m..] == Parse(s[ParseOne(s).bytes..]).0[m - 1..];
    }
  }

  lemma {:induction false} PacketsGiven(r: Reader, m: nat, k: nat, more: seq<Event>) returns (r1: Reader)
    requires Valid(r) && !r.begun && r.verdicts == []
    requires m <= |Parse(r.arrival.stream).0| && |r.arrival.stream| <= k
    requires r.arrival.script == ScriptFor(r.arrival.stream, m, k) + more
    ensures Valid(r1) && !r1.begun && r1.arrival.script == more && r1.arrival.stream == Behind(r.arrival.stream, m)
    ensures forall j: nat :: Calls(r, m + j) == Calls(r1, j)
    decreases m
  {
    hide Valid, Call, ParseOne, Receives, Gives;
    if m == 0 {
      assert r.arrival.script == more;
      r1 := r;
    } else {
      var s := r.arrival.stream;
      var rest := ScriptFor(s[ParseOne(s).bytes..], m - 1, k) + more;
      Regroup(Gives(Receives(s), k), ScriptFor(s[ParseOne(s).bytes..], m - 1, k), more);
      PacketGiven(r, k, rest);
      var r0 := Call(r).0;
      r1 := PacketsGiven(r0, m - 1, k, more);
      forall j: nat ensures Calls(r, m + j) == Calls(r1, j) {
        assert Calls(r, m + j) == Calls(r0, m - 1 + j);
      }
    }
  }

  lemma Regroup(a: seq<Event>, b: seq<Event>, c: seq<Event>)
    ensures a + b + c == a + (b + c)
  {
  }

  /** The first byte of a packet is 0, and the next byte comes with another call. */
  const APART: seq<Event> := [Give(1), Block, Give(1)]

  /** The second byte of the packet is taken for its first. */
  lemma ZeroOverwritten(r: Reader)
    requires Valid(r) && !r.begun && |r.arrival.stream| > 1 && r.arrival.stream[0] == 0 && r.arrival.script == APART
    ensures var byte := r.arrival.stream[1];
      Calls(r, 2) == r.(inPacket := NOTHING.(command := byte), begun := true, seen := r.seen + [0] + [byte],
                        arrival := Arrival(r.arrival.stream[2..], [], r.arrival.calls + 4,
                                           Turn(None, 1, |r.arrival.stream| - 2)))
    ensures Call(r).1 == Again && Call(Call(r).0).1 == Again && Call(Call(r).0).0 == Calls(r, 2)
  {
    var s, a, byte := r.arrival.stream, r.arrival, r.arrival.stream[1];
    var m := |s|;
    assert TakenByte(a) == (Some(0), ConnLost,
                            Arrival(s[1..], [Block, Give(1)], a.calls + 1, Turn(Some(Give(1)), 1, m)));
    var r1 := r.(begun := true, seen := r.seen + [0],
                 arrival := Arrival(s[1..], [Give(1)], a.calls + 2, Turn(Some(Block), 1, m - 1)));
    ZeroFirst(r, r1);
    assert s[1..][1..] == s[2..];
    assert TakenByte(r1.arrival) == (Some(byte), ConnLost,
                                     Arrival(s[2..], [], a.calls + 3, Turn(Some(Give(1)), 1, m - 1)));
    var r2 := r1.(inPacket := NOTHING.(command := byte), seen := r1.seen + [byte],
                  arrival := Arrival(s[2..], [], a.calls + 4, Turn(None, 1, m - 2)));
    ZeroSecond(r1, r2);
    hide Call;
    assert Calls(r, 2) == Calls(r1, 1) == Calls(r2, 0);
  }

  lemma ZeroFirst(r: Reader, r1: Reader)
    requires r.inPacket == NOTHING
    requires var t := TakenByte(r.arrival);
      && t.0 == Some(0) && t.2.stream == r1.arrival.stream && t.2.script == [Block, Give(1)]
      && t.2.calls == r.arrival.calls + 1
    requires r1 == r.(begun := true, seen := r.seen + [0],
                      arrival := Arrival(r1.arrival.stream, [Give(1)], r.arrival.calls + 2,
                                         Turn(Some(Block), 1, |r1.arrival.stream|)))
    ensures Call(r) == (r1, Again)
  {
    assert [Block, Give(1)][1..] == [Give(1)];
  }

  lemma ZeroSecond(r1: Reader, r2: Reader)
    requires r1.inPacket == NOTHING && TakenByte(r1.arrival).0.Some?
    requires var a := TakenByte(r1.arrival).2;
      a.stream == r2.arrival.stream && a.script == [] && a.calls == r1.arrival.calls + 1
    requires var byte := TakenByte(r1.arrival).0.value;
      r2 == r1.(inPacket := NOTHING.(command := byte), begun := true, seen := r1.seen + [byte],
                arrival := Arrival(r2.arrival.stream, [], r1.arrival.calls + 2, Turn(None, 1, |r2.arrival.stream|)))
    ensures Call(r1) == (r2, Again)
  {
  }

  lemma Overwritten(r: Reader)
    requires Valid(r) && !r.begun && |r.arrival.stream| > 1 && r.arrival.stream[0] == 0 && r.arrival.script == APART
    ensures !Faithful(Calls(r, 2))
  {
    ZeroOverwritten(r);
    hide Calls, Call;
    var byte := r.arrival.stream[1];
    TwoBytes(byte);
    hide Parse, Collected;
    assert r.done + [] == r.done;
    assert r.done + [0] + [byte] == r.done + [0, byte];
    ParseConcat(r.done, [0, byte]);
  }

  lemma TwoBytes(byte: Byte)
    ensures |Parse([0, byte]).1| != 1
  {
    hide ReadLength;
  }

  lemma Harmful(s: seq<Byte>) returns (m: nat)
    requires !Harmless(s)
    ensures m <= |Parse(s).0| && |Behind(s, m)| > 1 && Behind(s, m)[0] == 0
  {
    hide Parse, Behind;
    if i :| 0 <= i < |Parse(s).0| && Parse(s).0[i].command == 0 {
      m := i;
      BehindParses(s, m);
      assert Parse(Behind(s, m)).0[0] == Parse(s).0[m];
    } else {
      m := |Parse(s).0|;
      BehindParses(s, m);
      assert Parse(s).0[m..] == [];
    }
    EmptyParse();
    FirstOf(Behind(s, m));
  }

  lemma EmptyParse()
    ensures Parse([]) == ([], [])
  {
  }

  /** Already with a handler that never fails. */
  lemma LosesSome(stream: seq<Byte>) returns (script: seq<Event>, n: nat)
    requires !Harmless(stream)
    ensures !Faithful(Calls(Start(stream, script, []), n))
  {
    hide Harmless, Faithful, Valid, Calls, Parse;
    var m := Harmful(stream);
    script := ScriptFor(stream, m, |stream|) + APART;
    StartValid(stream, script, []);
    var r := PacketsGiven(Start(stream, script, []), m, |stream|, APART);
    Overwritten(r);
    n := m + 2;
    assert Calls(Start(stream, script, []), m + 2) == Calls(r, 2);
  }

  lemma StartValid(stream: seq<Byte>, script: seq<Event>, verdicts: seq<Verdict>)
    ensures Valid(Start(stream, script, verdicts)) && AllOf(Start(stream, script, verdicts)) == stream
    ensures Told(Start(stream, script, verdicts))
  {
    EmptyParse();
  }

  /** Whatever the socket and the handler do and after any number of calls the packets done with are those of
      the one-shot parse, exactly for the streams in which no packet with the command byte 0 has a second
      byte. */
  lemma FaithfulExactly(stream: seq<Byte>)
    ensures (forall script: seq<Event>, verdicts: seq<Verdict>, n: nat ::
               Faithful(Calls(Start(stream, script, verdicts), n))) <==> Harmless(stream)
  {
    hide Harmless, Faithful, Valid, Calls, Told;
    if Harmless(stream) {
      forall script: seq<Event>, verdicts: seq<Verdict>, n: nat
        ensures Faithful(Calls(Start(stream, script, verdicts), n))
      {
        StartValid(stream, script, verdicts);
        CallsKeep(Start(stream, script, verdicts), n);
      }
    } else {
      var script, n := LosesSome(stream);
    }
  }

  /** A run of the reader in which a packet that has arrived is not handled. */
  method ZeroCommandLost() returns (reader: PacketReader)
    ensures reader.seen == [0, 0] && Parse(reader.seen) == ([Frame(0, [])], [])
    ensures reader.handled == [] && reader.begun && reader.socket.stream == []
  {
    hide Call, Calls, Parse, Valid;
    var socket := new Socket([0, 0], [Give(1), Block, Give(1)]);
    reader := new PacketReader(socket, []);
    StartValid([0, 0], APART, []);
    ZeroOverwritten(reader.State());
    ZeroParsed();
    var _ := reader.PacketRead();
    var _ := reader.PacketRead();
  }

  lemma ZeroParsed()
    ensures Parse([0, 0]) == ([Frame(0, [])], [])
  {
    assert ParseOne([0, 0]) == Complete(Frame(0, []), 2);
    ParseSingle([0, 0]);
  }
}
