/** The order of the socket callbacks, for callbacks that neither raise nor call back into the client. */
module SocketCallbacks {

  datatype Call = SocketOpen | RegisterWrite | UnregisterWrite | SocketClose

  /** What each callback may follow; nothing comes before the first one. */
  predicate MayFollow(before: seq<Call>, c: Call) {
    match c
    case SocketOpen => before == [] || before[|before| - 1] == SocketClose
    case RegisterWrite => before != [] && before[|before| - 1] in {SocketOpen, UnregisterWrite}
    case UnregisterWrite => before != [] && before[|before| - 1] == RegisterWrite
    case SocketClose => before != [] && before[|before| - 1] in {SocketOpen, UnregisterWrite}
  }

  ghost predicate Ordered(trace: seq<Call>) {
    forall i :: 0 <= i < |trace| ==> MayFollow(trace[..i], trace[i])
  }

  /** One connection: opened, any number of registrations each undone, and closed. */
  function Connection(registrations: nat): (r: seq<Call>)
    ensures |r| >= 1
  {
    Opening(registrations) + [SocketClose]
  }

  function Opening(registrations: nat): (r: seq<Call>)
    ensures |r| >= 1 && r[|r| - 1] in {SocketOpen, UnregisterWrite}
  {
    if registrations == 0 then [SocketOpen] else Opening(registrations - 1) + [RegisterWrite, UnregisterWrite]
  }

  function Connections(registrations: seq<nat>): seq<Call> {
    if registrations == [] then []
    else Connections(registrations[..|registrations| - 1]) + Connection(registrations[|registrations| - 1])
  }

  /** A run of the documented pattern, cut anywhere: whole connections, then perhaps an open one,
      perhaps registered. */
  ghost predicate Documented(trace: seq<Call>) {
    exists whole: seq<nat>, open: bool, registrations: nat, registered: bool ::
      trace == Pattern(whole, open, registrations, registered)
  }

  function Pattern(whole: seq<nat>, open: bool, registrations: nat, registered: bool): seq<Call> {
    Connections(whole)
    + (if open then Opening(registrations) else [])
    + (if open && registered then [RegisterWrite] else [])
  }

  lemma OrderedBefore(trace: seq<Call>)
    requires Ordered(trace) && trace != []
    ensures Ordered(trace[..|trace| - 1]) && MayFollow(trace[..|trace| - 1], trace[|trace| - 1])
  {
    var before := trace[..|trace| - 1];
    forall i | 0 <= i < |before| ensures MayFollow(before[..i], before[i]) {
      assert before[..i] == trace[..i];
    }
  }

  lemma ConnectionsMore(whole: seq<nat>, n: nat)
    ensures Connections(whole + [n]) == Connections(whole) + (Opening(n) + [SocketClose])
  {
    assert (whole + [n])[..|whole|] == whole;
  }

  /** The last callback of a pattern tells its state. */
  lemma PatternEnd(whole: seq<nat>, open: bool, n: nat, registered: bool)
    ensures var p := Pattern(whole, open, n, registered);
      && (open ==> p != [] && p[|p| - 1] in if registered then {RegisterWrite} else {SocketOpen, UnregisterWrite})
      && (!open ==> p == [] || p[|p| - 1] == SocketClose)
  {
    hide Opening;
  }

  lemma Opened(whole: seq<nat>, n: nat, registered: bool)
    ensures Pattern(whole, true, 0, false) == Pattern(whole, false, n, registered) + [SocketOpen]
  {
    hide Connections;
    assert Opening(0) == [SocketOpen];
  }

  lemma Registers(whole: seq<nat>, n: nat)
    ensures Pattern(whole, true, n, true) == Pattern(whole, true, n, false) + [RegisterWrite]
  {
    hide Connections, Opening;
  }

  lemma Unregisters(whole: seq<nat>, n: nat)
    ensures Pattern(whole, true, n + 1, false) == Pattern(whole, true, n, true) + [UnregisterWrite]
  {
    hide Connections;
    assert Opening(n + 1) == Opening(n) + [RegisterWrite, UnregisterWrite];
    hide Opening;
  }

  lemma Closes(whole: seq<nat>, n: nat)
    ensures Pattern(whole + [n], false, 0, false) == Pattern(whole, true, n, false) + [SocketClose]
  {
    ConnectionsMore(whole, n);
    hide Connections, Opening;
  }

  /** A pattern goes on as a pattern. */
  lemma PatternStep(whole: seq<nat>, open: bool, n: nat, registered: bool, c: Call)
      returns (whole': seq<nat>, open': bool, n': nat, registered': bool)
    requires MayFollow(Pattern(whole, open, n, registered), c) && (registered ==> open)
    ensures Pattern(whole', open', n', registered') == Pattern(whole, open, n, registered) + [c]
    ensures registered' ==> open'
  {
    PatternEnd(whole, open, n, registered);
    hide Pattern;
    whole', open', n', registered' := whole, true, n, false;
    match c
    case SocketOpen =>
      n' := 0;
      Opened(whole, n, registered);
    case RegisterWrite =>
      registered' := true;
      Registers(whole, n);
    case UnregisterWrite =>
      n' := n + 1;
      Unregisters(whole, n);
    case SocketClose =>
      whole', open', n' := whole + [n], false, 0;
      Closes(whole, n);
  }

  /** A trace in which each callback follows one it may follow is a run of the documented pattern. */
  lemma {:induction false} OrderedIsDocumented(trace: seq<Call>)
      returns (whole: seq<nat>, open: bool, registrations: nat, registered: bool)
    requires Ordered(trace)
    ensures trace == Pattern(whole, open, registrations, registered) && (registered ==> open)
    decreases |trace|
  {
    hide Ordered, MayFollow;
    if trace == [] {
      whole, open, registrations, registered := [], false, 0, false;
    } else {
      OrderedBefore(trace);
      whole, open, registrations, registered := OrderedIsDocumented(trace[..|trace| - 1]);
      hide Pattern;
      whole, open, registrations, registered :=
        PatternStep(whole, open, registrations, registered, trace[|trace| - 1]);
    }
  }

  /** How writing ends when packets are left: the socket would block, fails or cannot be used, takes
      nothing, which drops the packet at the head, or the packet at the head is a DISCONNECT and is
      sent, which closes the connection. */
  datatype Ending = Blocked | Failed | Unusable | TookNothing | Disconnected

  /** The packets left of `n` when `written` are sent to the end before that. */
  function Left(n: nat, written: nat, ending: Ending): nat {
    if written >= n then 0
    else if ending in {TookNothing, Disconnected} then n - written - 1
    else n - written
  }

  /** Writing closes the socket. */
  predicate Closing(n: nat, written: nat, ending: Ending) {
    written < n && ending in {Failed, Disconnected}
  }

  /** The callbacks that tell of a change of the socket or of its registration, and of nothing else. */
  function Told(sock: bool, registered: bool, nowSock: bool, nowRegistered: bool): seq<Call> {
    if sock && !nowSock then (if registered then [UnregisterWrite] else []) + [SocketClose]
    else if registered == nowRegistered then []
    else if nowRegistered then [RegisterWrite]
    else [UnregisterWrite]
  }

  /** The part of the client that calls the callbacks. */
  class Callbacks {
    var sock: bool
    var registeredWrite: bool
    /** How many packets wait to be written. */
    var outPacket: nat
    var trace: seq<Call>

    constructor ()
      ensures Valid() && !sock && outPacket == 0 && trace == []
    {
      sock, registeredWrite, outPacket, trace := false, false, 0, [];
    }

    /** The last callback tells whether there is a socket and whether it is registered. */
    ghost predicate Valid()
      reads this
    {
      && Ordered(trace)
      && (sock <==> trace != [] && trace[|trace| - 1] != SocketClose)
      && (registeredWrite <==> trace != [] && trace[|trace| - 1] == RegisterWrite)
    }

    method CallSocketOpen()
      requires Valid() && !sock && !registeredWrite
      modifies this`sock, this`trace
      ensures Valid() && trace == old(trace) + [SocketOpen] && sock && !registeredWrite
    {
      Snoc(trace, SocketOpen);
      sock := true;
      trace := trace + [SocketOpen];
    }

    method CallRegisterWrite()
      requires Valid()
      modifies this`registeredWrite, this`trace
      ensures Valid() && registeredWrite == sock
      ensures trace == old(trace) + if sock && !old(registeredWrite) then [RegisterWrite] else []
    {
      if !sock || registeredWrite {
        return;
      }
      Snoc(trace, RegisterWrite);
      registeredWrite := true;
      trace := trace + [RegisterWrite];
    }

    method CallUnregisterWrite()
      requires Valid()
      modifies this`registeredWrite, this`trace
      ensures Valid() && !registeredWrite
      ensures trace == old(trace) + if old(registeredWrite) then [UnregisterWrite] else []
    {
      if !sock || !registeredWrite {
        return;
      }
      Snoc(trace, UnregisterWrite);
      registeredWrite := false;
      trace := trace + [UnregisterWrite];
    }

    method SockClose()
      requires Valid()
      modifies this`sock, this`registeredWrite, this`trace
      ensures Valid() && !sock && !registeredWrite
      ensures trace == old(trace) + Told(old(sock), old(registeredWrite), false, false)
    {
      if !sock {
        return;
      }
      CallUnregisterWrite();
      Snoc(trace, SocketClose);
      sock := false;
      trace := trace + [SocketClose];
    }

    /** `created` tells whether the new socket could be made. What was not written is dropped, and
        CONNECT is the first packet to wait. */
    method Reconnect(created: bool, direct: bool, written: nat, ending: Ending)
      requires Valid()
      modifies this
      ensures Valid()
      ensures !created ==> !sock && outPacket == 0
      ensures created ==> sock == !(direct && Closing(1, written, ending))
      ensures created ==> outPacket == if direct then Left(1, written, ending) else 1
      ensures registeredWrite == (sock && outPacket > 0)
      ensures trace == old(trace) + Told(old(sock), old(registeredWrite), false, false)
                       + if created then [SocketOpen] + Told(true, false, sock, registeredWrite) else []
    {
      hide Ordered, Told, Left, Closing;
      SockClose();
      outPacket := 0;
      if !created {
        return;
      }
      registeredWrite := false;
      CallSocketOpen();
      PacketQueue(direct, written, ending);
    }

    /** Queue a packet; `direct` tells whether it is written at once, which it is outside of callbacks when
        no event loop takes registrations. */
    method PacketQueue(direct: bool, written: nat, ending: Ending)
      requires Valid()
      modifies this
      ensures Valid()
      ensures outPacket == if direct && old(sock) then Left(old(outPacket) + 1, written, ending) else old(outPacket) + 1
      ensures sock == (old(sock) && !(direct && Closing(old(outPacket) + 1, written, ending)))
      ensures registeredWrite == (sock && outPacket > 0)
      ensures trace == old(trace) + Told(old(sock), old(registeredWrite), sock, registeredWrite)
    {
      outPacket := outPacket + 1;
      if direct {
        LoopWrite(written, ending);
        return;
      }
      CallRegisterWrite();
    }

    /** Send `written` packets and then stop in the given way, unless none is left. */
    method PacketWrite(written: nat, ending: Ending) returns (lost: bool)
      requires Valid() && sock
      modifies this
      ensures Valid() && outPacket == Left(old(outPacket), written, ending)
      ensures lost == (written < old(outPacket) && ending == Failed)
      ensures sock == !(written < old(outPacket) && ending == Disconnected)
      ensures trace == old(trace) + Told(true, old(registeredWrite), sock, registeredWrite)
      ensures sock ==> registeredWrite == (old(registeredWrite) || (written < old(outPacket) && ending == Blocked))
    {
      lost := false;
      if written >= outPacket {
        outPacket := 0;
        return;
      }
      outPacket := outPacket - written;
      match ending
      case Blocked => CallRegisterWrite();
      case Failed => lost := true;
      case Unusable =>
      case TookNothing => outPacket := outPacket - 1;
      case Disconnected =>
        outPacket := outPacket - 1;
        SockClose();
    }

    /** Afterwards the registration says whether there is more to write. */
    method LoopWrite(written: nat, ending: Ending)
      requires Valid()
      modifies this
      ensures Valid()
      ensures sock == (old(sock) && !Closing(old(outPacket), written, ending))
      ensures outPacket == if old(sock) then Left(old(outPacket), written, ending) else old(outPacket)
      ensures registeredWrite == (sock && outPacket > 0)
      ensures trace == old(trace) + Told(old(sock), old(registeredWrite), sock, registeredWrite)
    {
      hide Ordered;
      if !sock {
        return;
      }
      var lost := PacketWrite(written, ending);
      if lost {
        SockClose();
      }
      if outPacket > 0 {
        CallRegisterWrite();
      } else {
        CallUnregisterWrite();
      }
    }
  }

  lemma Snoc(trace: seq<Call>, c: Call)
    requires Ordered(trace) && MayFollow(trace, c)
    ensures Ordered(trace + [c])
  {
    var more := trace + [c];
    forall i | 0 <= i < |more| ensures MayFollow(more[..i], more[i]) {
      if i < |trace| {
        assert more[..i] == trace[..i];
      } else {
        assert more[..i] == trace;
      }
    }
  }

  /** `Reading` is a receive call that has to wait until the socket can be written. */
  datatype Step =
    | Reconnecting(created: bool, direct: bool, written: nat, ending: Ending)
    | Queueing(direct: bool, written: nat, ending: Ending)
    | Writing(written: nat, ending: Ending)
    | Reading
    | Closed

  /** Every run calls the callbacks in the documented order, and never leaves a packet waiting for an open
      socket that is not registered for writing. */
  method RunAll(steps: seq<Step>) returns (c: Callbacks)
    ensures fresh(c) && c.Valid() && Documented(c.trace)
    ensures c.sock && c.outPacket > 0 ==> c.registeredWrite
  {
    c := new Callbacks();
    for i := 0 to |steps|
      invariant fresh(c) && c.Valid()
      invariant c.sock && c.outPacket > 0 ==> c.registeredWrite
    {
      match steps[i]
      case Reconnecting(created, direct, written, ending) => c.Reconnect(created, direct, written, ending);
      case Queueing(direct, written, ending) => c.PacketQueue(direct, written, ending);
      case Writing(written, ending) => c.LoopWrite(written, ending);
      case Reading => c.CallRegisterWrite();
      case Closed => c.SockClose();
    }
    ghost var whole, open, registrations, registered := OrderedIsDocumented(c.trace);
  }
}
