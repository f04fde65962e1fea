/** What a WebSocket connection has on the wire: masked frames of data, repeated until the socket has
    taken all of one, and the answers to control frames, given to the same socket once. */
module WsSending {
  import opened Bytes
  import opened Options
  import opened WsFrames

  /** The sending side: all bytes taken by the socket, what it has not yet taken of the frame under
      way, that frame with its data and mask key, the complete frames and the data in them. */
  datatype Sending = Sending(
    wire: seq<Byte>,
    sendbuffer: seq<Byte>,
    requestedSize: nat,
    pending: seq<Byte>,
    current: seq<Byte>,
    key: seq<Byte>,
    done: seq<Byte>,
    accepted: seq<Byte>)

  /** The buffer is the end of the frame under way. */
  ghost predicate Underway(s: Sending) {
    && (s.sendbuffer == [] ==> s.current == [])
    && (s.sendbuffer != [] ==>
         && |s.key| == 4 && s.requestedSize == |s.pending| <= MAX_PAYLOAD
         && CreateFrame(OPCODE_BINARY, s.pending, Some(s.key)) == Some(s.current)
         && |s.sendbuffer| <= |s.current| && s.sendbuffer == s.current[|s.current| - |s.sendbuffer|..])
  }

  /** The socket has complete frames with just the data accepted, and a part of the one under way. */
  ghost predicate Whole(s: Sending) {
    && s.wire + s.sendbuffer == s.done + s.current
    && Frames(s.done).1 == [] && DataOf(Frames(s.done).0) == s.accepted
  }

  /** The other side finds exactly the data accepted, in order. */
  lemma ReceiverSees(s: Sending)
    requires Underway(s) && Whole(s)
    ensures DataOf(Frames(s.wire).0) == s.accepted
    ensures s.sendbuffer == [] ==> Frames(s.wire).1 == []
  {
    hide ParseFrame, CreateFrame, Frames, DataOf;
    if s.sendbuffer == [] {
      assert s.wire == s.done;
    } else {
      var n := |s.current| - |s.sendbuffer|;
      var part := s.current[..n];
      assert s.wire == s.done + part by {
        assert s.wire == (s.done + s.current)[..|s.wire|];
      }
      CreatedParses(OPCODE_BINARY, s.pending, Some(s.key), []);
      assert s.current + [] == s.current;
      PartialFrame(s.current, n);
      FramesConcat(s.done, part);
      assert Frames(part) == ([], part);
      assert Frames(s.done).0 + [] == Frames(s.done).0;
    }
  }

  lemma PartialFrame(frame: seq<Byte>, n: nat)
    requires ParseFrame(frame).Some? && ParseFrame(frame).value.1 == |frame| && n < |frame|
    ensures ParseFrame(frame[..n]) == None && Frames(frame[..n]) == ([], frame[..n])
  {
    assert frame == frame[..n] + frame[n..];
    if ParseFrame(frame[..n]).Some? {
      FrameMore(frame[..n], frame[n..]);
    }
  }

  // ---------- the frame of a write ----------

  function DataFrame(data: seq<Byte>, key: seq<Byte>): seq<Byte>
    requires |key| == 4 && |data| <= MAX_PAYLOAD
  {
    CreateFrame(OPCODE_BINARY, data, Some(key)).value
  }

  lemma FrameFits(data: seq<Byte>, key: seq<Byte>)
    requires |key| == 4
    ensures CreateFrame(OPCODE_BINARY, data, Some(key)) == None <==> |data| > MAX_PAYLOAD
    ensures |data| <= MAX_PAYLOAD ==> CreateFrame(OPCODE_BINARY, data, Some(key)).value != []
  {
  }

  /** A new frame is begun. */
  function Begin(s: Sending, data: seq<Byte>, key: seq<Byte>): Sending
    requires |key| == 4 && |data| <= MAX_PAYLOAD
  {
    var frame := CreateFrame(OPCODE_BINARY, data, Some(key)).value;
    s.(sendbuffer := frame, requestedSize := |data|, pending := data, current := frame, key := key)
  }

  lemma BeginKeeps(s: Sending, data: seq<Byte>, key: seq<Byte>)
    requires Underway(s) && s.sendbuffer == [] && |key| == 4 && |data| <= MAX_PAYLOAD
    ensures Underway(Begin(s, data, key)) && (Whole(s) ==> Whole(Begin(s, data, key)))
  {
    hide CreateFrame, Frames, DataOf;
    FrameFits(data, key);
    var frame := CreateFrame(OPCODE_BINARY, data, Some(key)).value;
    assert frame[0..] == frame;
    Trim(s.wire, s.done);
  }

  lemma Trim(a: seq<Byte>, b: seq<Byte>)
    ensures a + [] == a && (a + [] == b + [] ==> a == b)
  {
    assert b + [] == b;
  }

  /** The socket takes `n` bytes of the buffer. */
  function Take(s: Sending, n: nat): Sending
    requires n <= |s.sendbuffer|
  {
    var t := s.(wire := s.wire + s.sendbuffer[..n], sendbuffer := s.sendbuffer[n..]);
    if t.sendbuffer != [] then t
    else t.(done := s.done + s.current, current := [], accepted := s.accepted + s.pending)
  }

  lemma TakeKeeps(s: Sending, n: nat)
    requires Underway(s) && s.sendbuffer != [] && n <= |s.sendbuffer|
    ensures Underway(Take(s, n)) && (Whole(s) ==> Whole(Take(s, n)))
    ensures Take(s, n).wire + Take(s, n).sendbuffer == s.wire + s.sendbuffer
  {
    hide CreateFrame, Frames, DataOf;
    assert s.wire + s.sendbuffer[..n] + s.sendbuffer[n..] == s.wire + s.sendbuffer;
    if n < |s.sendbuffer| {
      var i := |s.current| - |s.sendbuffer|;
      assert s.current[i..][n..] == s.current[i + n..];
    } else if Whole(s) {
      Complete(s.done, s.pending, s.key);
      Trim(s.wire + s.sendbuffer[..n], s.done + s.current);
    }
  }

  lemma Complete(done: seq<Byte>, data: seq<Byte>, key: seq<Byte>)
    requires Frames(done).1 == [] && |key| == 4 && |data| <= MAX_PAYLOAD
    ensures var frame := CreateFrame(OPCODE_BINARY, data, Some(key)).value;
      Frames(done + frame).1 == [] && DataOf(Frames(done + frame).0) == DataOf(Frames(done).0) + data
  {
    var frame := CreateFrame(OPCODE_BINARY, data, Some(key)).value;
    CreatedParses(OPCODE_BINARY, data, Some(key), []);
    assert frame + [] == frame;
    hide CreateFrame, ParseFrame, Masked;
    FramesConcat(done, frame);
    FrameSingle(frame);
    DataOfMore(Frames(done).0, ParseFrame(frame).value.0);
  }

  // ---------- the answer to a control frame ----------

  /** A pong for a ping, a close for a close, with the same payload and without a mask. */
  function Answer(opcode: nat, payload: seq<Byte>): Option<seq<Byte>>
    requires opcode == OPCODE_CONNCLOSE || opcode == OPCODE_PING
  {
    CreateFrame(if opcode == OPCODE_PING then OPCODE_PONG else opcode, payload, None)
  }

  ghost predicate IsAnswer(f: seq<Byte>) {
    exists opcode: nat, payload: seq<Byte> ::
      (opcode == OPCODE_CONNCLOSE || opcode == OPCODE_PING) && Answer(opcode, payload) == Some(f)
  }

  /** None of the answer is taken, or all of it while no frame is cut. */
  predicate KeepsFrames(s: Sending, f: seq<Byte>, n: nat) {
    n == 0 || (n == |f| && (s.sendbuffer == [] || |s.sendbuffer| == |s.current|))
  }

  lemma AnswerParses(f: seq<Byte>)
    requires IsAnswer(f)
    ensures ParseFrame(f).Some? && ParseFrame(f).value.1 == |f| && !CarriesData(ParseFrame(f).value.0.opcode)
    ensures |f| >= 2 && (f[0] == 138 || f[0] == 136)
  {
    var opcode: nat, payload: seq<Byte> :|
      (opcode == OPCODE_CONNCLOSE || opcode == OPCODE_PING) && Answer(opcode, payload) == Some(f);
    CreatedParses(if opcode == OPCODE_PING then OPCODE_PONG else opcode, payload, None, []);
    assert f + [] == f;
  }

  /** The wire with `n` bytes of the answer. */
  function WithAnswer(s: Sending, f: seq<Byte>, n: nat): Sending
    requires n <= |f|
  {
    s.(wire := s.wire + f[..n], done := if n == 0 then s.done else s.done + f)
  }

  lemma AnswerKeeps(s: Sending, f: seq<Byte>, n: nat)
    requires Underway(s) && Whole(s) && IsAnswer(f) && n <= |f| && KeepsFrames(s, f, n)
    ensures Underway(WithAnswer(s, f, n)) && Whole(WithAnswer(s, f, n))
  {
    hide CreateFrame, Frames, DataOf, ParseFrame, IsAnswer;
    if n == 0 {
      Trim(s.wire, s.done);
    } else {
      AnswerParses(f);
      FrameSingle(f);
      FramesConcat(s.done, f);
      DataOfMore(Frames(s.done).0, ParseFrame(f).value.0);
      Trim(DataOf(Frames(s.done).0), []);
      assert s.wire == s.done by {
        Uncut(s);
      }
      assert f[..n] == f;
      assert s.done + f + s.sendbuffer == s.done + f + s.current by {
        Uncut(s);
      }
    }
  }

  lemma Uncut(s: Sending)
    requires Underway(s) && Whole(s) && (s.sendbuffer == [] || |s.sendbuffer| == |s.current|)
    ensures s.wire == s.done && s.sendbuffer == s.current
  {
    hide CreateFrame, Frames, DataOf;
    assert s.current[0..] == s.current;
    var all := s.wire + s.sendbuffer;
    assert s.wire == all[..|s.wire|] && s.done == (s.done + s.current)[..|s.done|];
  }
}
