/** Writer and reader on the two ends of a connection. */
module Pipe {
  import opened Bytes
  import opened VarInt
  import opened PacketStream
  import opened PacketWriting

  /** The queued packets are printed control packets of a permitted length. */
  ghost predicate Printed(history: seq<OutPacket>, fs: seq<Frame>) {
    && |history| == |fs|
    && forall i :: 0 <= i < |fs| ==> |fs[i].body| <= MAX_VARINT && history[i].packet == Print(fs[i])
  }

  lemma {:induction false} StreamParses(history: seq<OutPacket>, fs: seq<Frame>)
    requires Printed(history, fs)
    ensures Parse(AllBytes(history)) == (fs, [])
    decreases |fs|
  {
    if fs == [] {
      ParseNothing();
    } else {
      hide Print, ParseOne, Parse;
      var n := |fs| - 1;
      StreamParses(history[..n], fs[..n]);
      PrintedParses(fs[n], []);
      assert Print(fs[n]) + [] == Print(fs[n]);
      ParseSingle(Print(fs[n]));
      ParseConcat(AllBytes(history[..n]), Print(fs[n]));
      assert fs == fs[..n] + [fs[n]];
    }
  }

  /** No proper beginning of a packet is a packet or malformed. */
  lemma PartOfPacket(f: Frame, n: nat)
    requires |f.body| <= MAX_VARINT && n < |Print(f)|
    ensures Parse(Print(f)[..n]) == ([], Print(f)[..n])
  {
    var part, rest := Print(f)[..n], Print(f)[n..];
    PrintedParses(f, []);
    assert Print(f) + [] == Print(f) == part + rest;
    hide Print, ParseOne;
    if !ParseOne(part).Partial? {
      ParseOneMore(part, rest);
    }
  }

  /** What the other side handles of the bytes sent so far are exactly the packets sent to their
      last byte, in the order in which they were queued; the rest waits for its continuation. */
  lemma HandledAreFinished(s: Sending, fs: seq<Frame>)
    requires Accounted(s) && Printed(s.history, fs)
    ensures |s.finished| <= |fs|
    ensures Parse(s.wire).0 == fs[..|s.finished|]
    ensures Parse(s.wire).1 == if s.queue == [] then [] else s.queue[0].packet[..s.queue[0].pos]
  {
    FinishedIsSent(s);
    var n := |s.finished|;
    assert s.finished == s.history[..n];
    StreamParses(s.finished, fs[..n]);
    if s.queue == [] {
      assert AllBytes(s.finished) + [] == AllBytes(s.finished);
    } else {
      HeadStarted(s);
      HeadIs(s);
      var head := s.queue[0];
      PartOfPacket(fs[n], head.pos);
      hide Parse, AllBytes, Print;
      ParseConcat(AllBytes(s.finished), head.packet[..head.pos]);
      assert fs[..n] + [] == fs[..n];
    }
  }

  lemma HeadIs(s: Sending)
    requires Accounted(s) && s.queue != []
    ensures |s.finished| < |s.history| && s.history[|s.finished|].packet == s.queue[0].packet
  {
    assert WholeQueue(s.queue)[0] == Whole(s.queue[0]);
    assert (s.finished + WholeQueue(s.queue))[|s.finished|] == WholeQueue(s.queue)[0];
  }

  lemma {:induction false} ParsePrefix(s: seq<Byte>, t: seq<Byte>)
    requires s <= t
    ensures Parse(s).0 <= Parse(t).0
    decreases |s|
  {
    var rest := t[|s|..];
    assert t == s + rest;
    hide ParseOne;
    match ParseOne(s)
    case Complete(f, n) =>
      ParseOneMore(s, rest);
      ParsePrefix(s[n..], t[n..]);
    case _ =>
  }

  /** However much has arrived, the packets handled are the first of those queued. */
  lemma HandledInOrder(s: Sending, fs: seq<Frame>, arrived: seq<Byte>)
    requires Accounted(s) && Printed(s.history, fs) && arrived <= s.wire
    ensures Parse(arrived).0 <= fs
  {
    hide Accounted, Printed, Parse;
    HandledAreFinished(s, fs);
    ParsePrefix(arrived, s.wire);
  }
}
