/** The WebSocket wrapper: a byte stream over frames in both directions of one socket, however the
    frames are cut by the socket below and by the reader above. */
module WebSocketWrapper {
  import opened Bytes
  import opened Numbers
  import opened Options
  import opened WsFrames
  import opened WsSending
  import opened WsSplice
  import In = PacketReading
  import D = PacketDelivery
  import Out = PacketWriting

  datatype Result = Data(bytes: seq<Byte>) | WouldBlock | Refused

  datatype SendResult = Sent(n: nat) | Raised

  datatype Status = Read | Blocking | Aborted

  /** The socket gave less than was asked for, and did not fail. */
  predicate GivesLess(t: In.Turn) {
    !D.Lost(t) && In.Given(t) < t.asked
  }

  /** Reading is interrupted exactly by a receive call that gives less than it was asked for. */
  ghost predicate Fetched(a: In.Arrival, b: In.Arrival, status: Status) {
    && D.Met(a, b)
    && (status != Read ==>
          && b.calls > a.calls
          && (status == Aborted <==> D.Lost(b.last)) && (status == Blocking <==> GivesLess(b.last)))
  }

  lemma FetchedMore(a: In.Arrival, b: In.Arrival, c: In.Arrival, status: Status)
    requires D.Met(a, b) && Fetched(b, c, status)
    ensures Fetched(a, c, status)
  {
    D.MetTransitive(a, b, c);
    hide D.Met, D.Lost, GivesLess;
  }

  lemma FetchedAfter(a: In.Arrival, b: In.Arrival, c: In.Arrival, status: Status)
    requires Fetched(a, b, Read) && Fetched(b, c, status)
    ensures Fetched(a, c, status)
  {
    FetchedMore(a, b, c, status);
  }

  lemma GivenLess(t: In.Turn)
    requires t.asked > 0
    ensures D.Waits(t) ==> GivesLess(t)
    ensures In.Given(t) > 0 ==> (GivesLess(t) <==> In.Given(t) < t.asked)
  {
  }

  lemma FetchedNone(a: In.Arrival)
    ensures Fetched(a, a, Read)
  {
    D.MetNone(a);
  }

  /** The part of the frame under way that was already returned. */
  function Part(b: seq<Byte>, n: nat): seq<Byte> {
    match ReadHeader(b)
    case None => []
    case Some(h) => if CarriesData(h.opcode) && n <= |b| - h.size then Masked(b[h.size..], h.key)[..n] else []
  }

  function AnswersWith(opcode: nat, payload: seq<Byte>): seq<seq<Byte>> {
    if (opcode == OPCODE_CONNCLOSE || opcode == OPCODE_PING) && Answer(opcode, payload).Some?
    then [Answer(opcode, payload).value]
    else []
  }

  /** What the client holds of a payload whose first `cut` bytes came with earlier calls: it unmasks no
      more than the rest. */
  function Unmasked(f: Frame, cut: nat): seq<Byte> {
    if cut <= |f.raw| && |Payload(f)| == |f.raw| then f.raw[..cut] + Payload(f)[cut..] else []
  }

  function AnswerTo(f: Frame, cut: nat): seq<seq<Byte>> {
    AnswersWith(f.opcode, Unmasked(f, cut))
  }

  function Answers(fs: seq<Frame>, cuts: seq<nat>): seq<seq<Byte>>
    requires |fs| == |cuts|
  {
    if fs == [] then []
    else
      var n := |fs| - 1;
      Answers(fs[..n], cuts[..n]) + AnswerTo(fs[n], cuts[n])
  }

  predicate WellFormed(f: Frame, cut: nat) {
    cut <= |f.raw| && (f.key.Some? ==> |f.key.value| == 4)
  }

  ghost predicate CutsFit(fs: seq<Frame>, cuts: seq<nat>) {
    |fs| == |cuts| && forall i :: 0 <= i < |fs| ==> WellFormed(fs[i], cuts[i])
  }

  /** The receiving side: buffers, answers given to the socket and, as seen from outside, all bytes
      received, those of complete frames, these frames with the head that the last call for each started
      from, and all bytes returned. */
  datatype Receiving = Receiving(
    readbuffer: seq<Byte>,
    payloadHead: nat,
    answers: seq<seq<Byte>>,
    seen: seq<Byte>,
    done: seq<Byte>,
    frames: seq<Frame>,
    cuts: seq<nat>,
    returned: seq<Byte>)

  /** What was returned is the data of the complete frames and of the begun one up to its head; the
      buffer holds the begun frame from its start and never a byte beyond it. */
  ghost predicate Deframed(r: Receiving) {
    && r.seen == r.done + r.readbuffer && Frames(r.done) == (r.frames, [])
    && ParseFrame(r.readbuffer) == None
    && HeadOk(r.readbuffer, r.payloadHead)
    && r.returned == DataOf(r.frames) + Part(r.readbuffer, r.payloadHead)
    && CutsFit(r.frames, r.cuts) && r.answers == Answers(r.frames, r.cuts)
  }

  /** What a call adds to: the bytes received and those on the way, the bytes given to the socket, the data
      returned, and whether the connection is there. */
  datatype Books = Books(seen: seq<Byte>, coming: seq<Byte>, wire: seq<Byte>, returned: seq<Byte>, connected: bool)

  /** No byte is lost or repeated, what is returned is added to what was returned before, and an empty result
      ends the connection. */
  predicate Booked(a: Books, b: Books, r: Result) {
    && a.seen <= b.seen && a.wire <= b.wire && b.seen + b.coming == a.seen + a.coming
    && b.returned == a.returned + (if r.Data? then r.bytes else [])
    && b.connected == (a.connected && r != Data([]))
  }

  lemma BookedFrom(a: Books, b: Books, c: Books, r: Result)
    requires a.seen <= b.seen && b.seen + b.coming == a.seen + a.coming
    requires b.wire == a.wire && b.returned == a.returned && b.connected == a.connected && Booked(b, c, r)
    ensures Booked(a, c, r)
  {
  }

  predicate HeadOk(b: seq<Byte>, n: nat) {
    match ReadHeader(b)
    case None => n == 0
    case Some(h) => n <= |b| - h.size
  }

  /** The frames found are those of the one-shot parse of all bytes received. */
  lemma DeframedAgrees(r: Receiving)
    requires Deframed(r)
    ensures Frames(r.seen) == (r.frames, r.readbuffer)
  {
    FramesConcat(r.done, r.readbuffer);
    assert r.frames + [] == r.frames;
  }

  /** More bytes of the begun frame. */
  lemma BufferGrows(r: Receiving, c: seq<Byte>)
    requires Deframed(r) && ParseFrame(r.readbuffer + c) == None
    ensures Deframed(r.(readbuffer := r.readbuffer + c, seen := r.seen + c))
  {
    hide Frames, DataOf, Answers, CutsFit;
    PartKept(r.readbuffer, c, r.payloadHead);
    hide ParseFrame, Part, HeadOk;
    assert r.done + (r.readbuffer + c) == r.done + r.readbuffer + c;
  }

  lemma PartKept(b: seq<Byte>, c: seq<Byte>, n: nat)
    requires HeadOk(b, n)
    ensures HeadOk(b + c, n) && Part(b + c, n) == Part(b, n)
  {
    if ReadHeader(b).Some? {
      HeaderMore(b, c);
      hide ReadHeader;
      var h := ReadHeader(b).value;
      assert (b + c)[h.size..][..n] == b[h.size..][..n];
      MaskedPrefix(b[h.size..], h.key, n);
      MaskedPrefix((b + c)[h.size..], h.key, n);
      hide Masked;
    } else {
      assert n == 0;
      if ReadHeader(b + c).Some? {
        var h := ReadHeader(b + c).value;
        assert Masked((b + c)[h.size..], h.key)[..0] == [];
      }
    }
  }

  /** The chunk that a call returns. */
  function Chunk(b: seq<Byte>, h: Header, from: nat, to: nat): seq<Byte>
    requires (h.key.Some? ==> |h.key.value| == 4) && from <= to && h.size + to <= |b|
  {
    Masked(b[h.size..h.size + to], h.key)[from..to]
  }

  /** The head moves on inside a frame that stays incomplete. */
  lemma HeadMoves(r: Receiving, h: Header, to: nat)
    requires Deframed(r) && ReadHeader(r.readbuffer) == Some(h) && r.payloadHead <= to <= |r.readbuffer| - h.size
    ensures Deframed(r.(payloadHead := to,
      returned := r.returned + if CarriesData(h.opcode) then Chunk(r.readbuffer, h, r.payloadHead, to) else []))
  {
    hide Frames, DataOf, Answers, CutsFit, ParseFrame;
    var b, n := r.readbuffer, r.payloadHead;
    ChunkExtends(b, h, n, to);
    hide Part, Chunk, Masked, ReadHeader;
    if CarriesData(h.opcode) {
      Joined(DataOf(r.frames), Part(b, n), Chunk(b, h, n, to));
    }
  }

  lemma PartIs(b: seq<Byte>, h: Header, n: nat)
    requires ReadHeader(b) == Some(h) && n <= |b| - h.size
    ensures Part(b, n) == if CarriesData(h.opcode) then Masked(b[h.size..], h.key)[..n] else []
  {
    hide ReadHeader, Masked;
  }

  lemma ChunkIs(b: seq<Byte>, h: Header, n: nat, to: nat)
    requires (h.key.Some? ==> |h.key.value| == 4) && n <= to && h.size + to <= |b|
    ensures Chunk(b, h, n, to) == Masked(b[h.size..], h.key)[..to][n..to]
  {
    assert b[h.size..h.size + to] == b[h.size..][..to];
    MaskedPrefix(b[h.size..], h.key, to);
    hide Masked;
  }

  lemma ChunkExtends(b: seq<Byte>, h: Header, n: nat, to: nat)
    requires ReadHeader(b) == Some(h) && n <= to <= |b| - h.size
    ensures CarriesData(h.opcode) ==> Part(b, to) == Part(b, n) + Chunk(b, h, n, to)
    ensures !CarriesData(h.opcode) ==> Part(b, to) == Part(b, n) == []
  {
    hide ReadHeader, Part, Chunk, Masked;
    PartIs(b, h, n);
    PartIs(b, h, to);
    ChunkIs(b, h, n, to);
    Stretch(Masked(b[h.size..], h.key), n, to);
  }

  lemma Stretch(all: seq<Byte>, n: nat, to: nat)
    requires n <= to <= |all|
    ensures all[..to] == all[..n] + all[..to][n..to]
  {
  }

  function FrameIn(h: Header, b: seq<Byte>): Frame
    requires h.size <= |b|
  {
    Frame(h.opcode, h.key, b[h.size..])
  }

  lemma FrameOpcode(h: Header, b: seq<Byte>)
    requires h.size <= |b|
    ensures FrameIn(h, b).opcode == h.opcode
  {
  }

  lemma FrameIs(h: Header, b: seq<Byte>)
    requires ReadHeader(b) == Some(h) && |b| == h.size + h.length
    ensures ParseFrame(b) == Some((FrameIn(h, b), |b|))
  {
    hide ReadHeader;
    assert b[h.size..h.size + h.length] == b[h.size..];
  }

  lemma FrameParses(h: Header, b: seq<Byte>)
    requires ReadHeader(b) == Some(h) && |b| == h.size + h.length
    ensures ParseFrame(b) == Some((FrameIn(h, b), |b|)) && Frames(b) == ([FrameIn(h, b)], [])
  {
    hide ReadHeader, Frames, ParseFrame;
    FrameIs(h, b);
    FrameSingle(b);
  }

  /** The frame is complete: the rest of its data is returned and the buffers start afresh. */
  lemma FrameEnds(r: Receiving, h: Header, b: seq<Byte>, answers: seq<seq<Byte>>)
    requires Deframed(r) && r.readbuffer <= b && ReadHeader(b) == Some(h) && |b| == h.size + h.length
    requires r.payloadHead <= h.length
    requires answers == r.answers + AnswerTo(FrameIn(h, b), r.payloadHead)
    ensures Deframed(Receiving([], 0, answers, r.done + b, r.done + b, r.frames + [FrameIn(h, b)],
        r.cuts + [r.payloadHead],
        r.returned + if CarriesData(h.opcode) then Chunk(b, h, r.payloadHead, h.length) else []))
  {
    var f := FrameIn(h, b);
    FrameParses(h, b);
    FramesConcat(r.done, b);
    DataOfMore(r.frames, f);
    HeaderKey(h, b, r.payloadHead);
    AnswersMore(r.frames, r.cuts, f, r.payloadHead);
    WholePart(r, h, b);
    NothingYet();
    var part, chunk := Part(r.readbuffer, r.payloadHead), Chunk(b, h, r.payloadHead, h.length);
    hide Frames, DataOf, Answers, CutsFit, ParseFrame, Part, Chunk, Payload, ReadHeader, HeadOk, AnswerTo;
    Joined(DataOf(r.frames), part, chunk);
    Joined(r.done + b, [], []);
    Joined(DataOf(r.frames + [f]), [], []);
  }

  lemma HeaderKey(h: Header, b: seq<Byte>, cut: nat)
    requires ReadHeader(b) == Some(h) && |b| == h.size + h.length && cut <= h.length
    ensures WellFormed(FrameIn(h, b), cut)
  {
  }

  lemma Joined<T>(a: seq<T>, b: seq<T>, c: seq<T>)
    ensures a + b + c == a + (b + c) && a + [] == a
  {
  }

  lemma NothingYet()
    ensures ParseFrame([]) == None && HeadOk([], 0) && Part([], 0) == []
  {
  }

  lemma WholePart(r: Receiving, h: Header, b: seq<Byte>)
    requires Deframed(r) && r.readbuffer <= b && ReadHeader(b) == Some(h) && |b| == h.size + h.length
    requires r.payloadHead <= h.length
    ensures CarriesData(h.opcode) ==>
      Payload(FrameIn(h, b)) == Part(r.readbuffer, r.payloadHead) + Chunk(b, h, r.payloadHead, h.length)
    ensures !CarriesData(h.opcode) ==> Part(r.readbuffer, r.payloadHead) == []
  {
    hide Deframed, ReadHeader, Part, Chunk, Payload, HeadOk, FrameIn;
    var c := b[|r.readbuffer|..];
    assert b == r.readbuffer + c;
    HeadIsOk(r);
    PartKept(r.readbuffer, c, r.payloadHead);
    ChunkExtends(b, h, r.payloadHead, h.length);
    WholeFrame(h, b);
    FrameOpcode(h, b);
  }

  lemma HeadIsOk(r: Receiving)
    requires Deframed(r)
    ensures HeadOk(r.readbuffer, r.payloadHead)
  {
  }

  lemma WholeFrame(h: Header, b: seq<Byte>)
    requires ReadHeader(b) == Some(h) && |b| == h.size + h.length
    ensures CarriesData(h.opcode) ==> Part(b, h.length) == Payload(FrameIn(h, b))
  {
    hide ReadHeader, Masked;
    assert Masked(b[h.size..], h.key)[..h.length] == Masked(b[h.size..], h.key);
  }

  lemma AnswersMore(fs: seq<Frame>, cuts: seq<nat>, f: Frame, cut: nat)
    requires CutsFit(fs, cuts)
    ensures Answers(fs + [f], cuts + [cut]) == Answers(fs, cuts) + AnswerTo(f, cut)
    ensures WellFormed(f, cut) ==> CutsFit(fs + [f], cuts + [cut])
  {
    assert (fs + [f])[..|fs|] == fs && (cuts + [cut])[..|fs|] == cuts;
  }

  /** `after` holds what is behind `before`, and that was newly seen. */
  predicate Grown(before: seq<Byte>, after: seq<Byte>, seenBefore: seq<Byte>, seenAfter: seq<Byte>) {
    before <= after && seenAfter == seenBefore + after[|before|..]
  }

  lemma GrownBy(before: seq<Byte>, after: seq<Byte>, seenBefore: seq<Byte>, seenAfter: seq<Byte>)
      returns (grown: seq<Byte>)
    requires Grown(before, after, seenBefore, seenAfter)
    ensures after == before + grown && seenAfter == seenBefore + grown
  {
    grown := after[|before|..];
  }

  lemma OnlyLonger(before: seq<Byte>, after: seq<Byte>, seenBefore: seq<Byte>, seenAfter: seq<Byte>)
    requires Grown(before, after, seenBefore, seenAfter)
    ensures before <= after && seenBefore <= seenAfter
  {
  }

  lemma GrownTwice(a: seq<Byte>, b: seq<Byte>, c: seq<Byte>, sa: seq<Byte>, sb: seq<Byte>, sc: seq<Byte>)
    requires Grown(a, b, sa, sb) && Grown(b, c, sb, sc)
    ensures Grown(a, c, sa, sc)
  {
    assert c[|a|..] == b[|a|..] + c[|b|..];
    assert sa + b[|a|..] + c[|b|..] == sa + (b[|a|..] + c[|b|..]);
  }

  // ---------- when an answer is the proper one ----------

  /** The answer that the frame asks for. */
  function Proper(fs: seq<Frame>): seq<seq<Byte>> {
    if fs == [] then []
    else
      var n := |fs| - 1;
      Proper(fs[..n]) + AnswersWith(fs[n].opcode, Payload(fs[n]))
  }

  /** The mask leaves the first `cut` bytes of the frame as they are. */
  predicate Transparent(f: Frame, cut: nat)
    requires WellFormed(f, cut)
  {
    f.key.Some? ==> forall j :: 0 <= j < cut ==> f.key.value[j % 4] == 0
  }

  predicate Answerable(f: Frame) {
    (f.opcode == OPCODE_CONNCLOSE || f.opcode == OPCODE_PING) && |f.raw| <= MAX_PAYLOAD
  }

  lemma {:induction false} XorBitsSame(a: nat, b: nat, bits: nat)
    requires a < Power2(bits) && b < Power2(bits)
    ensures XorBits(a, b, bits) == a <==> b == 0
  {
    if bits > 0 {
      XorBitsSame(a / 2, b / 2, bits - 1);
      hide XorBits, Power2;
      var y, low := XorBits(a / 2, b / 2, bits - 1), (a % 2 + b % 2) % 2;
      XorUnfold(a, b, bits);
      Halves(low, y);
      assert low == a % 2 <==> b % 2 == 0;
    }
  }

  lemma XorSame(a: Byte, b: Byte)
    ensures Xor(a, b) == a <==> b == 0
  {
    Eight();
    XorBitsSame(a, b, 8);
    hide XorBits;
  }

  lemma PrefixDecides(a: seq<Byte>, b: seq<Byte>, n: nat)
    requires |a| == |b| && n <= |a|
    ensures |a[..n] + b[n..]| == |a|
    ensures a[..n] + b[n..] == b <==> forall j :: 0 <= j < n ==> a[j] == b[j]
  {
    var c := a[..n] + b[n..];
    if c == b {
      forall j | 0 <= j < n ensures a[j] == b[j] {
        assert c[j] == a[j];
      }
    }
  }

  lemma MaskAt(f: Frame, j: nat)
    requires f.key.Some? && |f.key.value| == 4 && j < |f.raw|
    ensures |Payload(f)| == |f.raw|
    ensures f.raw[j] == Payload(f)[j] <==> f.key.value[j % 4] == 0
  {
    hide Xor;
    XorSame(f.raw[j], f.key.value[j % 4]);
  }

  lemma UnmaskedExactly(f: Frame, cut: nat)
    requires WellFormed(f, cut)
    ensures |Unmasked(f, cut)| == |f.raw| == |Payload(f)|
    ensures Unmasked(f, cut) == Payload(f) <==> Transparent(f, cut)
  {
    PrefixDecides(f.raw, Payload(f), cut);
    if f.key.Some? {
      hide Masked, Payload;
      forall j | 0 <= j < cut ensures f.raw[j] == Payload(f)[j] <==> f.key.value[j % 4] == 0 {
        MaskAt(f, j);
      }
    }
  }

  lemma AnswersDiffer(opcode: nat, p: seq<Byte>, q: seq<Byte>)
    requires |p| == |q|
    ensures |AnswersWith(opcode, p)| == |AnswersWith(opcode, q)|
    ensures AnswersWith(opcode, p) == AnswersWith(opcode, q)
       <==> p == q || !(opcode == OPCODE_CONNCLOSE || opcode == OPCODE_PING) || |p| > MAX_PAYLOAD
  {
    if opcode == OPCODE_CONNCLOSE || opcode == OPCODE_PING {
      if |p| <= MAX_PAYLOAD {
        AnswerCarries(opcode, p);
        AnswerCarries(opcode, q);
        hide Answer;
      } else {
        assert Answer(opcode, p) == Answer(opcode, q) == None;
      }
    }
  }

  lemma AnswerCarries(opcode: nat, p: seq<Byte>)
    requires (opcode == OPCODE_CONNCLOSE || opcode == OPCODE_PING) && |p| <= MAX_PAYLOAD
    ensures Answer(opcode, p).Some? && ParseFrame(Answer(opcode, p).value + []).Some?
    ensures Payload(ParseFrame(Answer(opcode, p).value + []).value.0) == p
  {
    CreatedParses(if opcode == OPCODE_PING then OPCODE_PONG else opcode, p, None, []);
    hide ParseFrame, Masked, Payload;
  }

  lemma Last<T>(a: seq<T>, b: seq<T>, c: seq<T>, d: seq<T>)
    requires |b| == |d|
    ensures a + b == c + d <==> a == c && b == d
  {
    if a + b == c + d {
      assert |a| == |c|;
      assert a == (a + b)[..|a|] && c == (c + d)[..|c|];
      assert b == (a + b)[|a|..] && d == (c + d)[|c|..];
    }
  }

  /** No mask has changed a byte that came before the last call for its frame. */
  ghost predicate AllTransparent(fs: seq<Frame>, cuts: seq<nat>)
    requires CutsFit(fs, cuts)
  {
    forall i :: 0 <= i < |fs| && Answerable(fs[i]) ==> Transparent(fs[i], cuts[i])
  }

  lemma AllButLast(fs: seq<Frame>, cuts: seq<nat>)
    requires CutsFit(fs, cuts) && fs != []
    ensures var n := |fs| - 1;
      && CutsFit(fs[..n], cuts[..n]) && WellFormed(fs[n], cuts[n])
      && (AllTransparent(fs, cuts)
          <==> AllTransparent(fs[..n], cuts[..n]) && (Answerable(fs[n]) ==> Transparent(fs[n], cuts[n])))
  {
    hide Transparent, Answerable;
    var n := |fs| - 1;
    assert forall i :: 0 <= i < n ==> fs[i] == fs[..n][i] && cuts[i] == cuts[..n][i];
    hide WellFormed;
  }

  lemma OneProper(f: Frame, cut: nat)
    requires WellFormed(f, cut)
    ensures |AnswerTo(f, cut)| == |AnswersWith(f.opcode, Payload(f))|
    ensures AnswerTo(f, cut) == AnswersWith(f.opcode, Payload(f)) <==> (Answerable(f) ==> Transparent(f, cut))
  {
    hide AnswersWith, Unmasked, Payload, Transparent;
    UnmaskedExactly(f, cut);
    AnswersDiffer(f.opcode, Unmasked(f, cut), Payload(f));
  }

  lemma {:induction false} ProperExactly(fs: seq<Frame>, cuts: seq<nat>)
    requires CutsFit(fs, cuts)
    ensures |Answers(fs, cuts)| == |Proper(fs)|
    ensures Answers(fs, cuts) == Proper(fs) <==> AllTransparent(fs, cuts)
  {
    hide AnswersWith, Payload, Unmasked, Transparent, AnswerTo, WellFormed, Answerable;
    if fs != [] {
      var n := |fs| - 1;
      assert |cuts| == n + 1;
      hide CutsFit;
      AllButLast(fs, cuts);
      ProperExactly(fs[..n], cuts[..n]);
      OneProper(fs[n], cuts[n]);
      Last(Answers(fs[..n], cuts[..n]), AnswerTo(fs[n], cuts[n]), Proper(fs[..n]),
           AnswersWith(fs[n].opcode, Payload(fs[n])));
      hide AllTransparent;
    }
  }

  /** The answers given are those that the frames ask for exactly when no mask has changed a byte that came
      before the last call for its frame. */
  lemma AnswersExactly(r: Receiving)
    requires Deframed(r)
    ensures r.answers == Proper(r.frames) <==> AllTransparent(r.frames, r.cuts)
  {
    ProperExactly(r.frames, r.cuts);
  }

  /** A masked ping of two bytes of which the first came with an earlier call. */
  lemma MaskedPing()
    ensures var f := Frame(OPCODE_PING, Some([1, 0, 0, 0]), [1, 7]);
      Answers([f], [1]) != Proper([f])
  {
    var f := Frame(OPCODE_PING, Some([1, 0, 0, 0]), [1, 7]);
    hide Answers, Proper;
    assert Answerable(f) && f.key.value[0 % 4] == 1;
    assert !Transparent(f, 1);
    hide Answerable, Transparent;
    var fs, cuts: seq<nat> := [f], [1];
    assert fs[0] == f && cuts[0] == 1;
    ProperExactly(fs, cuts);
  }

  // ---------- what one call reads and returns ----------

  /** How far into the payload a call for `length` bytes gets. */
  function Reach(h: Header, head: nat, length: nat): nat {
    Min(h.length, head + length)
  }

  /** The next chunk is there: just that much of a data frame is returned, and the frame is complete exactly
      when the chunk reaches its end. A control frame and an empty one yield nothing. */
  ghost predicate Yields(before: Receiving, h: Header, buffer: seq<Byte>, after: Receiving, to: nat, r: Result)
    requires h.size <= |buffer|
  {
    && (if to == h.length then
          after.frames == before.frames + [FrameIn(h, buffer)] && after.readbuffer == [] && after.payloadHead == 0
        else
          after.frames == before.frames && after.readbuffer == buffer && after.payloadHead == to)
    && (if CarriesData(h.opcode) && h.length > 0 then r.Data? && |r.bytes| == to - before.payloadHead
        else if CarriesData(h.opcode) || to < h.length then r == WouldBlock
        else r in {WouldBlock, Refused, Data([])})
  }

  /** It is not: the last receive call gave less than it was asked for, or the connection is lost. */
  ghost predicate Stuck(before: Receiving, a: In.Arrival, buffer: seq<Byte>, after: Receiving, b: In.Arrival, r: Result)
  {
    && after.frames == before.frames && after.readbuffer == buffer && after.payloadHead == before.payloadHead
    && after.answers == before.answers
    && b.calls > a.calls && (r == Data([]) || r == WouldBlock)
    && (r == Data([]) <==> D.Lost(b.last)) && (r == WouldBlock <==> GivesLess(b.last))
  }

  predicate ChunkThere(buffer: seq<Byte>, head: nat, length: nat) {
    match ReadHeader(buffer)
    case None => false
    case Some(h) => |buffer| >= h.size + Reach(h, head, length)
  }

  ghost predicate Reads(before: Receiving, a: In.Arrival, after: Receiving, b: In.Arrival, length: nat, r: Result) {
    && D.Met(a, b) && before.seen <= after.seen
    && var buffer := before.readbuffer + after.seen[|before.seen|..];
      if ChunkThere(buffer, before.payloadHead, length) then
        var h := ReadHeader(buffer).value;
        Yields(before, h, buffer, after, Reach(h, before.payloadHead, length), r)
      else Stuck(before, a, buffer, after, b, r)
  }

  /** One send call for what is left of a frame: the socket decides how much of it goes out. */
  ghost predicate Writes(left: seq<Byte>, wire: seq<Byte>, script: seq<Out.Event>, wireAfter: seq<Byte>,
        more: seq<Out.Event>, leftAfter: seq<Byte>, r: SendResult)
  {
    var a := Out.Answer(script, |left|); var n := Accepts(a);
    && n <= |left| && wireAfter == wire + left[..n] && leftAfter == left[n..] && more == Out.Later(script)
    && (r.Raised? <==> !a.Taken?)
  }

  /** The bytes that a send call takes. */
  function Accepts(a: Out.Sent): nat {
    if a.Taken? then a.n else 0
  }

  /** How a call ends that gives an answer to the socket. */
  function ResultOf(a: Out.Sent): Result {
    match a
    case Error => Data([])
    case NotUsable => Refused
    case _ => WouldBlock
  }

  predicate AsksForAnswer(opcode: nat) {
    opcode == OPCODE_CONNCLOSE || opcode == OPCODE_PING
  }

  /** A ping or close that is complete is answered, and the socket decides how the call ends; one that is too
      long for an answer is refused. */
  ghost predicate Replied(before: Receiving, after: Receiving, script: seq<Out.Event>, r: Result) {
    |after.frames| > |before.frames| && AsksForAnswer(after.frames[|before.frames|].opcode) ==>
      if after.answers == before.answers then r == Refused
      else |after.answers| > |before.answers| && r == ResultOf(Out.Answer(script, |after.answers[|before.answers|]|))
  }

  /** Any other frame is complete without an answer. */
  ghost predicate Unanswered(before: Receiving, after: Receiving, r: Result) {
    |after.frames| > |before.frames| && !AsksForAnswer(after.frames[|before.frames|].opcode) ==>
      after.answers == before.answers && r != Refused && r != Data([])
  }

  /** What a call does to the sending side, and how it ends for that. */
  ghost predicate Responds(before: Receiving, s: Sending, intact: bool, script: seq<Out.Event>, after: Receiving,
        t: Sending, nowIntact: bool, more: seq<Out.Event>, r: Result)
  {
    && Answering(before, s, intact, script, after, t, nowIntact, more)
    && Replied(before, after, script, r) && Unanswered(before, after, r)
  }

  /** How a call ends that found the chunk `result`: its end is `end` unless it has data to return. */
  predicate Returns(h: Header, result: seq<Byte>, end: Result, r: Result) {
    && r == (if end == WouldBlock && CarriesData(h.opcode) && h.length > 0 then Data(result) else end)
    && (end != WouldBlock ==> !CarriesData(h.opcode) && end in {Refused, Data([])})
    && (h.length == 0 <==> result == [])
  }

  lemma ChunkBooked(a: Books, b: Books, h: Header, result: seq<Byte>, end: Result, r: Result)
    requires b.seen == a.seen && b.coming == a.coming && a.wire <= b.wire && Returns(h, result, end, r)
    requires b.returned == a.returned + if CarriesData(h.opcode) then result else []
    requires b.connected == (a.connected && end != Data([]))
    ensures Booked(a, b, r)
  {
  }

  lemma ChunkYields(before: Receiving, h: Header, buffer: seq<Byte>, after: Receiving, to: nat, result: seq<Byte>,
        end: Result, r: Result)
    requires h.size <= |buffer| && Returns(h, result, end, r) && |result| == to - before.payloadHead
    requires to < h.length ==> end == WouldBlock
    requires if to == h.length then
               after.frames == before.frames + [FrameIn(h, buffer)] && after.readbuffer == [] && after.payloadHead == 0
             else after.frames == before.frames && after.readbuffer == buffer && after.payloadHead == to
    ensures Yields(before, h, buffer, after, to, r)
  {
    hide FrameIn;
  }

  /** Data is returned where the call would otherwise block. */
  lemma DataResponds(before: Receiving, s: Sending, intact: bool, script: seq<Out.Event>, after: Receiving,
        t: Sending, nowIntact: bool, more: seq<Out.Event>, h: Header, buffer: seq<Byte>, result: seq<Byte>)
    requires Responds(before, s, intact, script, after, t, nowIntact, more, WouldBlock)
    requires CarriesData(h.opcode) && result != [] && h.size <= |buffer|
    requires after.frames in {before.frames, before.frames + [FrameIn(h, buffer)]}
    ensures Responds(before, s, intact, script, after, t, nowIntact, more, Data(result))
  {
    hide Answering;
    FrameOpcode(h, buffer);
    hide FrameIn;
  }

  lemma ReadsChunk(before: Receiving, a: In.Arrival, h: Header, buffer: seq<Byte>, after: Receiving, b: In.Arrival,
        length: nat, r: Result)
    requires Fetched(a, b, Read) && ReadHeader(buffer) == Some(h)
    requires |buffer| >= h.size + Reach(h, before.payloadHead, length)
    requires Grown(before.readbuffer, buffer, before.seen, after.seen)
    requires Yields(before, h, buffer, after, Reach(h, before.payloadHead, length), r)
    ensures Reads(before, a, after, b, length, r)
  {
    GrownIs(before.readbuffer, buffer, before.seen, after.seen);
    hide ReadHeader, D.Met, Yields, Reach;
  }

  lemma ReadsStuck(before: Receiving, a: In.Arrival, buffer: seq<Byte>, after: Receiving, b: In.Arrival,
        length: nat, r: Result)
    requires D.Met(a, b) && !ChunkThere(buffer, before.payloadHead, length)
    requires Grown(before.readbuffer, buffer, before.seen, after.seen)
    requires Stuck(before, a, buffer, after, b, r)
    ensures Reads(before, a, after, b, length, r)
  {
    GrownIs(before.readbuffer, buffer, before.seen, after.seen);
    hide ReadHeader, D.Met, Stuck, ChunkThere;
  }

  /** A call never returns more than was asked for. */
  lemma AtMost(before: Receiving, a: In.Arrival, after: Receiving, b: In.Arrival, length: nat, r: Result)
    requires Reads(before, a, after, b, length, r)
    ensures r.Data? ==> |r.bytes| <= length
  {
    hide D.Met, ReadHeader, D.Lost, GivesLess, FrameIn;
  }

  lemma GrownIs(before: seq<Byte>, after: seq<Byte>, seenBefore: seq<Byte>, seenAfter: seq<Byte>)
    requires Grown(before, after, seenBefore, seenAfter)
    ensures seenBefore <= seenAfter && after == before + seenAfter[|seenBefore|..]
  {
    assert seenAfter[|seenBefore|..] == after[|before|..];
  }

  class WebsocketWrapper {
    /** The two directions of its socket. */
    const incoming: In.Socket
    const outgoing: Out.Socket
    var connected: bool
    var readbuffer: seq<Byte>
    var readbufferHead: nat
    var payloadHead: nat
    var sendbuffer: seq<Byte>
    var requestedSize: nat
    /** The receiving side as seen from outside. */
    ghost var answers: seq<seq<Byte>>
    ghost var seen: seq<Byte>
    ghost var done: seq<Byte>
    ghost var frames: seq<Frame>
    ghost var cuts: seq<nat>
    ghost var returned: seq<Byte>
    /** The sending side: the data and the frame under way, and its mask key; the complete frames
        and the data in them. */
    ghost var pending: seq<Byte>
    ghost var current: seq<Byte>
    ghost var key: seq<Byte>
    ghost var sent: seq<Byte>
    ghost var accepted: seq<Byte>
    /** Every answer was harmless to the frames sent. */
    ghost var intact: bool

    constructor (incoming: In.Socket, outgoing: Out.Socket)
      requires outgoing.wire == []
      ensures this.incoming == incoming && this.outgoing == outgoing && connected && intact && Valid()
      ensures Receiver() == Receiving([], 0, [], [], [], [], [], []) && accepted == [] && sendbuffer == []
    {
      this.incoming, this.outgoing := incoming, outgoing;
      connected, readbuffer, readbufferHead, payloadHead := true, [], 0, 0;
      sendbuffer, requestedSize, intact := [], 0, true;
      answers, seen, done, frames, cuts, returned := [], [], [], [], [], [];
      pending, current, key, sent, accepted := [], [], [], [], [];
      new;
      NothingYet();
      FramesNothing();
    }

    ghost predicate Valid()
      reads this, outgoing
    {
      Deframed(Receiver()) && Underway(Sender()) && (intact ==> Whole(Sender()))
    }

    ghost function Receiver(): Receiving
      reads this
    {
      Receiving(readbuffer, payloadHead, answers, seen, done, frames, cuts, returned)
    }

    ghost function Sender(): Sending
      reads this, outgoing
    {
      Sending(outgoing.wire, sendbuffer, requestedSize, pending, current, key, sent, accepted)
    }

    ghost function Account(): Books
      reads this, incoming, outgoing
    {
      Books(seen, incoming.stream, outgoing.wire, returned, connected)
    }

    /** As long as the answers were harmless, the other side finds exactly the data accepted. */
    lemma OtherSideSees()
      requires Valid() && intact
      ensures DataOf(Frames(outgoing.wire).0) == accepted
      ensures sendbuffer == [] ==> Frames(outgoing.wire).1 == []
    {
      ReceiverSees(Sender());
    }

    /** `length` bytes of the frame behind the head, from the buffer and, for what is missing
        there, from the socket. */
    method BufferedRead(length: nat) returns (status: Status, data: seq<Byte>)
      requires length > 0 && readbufferHead <= |readbuffer|
      modifies this`readbuffer, this`readbufferHead, this`seen, incoming
      ensures Grown(old(readbuffer), readbuffer, old(seen), seen)
      ensures seen + incoming.stream == old(seen + incoming.stream)
      ensures status == Read ==> readbufferHead == old(readbufferHead) + length <= |readbuffer|
      ensures status == Read ==> |readbuffer| == Max(|old(readbuffer)|, readbufferHead)
      ensures status == Read ==> data == readbuffer[old(readbufferHead)..readbufferHead]
      ensures status != Read ==> |readbuffer| < old(readbufferHead) + length && readbufferHead == old(readbufferHead)
      ensures Fetched(old(incoming.Now()), incoming.Now(), status)
    {
      hide D.Met, D.Waits, D.Lost, In.Taken;
      data := [];
      var have := |readbuffer| - readbufferHead;
      FetchedNone(incoming.Now());
      if length > have {
        var wanted := length - have;
        D.TakenMeets(incoming.Now(), wanted);
        GivenLess(In.Taken(incoming.Now(), wanted).1.last);
        var r := incoming.Recv(wanted);
        match r
        case WouldBlock => return Blocking, [];
        case Error => return Aborted, [];
        case Data(bytes) =>
          if bytes == [] {
            return Aborted, [];
          }
          In.Moved(seen, bytes, incoming.stream);
          readbuffer := readbuffer + bytes;
          seen := seen + bytes;
          if |bytes| < wanted {
            return Blocking, [];
          }
      }
      readbufferHead := readbufferHead + length;
      status, data := Read, readbuffer[readbufferHead - length..readbufferHead];
    }

    /** The first two bytes of the frame. */
    method FirstTwo() returns (status: Status, header1: Byte, header2: Byte)
      requires readbufferHead == 0
      modifies this`readbuffer, this`readbufferHead, this`seen, incoming
      ensures Grown(old(readbuffer), readbuffer, old(seen), seen)
      ensures seen + incoming.stream == old(seen + incoming.stream)
      ensures status == Read ==> readbufferHead == 2 && |readbuffer| == Max(|old(readbuffer)|, 2)
      ensures status == Read ==> readbuffer[0] == header1 && readbuffer[1] == header2
      ensures status != Read ==> |readbuffer| < 2
      ensures Fetched(old(incoming.Now()), incoming.Now(), status)
    {
      hide D.Met, D.Lost, GivesLess;
      header1, header2 := 0, 0;
      var data;
      status, data := BufferedRead(1);
      if status != Read {
        return;
      }
      header1 := data[0];
      ghost var b, s, a := readbuffer, seen, incoming.Now();
      status, data := BufferedRead(1);
      FetchedMore(old(incoming.Now()), a, incoming.Now(), status);
      GrownTwice(old(readbuffer), b, readbuffer, old(seen), s, seen);
      if status != Read {
        return;
      }
      header2 := data[0];
      assert readbuffer[0] == b[0];
    }

    /** A field of the header, which may be absent. */
    method Field(length: nat) returns (status: Status, data: seq<Byte>)
      requires readbufferHead <= |readbuffer|
      modifies this`readbuffer, this`readbufferHead, this`seen, incoming
      ensures Grown(old(readbuffer), readbuffer, old(seen), seen)
      ensures seen + incoming.stream == old(seen + incoming.stream)
      ensures status == Read ==> readbufferHead == old(readbufferHead) + length <= |readbuffer|
      ensures status == Read ==> |readbuffer| == Max(|old(readbuffer)|, readbufferHead)
      ensures status == Read ==> data == readbuffer[old(readbufferHead)..readbufferHead]
      ensures status != Read ==> |readbuffer| < old(readbufferHead) + length
      ensures Fetched(old(incoming.Now()), incoming.Now(), status)
    {
      if length == 0 {
        FetchedNone(incoming.Now());
        return Read, [];
      }
      status, data := BufferedRead(length);
    }

    /** Read on until the frame's header is complete. */
    method FillHeader() returns (status: Status, h: Header)
      requires readbufferHead == 0
      modifies this`readbuffer, this`readbufferHead, this`seen, incoming
      ensures Grown(old(readbuffer), readbuffer, old(seen), seen)
      ensures seen + incoming.stream == old(seen + incoming.stream)
      ensures status == Read ==> ReadHeader(readbuffer) == Some(h) && readbufferHead == h.size
      ensures status == Read ==> |readbuffer| == Max(|old(readbuffer)|, h.size)
      ensures status != Read ==> ReadHeader(readbuffer) == None
      ensures Fetched(old(incoming.Now()), incoming.Now(), status)
    {
      hide Fetched, D.Met;
      h := Header(0, None, 0, 0);
      var header1, header2, value, maskKey;
      status, header1, header2 := FirstTwo();
      if status != Read {
        return;
      }
      ghost var b, s, a := readbuffer, seen, incoming.Now();
      status, value := Field(LengthBytes(header2));
      FetchedAfter(old(incoming.Now()), a, incoming.Now(), status);
      GrownTwice(old(readbuffer), b, readbuffer, old(seen), s, seen);
      assert readbuffer[0] == b[0] && readbuffer[1] == b[1];
      if status != Read {
        return;
      }
      ghost var b', s', a' := readbuffer, seen, incoming.Now();
      status, maskKey := Field(KeyBytes(header2));
      FetchedAfter(old(incoming.Now()), a', incoming.Now(), status);
      GrownTwice(old(readbuffer), b', readbuffer, old(seen), s', seen);
      assert readbuffer[0] == b'[0] && readbuffer[1] == b'[1];
      if status != Read {
        return;
      }
      assert value == readbuffer[2..2 + LengthBytes(header2)] by {
        Kept(b', readbuffer, 2, 2 + LengthBytes(header2));
      }
      hide PayloadLength;
      h := Header(header1 % 16, if header2 >= 128 then Some(maskKey) else None, PayloadLength(header2, value),
                  readbufferHead);
    }

    /** The data of the next chunk of a data frame, at most `length` bytes of it; it would block where
        the frame yields none yet or is a control frame, which is answered when it is complete. The
        answer goes to the socket behind whatever was written before. */
    method RecvImpl(length: nat) returns (r: Result)
      requires Valid() && length > 0
      modifies this, incoming, outgoing
      ensures Valid() && Booked(old(Account()), Account(), r) && (r.Data? ==> |r.bytes| <= length)
      ensures Reads(old(Receiver()), old(incoming.Now()), Receiver(), incoming.Now(), length, r)
      ensures Responds(old(Receiver()), old(Sender()), old(intact), old(outgoing.script), Receiver(), Sender(), intact,
                       outgoing.script, r)
    {
      hide Deframed, Underway, Whole, ReadHeader, ParseFrame, Responds, Begun, Grown, Fetched, Reads, Booked;
      readbufferHead := 0;
      ghost var before, a, from := Receiver(), incoming.Now(), Account();
      var status, h := FillHeader();
      OnlyLonger(before.readbuffer, readbuffer, before.seen, seen);
      ghost var begun := Account();
      if status != Read {
        NoHeaderNoFrame(readbuffer);
        r := Interrupted(status, before, a, length);
      } else {
        HeaderInside(before, readbuffer, h);
        r := RecvPayload(length, h, before, a);
      }
      BookedFrom(from, begun, Account(), r);
      AtMost(before, a, Receiver(), incoming.Now(), length, r);
    }

    /** Behind the header. */
    method RecvPayload(length: nat, h: Header, ghost before: Receiving, ghost a: In.Arrival) returns (r: Result)
      requires Deframed(before) && length > 0 && ReadHeader(readbuffer) == Some(h) && readbufferHead == h.size
      requires Receiver() == before.(readbuffer := readbuffer, seen := seen)
      requires Grown(before.readbuffer, readbuffer, before.seen, seen)
      requires Begun(readbuffer, payloadHead, h) && Fetched(a, incoming.Now(), Read)
      requires Underway(Sender()) && (intact ==> Whole(Sender()))
      modifies this, incoming, outgoing
      ensures Valid() && Booked(old(Account()), Account(), r)
      ensures Reads(before, a, Receiver(), incoming.Now(), length, r)
      ensures Responds(before, old(Sender()), old(intact), old(outgoing.script), Receiver(), Sender(), intact,
                       outgoing.script, r)
    {
      hide Deframed, Underway, Whole, ReadHeader, ParseFrame, Responds, Grown, Fetched, Yields, Reads, Booked;
      var readIndex := if h.length < payloadHead + length then h.length else payloadHead + length;
      ghost var from := Account();
      var status, payload := FieldOf(h, readIndex, before, a);
      ghost var begun := Account();
      if status != Read {
        ShortFrame(readbuffer, h);
        r := Interrupted(status, before, a, length);
      } else {
        ghost var buffer := readbuffer;
        ghost var grown := GrownBy(before.readbuffer, readbuffer, before.seen, seen);
        r := TakeChunk(payload, readIndex, h, before, grown);
        ReadsChunk(before, a, h, buffer, Receiver(), incoming.Now(), length, r);
      }
      BookedFrom(from, begun, Account(), r);
    }

    /** The payload up to index `readIndex`, which is behind the head unless the frame is empty. */
    method FieldOf(h: Header, readIndex: nat, ghost before: Receiving, ghost a: In.Arrival)
        returns (status: Status, payload: seq<Byte>)
      requires ReadHeader(readbuffer) == Some(h) && readbufferHead == h.size
      requires Grown(before.readbuffer, readbuffer, before.seen, seen) && Fetched(a, incoming.Now(), Read)
      modifies this`readbuffer, this`readbufferHead, this`seen, incoming
      ensures ReadHeader(readbuffer) == Some(h) && Fetched(a, incoming.Now(), status)
      ensures Grown(before.readbuffer, readbuffer, before.seen, seen)
      ensures old(seen) <= seen && seen + incoming.stream == old(seen + incoming.stream)
      ensures status == Read ==> |readbuffer| == Max(|old(readbuffer)|, h.size + readIndex)
      ensures status == Read ==> payload == readbuffer[h.size..h.size + readIndex]
      ensures status != Read ==> |readbuffer| < h.size + readIndex
    {
      hide ReadHeader, Grown, Fetched;
      ghost var now := incoming.Now();
      status, payload := Field(readIndex);
      FetchedAfter(a, now, incoming.Now(), status);
      HeaderIsKept(old(readbuffer), readbuffer, old(seen), seen, h);
      GrownTwice(before.readbuffer, old(readbuffer), readbuffer, before.seen, old(seen), seen);
    }

    /** The bytes of the frame up to index `readIndex` are there. */
    method TakeChunk(raw: seq<Byte>, readIndex: nat, h: Header, ghost before: Receiving, ghost grown: seq<Byte>)
        returns (r: Result)
      requires Deframed(before) && ReadHeader(readbuffer) == Some(h)
      requires Receiver() == before.(readbuffer := before.readbuffer + grown, seen := before.seen + grown)
      requires payloadHead <= readIndex <= h.length && h.size + readIndex <= |readbuffer|
      requires readIndex == h.length ==> |readbuffer| == h.size + h.length
      requires readIndex < h.length ==> |readbuffer| < h.size + h.length && payloadHead < readIndex
      requires h.length > 0 ==> payloadHead < readIndex
      requires raw == readbuffer[h.size..h.size + readIndex]
      requires Underway(Sender()) && (intact ==> Whole(Sender()))
      modifies this`readbuffer, this`payloadHead, this`answers, this`done, this`frames, this`cuts, this`returned
      modifies this`connected, this`sent, this`intact, outgoing
      ensures Valid() && Booked(old(Account()), Account(), r)
      ensures Yields(before, h, old(readbuffer), Receiver(), readIndex, r)
      ensures Responds(before, old(Sender()), old(intact), old(outgoing.script), Receiver(), Sender(), intact,
                       outgoing.script, r)
    {
      hide Deframed, Underway, Whole, ReadHeader, ParseFrame, Chunk, Masked, FrameIn, Payload, Responds, Booked, Yields;
      var payload, chunkStart := raw, payloadHead;
      ghost var from := Account();
      if h.key.Some? {
        payload := Unmask(payload, h.key.value, chunkStart);
      }
      ChunkUnmasked(readbuffer, h, payload, chunkStart, readIndex);
      FrameOpcode(h, readbuffer);
      var result := payload[chunkStart..readIndex];
      if readIndex == h.length {
        SeenIs(before, grown);
        r := Finish(h.opcode, payload, before, h, result);
      } else {
        MoveHead(readIndex, h, before, grown, result);
        r := WouldBlock;
      }
      ghost var end := r;
      if r == WouldBlock && CarriesData(h.opcode) && h.length > 0 {
        r := Data(result);
        DataResponds(before, old(Sender()), old(intact), old(outgoing.script), Receiver(), Sender(), intact,
                     outgoing.script, h, old(readbuffer), result);
      }
      ChunkBooked(from, Account(), h, result, end, r);
      ChunkYields(before, h, old(readbuffer), Receiver(), readIndex, result, end, r);
    }

    /** The frame goes on behind the chunk. */
    method MoveHead(readIndex: nat, h: Header, ghost before: Receiving, ghost grown: seq<Byte>, ghost result: seq<Byte>)
      requires Deframed(before) && ReadHeader(readbuffer) == Some(h)
      requires Receiver() == before.(readbuffer := before.readbuffer + grown, seen := before.seen + grown)
      requires payloadHead < readIndex < h.length && h.size + readIndex <= |readbuffer| < h.size + h.length
      requires result == Chunk(readbuffer, h, payloadHead, readIndex)
      requires Underway(Sender()) && (intact ==> Whole(Sender()))
      modifies this`payloadHead, this`returned
      ensures Valid() && payloadHead == readIndex
      ensures returned == old(returned) + if CarriesData(h.opcode) then result else []
      ensures Responds(before, Sender(), intact, outgoing.script, Receiver(), Sender(), intact, outgoing.script,
                       WouldBlock)
    {
      hide Deframed, Underway, Whole, ReadHeader, ParseFrame, Chunk, Answering;
      ShortFrame(readbuffer, h);
      BufferGrows(before, grown);
      HeadMoves(Receiver(), h, readIndex);
      payloadHead := readIndex;
      returned := returned + if CarriesData(h.opcode) then result else [];
      NoAnswer(before, Receiver(), Sender(), intact, outgoing.script);
    }

    /** The frame is not complete, and there is no more to read. */
    method Interrupted(status: Status, ghost before: Receiving, ghost a: In.Arrival, ghost length: nat)
        returns (r: Result)
      requires Deframed(before) && Grown(before.readbuffer, readbuffer, before.seen, seen) && status != Read
      requires Receiver() == before.(readbuffer := readbuffer, seen := seen) && ParseFrame(readbuffer) == None
      requires Fetched(a, incoming.Now(), status) && !ChunkThere(readbuffer, before.payloadHead, length)
      requires Underway(Sender()) && (intact ==> Whole(Sender()))
      modifies this`connected
      ensures Valid() && Booked(old(Account()), Account(), r)
      ensures Reads(before, a, Receiver(), incoming.Now(), length, r)
      ensures Responds(before, Sender(), intact, outgoing.script, Receiver(), Sender(), intact, outgoing.script, r)
    {
      hide Deframed, Underway, Whole, ParseFrame, Answering, D.Met, D.Lost, GivesLess, ChunkThere, Reads;
      ghost var grown := GrownBy(before.readbuffer, readbuffer, before.seen, seen);
      BufferGrows(before, grown);
      NoAnswer(before, Receiver(), Sender(), intact, outgoing.script);
      r := WouldBlock;
      if status == Aborted {
        connected := false;
        r := Data([]);
      }
      ReadsStuck(before, a, readbuffer, Receiver(), incoming.Now(), length, r);
    }

    /** The frame is complete, and a control frame is answered. */
    method Finish(opcode: nat, payload: seq<Byte>, ghost before: Receiving, ghost h: Header, ghost result: seq<Byte>)
        returns (r: Result)
      requires Deframed(before) && ReadHeader(readbuffer) == Some(h) && |readbuffer| == h.size + h.length
      requires before.readbuffer <= readbuffer && before.payloadHead <= h.length && opcode == h.opcode
      requires Receiver() == before.(readbuffer := readbuffer, seen := before.done + readbuffer)
      requires result == Chunk(readbuffer, h, before.payloadHead, h.length)
      requires payload == Unmasked(FrameIn(h, readbuffer), before.payloadHead)
      requires Underway(Sender()) && (intact ==> Whole(Sender()))
      modifies this`readbuffer, this`payloadHead, this`answers, this`done, this`frames, this`cuts, this`returned
      modifies this`connected, this`sent, this`intact, outgoing
      ensures Valid() && seen == old(seen) && old(outgoing.wire) <= outgoing.wire
      ensures returned == old(returned) + if CarriesData(h.opcode) then result else []
      ensures r != WouldBlock ==> !CarriesData(h.opcode) && r in {Refused, Data([])}
      ensures connected == (old(connected) && r != Data([]))
      ensures frames == before.frames + [FrameIn(h, old(readbuffer))] && readbuffer == [] && payloadHead == 0
      ensures Responds(before, old(Sender()), old(intact), old(outgoing.script), Receiver(), Sender(), intact,
                       outgoing.script, r)
    {
      hide Deframed, Underway, Whole, ReadHeader, Chunk, Payload, Answering, AnswersWith, Unmasked, FrameIn;
      FrameOpcode(h, readbuffer);
      EndFrame(opcode, FrameIn(h, readbuffer), result);
      r := AnswerControl(opcode, payload, before);
      FrameEnds(before, h, old(readbuffer), answers);
    }

    /** The buffers start afresh. */
    method EndFrame(opcode: nat, ghost f: Frame, ghost result: seq<Byte>)
      modifies this`readbuffer, this`payloadHead, this`done, this`frames, this`cuts, this`returned
      ensures Receiver() == Receiving([], 0, answers, seen, old(done + readbuffer), old(frames) + [f],
          old(cuts) + [old(payloadHead)], old(returned) + if CarriesData(opcode) then result else [])
    {
      done := done + readbuffer;
      frames, cuts := frames + [f], cuts + [payloadHead];
      returned := returned + if CarriesData(opcode) then result else [];
      readbuffer := [];
      payloadHead := 0;
    }

    method AnswerControl(opcode: nat, payload: seq<Byte>, ghost before: Receiving) returns (r: Result)
      requires Underway(Sender()) && (intact ==> Whole(Sender())) && answers == before.answers
      modifies this`answers, this`connected, this`sent, this`intact, outgoing
      ensures Underway(Sender()) && (intact ==> Whole(Sender())) && old(outgoing.wire) <= outgoing.wire
      ensures answers == before.answers + AnswersWith(opcode, payload)
      ensures r in {WouldBlock, Refused, Data([])} && connected == (old(connected) && r != Data([]))
      ensures r != WouldBlock ==> AsksForAnswer(opcode)
      ensures AsksForAnswer(opcode) ==>
        if answers == before.answers then r == Refused
        else
          |answers| > |before.answers| && r == ResultOf(Out.Answer(old(outgoing.script), |answers[|before.answers|]|))
      ensures !AsksForAnswer(opcode) ==> answers == before.answers
      ensures Answering(before, old(Sender()), old(intact), old(outgoing.script), Receiver(), Sender(), intact,
                        outgoing.script)
    {
      hide Underway, Whole, Answer, Answering, Out.Answer, ResultOf;
      r := WouldBlock;
      if opcode == OPCODE_CONNCLOSE || opcode == OPCODE_PING {
        var frame := Answer(opcode, payload);
        if frame == None {
          r := Refused;
          NoAnswer(before, Receiver(), Sender(), intact, outgoing.script);
        } else {
          IsAnswered(opcode, payload);
          answers := answers + [frame.value];
          r := Respond(frame.value, before);
        }
      } else {
        NoAnswer(before, Receiver(), Sender(), intact, outgoing.script);
      }
    }

    /** The answer is given to the socket, once, and what the socket does not take is given up. */
    method Respond(frame: seq<Byte>, ghost before: Receiving) returns (r: Result)
      requires Underway(Sender()) && (intact ==> Whole(Sender()))
      requires IsAnswer(frame) && frame != [] && answers == before.answers + [frame]
      modifies this`connected, this`sent, this`intact, outgoing
      ensures Underway(Sender()) && (intact ==> Whole(Sender())) && old(outgoing.wire) <= outgoing.wire
      ensures r in {WouldBlock, Refused, Data([])} && connected == (old(connected) && r != Data([]))
      ensures r == ResultOf(Out.Answer(old(outgoing.script), |frame|))
      ensures Answering(before, old(Sender()), old(intact), old(outgoing.script), Receiver(), Sender(), intact,
                        outgoing.script)
    {
      hide Underway, Whole, IsAnswer, KeepsFrames, Answering, Out.Answer, Out.Later;
      ghost var s, script := Sender(), outgoing.script;
      var taken := outgoing.Send(frame);
      ghost var n := if taken.Taken? then taken.n else 0;
      Nothing(s.wire, frame);
      intact := intact && KeepsFrames(s, frame, n);
      if intact {
        AnswerKeeps(s, frame, n);
        sent := WithAnswer(s, frame, n).done;
      }
      Responded(before, Receiver(), s, old(intact), script, Sender(), frame, n);
      match taken
      case Error =>
        connected := false;
        r := Data([]);
      case NotUsable => r := Refused;
      case _ => r := WouldBlock;
    }

    /** The data becomes one masked frame, unless one is under way: then the call goes on with that,
        whatever the data. A positive result means that the frame is sent to its end, and is the
        number of bytes of its data; until then the result is 0. */
    method SendImpl(data: seq<Byte>, maskKey: seq<Byte>) returns (r: SendResult)
      requires Valid() && |maskKey| == 4
      modifies this`sendbuffer, this`requestedSize, outgoing
      modifies this`pending, this`current, this`key, this`sent, this`accepted
      ensures Valid() && old(outgoing.wire) <= outgoing.wire
      ensures old(sendbuffer) != [] ==> outgoing.wire + sendbuffer == old(outgoing.wire + sendbuffer)
      ensures old(sendbuffer) == [] && |data| <= MAX_PAYLOAD ==>
        outgoing.wire + sendbuffer == old(outgoing.wire) + DataFrame(data, maskKey)
      ensures accepted == old(accepted)
        + if r.Raised? || sendbuffer != [] then [] else if old(sendbuffer) == [] then data else old(pending)
      ensures r.Sent? ==> r.n == |accepted| - |old(accepted)|
      ensures sendbuffer != [] && old(sendbuffer) == [] ==> pending == data && key == maskKey
      ensures old(sendbuffer) != [] || |data| <= MAX_PAYLOAD ==>
        Writes(if old(sendbuffer) != [] then old(sendbuffer) else DataFrame(data, maskKey), old(outgoing.wire),
               old(outgoing.script), outgoing.wire, outgoing.script, sendbuffer, r)
      ensures old(sendbuffer) == [] && |data| > MAX_PAYLOAD ==> r.Raised? && Sender() == old(Sender())
    {
      hide Valid, DataFrame, Writes;
      if sendbuffer == [] {
        var begun := BeginFrame(data, maskKey);
        if !begun {
          return Raised;
        }
      }
      r := WriteOut();
    }

    /** The frame of the data, unless these are too long for one. */
    method BeginFrame(data: seq<Byte>, maskKey: seq<Byte>) returns (begun: bool)
      requires Valid() && |maskKey| == 4 && sendbuffer == []
      modifies this`sendbuffer, this`requestedSize, this`pending, this`current, this`key
      ensures Valid() && begun == (|data| <= MAX_PAYLOAD)
      ensures !begun ==> Sender() == old(Sender())
      ensures begun ==> sendbuffer == DataFrame(data, maskKey) != [] && pending == data && key == maskKey
    {
      hide Deframed, Underway, Whole, CreateFrame, Begin;
      FrameFits(data, maskKey);
      var frame := CreateFrame(OPCODE_BINARY, data, Some(maskKey));
      if frame == None {
        return false;
      }
      BeginKeeps(Sender(), data, maskKey);
      BeginIs(Sender(), data, maskKey);
      sendbuffer := frame.value;
      requestedSize := |data|;
      pending, current, key := data, frame.value, maskKey;
      begun := true;
    }

    /** Write out as much as possible. */
    method WriteOut() returns (r: SendResult)
      requires Valid() && sendbuffer != []
      modifies this`sendbuffer, outgoing, this`current, this`sent, this`accepted
      ensures Valid() && old(outgoing.wire) <= outgoing.wire
      ensures outgoing.wire + sendbuffer == old(outgoing.wire + sendbuffer)
      ensures accepted == old(accepted) + if r.Raised? || sendbuffer != [] then [] else pending
      ensures r.Sent? ==> r.n == |accepted| - |old(accepted)|
      ensures Writes(old(sendbuffer), old(outgoing.wire), old(outgoing.script), outgoing.wire, outgoing.script,
                     sendbuffer, r)
    {
      hide Deframed, Underway, Whole, Out.Answer, Out.Later;
      ghost var s := Sender();
      SizeIs(s);
      var length := outgoing.Send(sendbuffer);
      if !length.Taken? {
        assert outgoing.wire == s.wire;
        return Raised;
      }
      TakeKeeps(s, length.n);
      sendbuffer := sendbuffer[length.n..];
      if sendbuffer == [] {
        sent, current := sent + current, [];
        accepted := accepted + pending;
        r := Sent(requestedSize);
      } else {
        r := Sent(0);
      }
    }
  }

  lemma BeginIs(s: Sending, data: seq<Byte>, key: seq<Byte>)
    requires |key| == 4 && |data| <= MAX_PAYLOAD
    ensures var frame := CreateFrame(OPCODE_BINARY, data, Some(key)).value;
      Begin(s, data, key)
        == s.(sendbuffer := frame, requestedSize := |data|, pending := data, current := frame, key := key)
  {
  }

  /** A write that the socket may cut, a read that may answer a control frame, and the write again: the
      socket has the frame with the piece it took of the answer where the first write stopped. */
  method WriteReadWrite(w: WebsocketWrapper, data: seq<Byte>, maskKey: seq<Byte>, length: nat)
      returns (ghost i: nat, ghost piece: seq<Byte>)
    requires w.Valid() && w.sendbuffer == [] && |maskKey| == 4 && |data| <= MAX_PAYLOAD && length > 0
    modifies w, w.incoming, w.outgoing
    ensures w.Valid() && i <= |DataFrame(data, maskKey)|
    ensures w.outgoing.wire + w.sendbuffer == old(w.outgoing.wire) + Spliced(DataFrame(data, maskKey), i, piece)
    ensures piece == [] || (|w.answers| == |old(w.answers)| + 1 && piece <= w.answers[|old(w.answers)|])
    ensures w.intact == (old(w.intact)
      && (piece == [] || (piece == w.answers[|old(w.answers)|] && (i == 0 || i == |DataFrame(data, maskKey)|))))
  {
    hide Deframed, Underway, Whole, DataFrame, Spliced, Answering;
    ghost var frame := DataFrame(data, maskKey);
    var _ := w.SendImpl(data, maskKey);
    i := |frame| - |w.sendbuffer|;
    ghost var s, r, intact, script := w.Sender(), w.Receiver(), w.intact, w.outgoing.script;
    Cut(s, frame, old(w.outgoing.wire));
    if s.sendbuffer != [] {
      CurrentIs(s);
    }
    var _ := w.RecvImpl(length);
    piece := w.outgoing.wire[|s.wire|..];
    PieceOf(old(w.outgoing.wire), r, s, intact, w.Receiver(), w.Sender(), w.intact, script,
            w.outgoing.script, frame, i);
    if w.sendbuffer != [] {
      var _ := w.SendImpl(data, maskKey);
    }
  }

  // ---------- reading on ----------

  /** Bounds the calls that are needed: bytes to receive, bytes held and events to meet. */
  function Undone(r: Receiving, a: In.Arrival): int {
    2 * |a.stream| + |r.readbuffer| - r.payloadHead + |a.script|
  }

  /** A call receives, returns or completes something: `grown` are the bytes received. */
  lemma CallMoves(before: Receiving, a: In.Arrival, after: Receiving, b: In.Arrival, length: nat, r: Result)
    requires Reads(before, a, after, b, length, r) && length > 0 && HeadOk(before.readbuffer, before.payloadHead)
    requires D.Open(a.script) && D.Supplied(a) && |after.seen| + |b.stream| == |before.seen| + |a.stream|
    ensures D.Open(b.script) && D.Supplied(b) && |b.stream| <= |a.stream|
    ensures a.stream != [] ==> Undone(after, b) < Undone(before, a)
  {
    hide D.Lost, GivesLess, FrameIn, ReadHeader, HeadOk, CarriesData;
    HeadInside(before.readbuffer, after.seen[|before.seen|..], before.payloadHead);
    Onwards(a, b);
    hide D.Met, D.Open, D.Supplied;
  }

  /** Receive calls keep the supply, and while it lasts each of them meets an event. */
  lemma Onwards(a: In.Arrival, b: In.Arrival)
    requires D.Met(a, b) && D.Open(a.script) && D.Supplied(a)
    ensures D.Open(b.script) && D.Supplied(b) && |b.stream| <= |a.stream| && a.calls <= b.calls
    ensures |b.script| <= |a.script| && (a.stream != [] && a.calls < b.calls ==> |b.script| < |a.script|)
  {
    if a.stream != [] {
      assert a.script != [];
    }
  }

  lemma HeadInside(b: seq<Byte>, c: seq<Byte>, head: nat)
    requires HeadOk(b, head)
    ensures head <= |b| && (ReadHeader(b) == None ==> head == 0)
    ensures ReadHeader(b + c).Some? ==> 2 <= ReadHeader(b + c).value.size <= |b + c|
    ensures ReadHeader(b).Some? ==> ReadHeader(b + c) == ReadHeader(b) && head + 2 <= |b|
  {
    if ReadHeader(b).Some? {
      HeaderMore(b, c);
    }
  }

  /** Whoever calls often enough, whatever the pieces in which the socket gives the bytes, gets all data: of
      every frame in the stream, and nothing else. */
  method ReadOn(w: WebsocketWrapper, length: nat, n: nat) returns (data: seq<Byte>)
    requires w.Valid() && length > 0 && D.Open(w.incoming.script) && D.Supplied(w.incoming.Now())
    requires Undone(w.Receiver(), w.incoming.Now()) <= n
    modifies w, w.incoming, w.outgoing
    ensures w.Valid() && w.incoming.stream == [] && w.seen == old(w.seen + w.incoming.stream)
    ensures w.returned == old(w.returned) + data
    ensures DataOf(Frames(w.seen).0) <= w.returned
    ensures Frames(w.seen).1 == [] ==> w.returned == DataOf(Frames(w.seen).0)
  {
    hide Deframed, Underway, Whole, Reads, Responds, D.Open, D.Supplied;
    data := [];
    ghost var before, now := w.Receiver(), w.incoming.Now();
    for i := 0 to n
      invariant w.Valid() && w.seen + w.incoming.stream == before.seen + now.stream
      invariant w.returned == before.returned + data
      invariant D.Open(w.incoming.script) && D.Supplied(w.incoming.Now())
      invariant w.incoming.stream == [] || Undone(w.Receiver(), w.incoming.Now()) + i <= n
    {
      ghost var r0, a := w.Receiver(), w.incoming.Now();
      HeadIsOk(r0);
      var r := w.RecvImpl(length);
      CallMoves(r0, a, w.Receiver(), w.incoming.Now(), length, r);
      data := data + if r.Data? then r.bytes else [];
    }
    AllReturned(w.Receiver(), w.incoming.Now());
  }

  lemma AllReturned(r: Receiving, a: In.Arrival)
    requires Deframed(r)
    ensures DataOf(Frames(r.seen).0) <= r.returned && Undone(r, a) >= 2 * |a.stream|
    ensures Frames(r.seen).1 == [] ==> r.returned == DataOf(Frames(r.seen).0)
  {
    DeframedAgrees(r);
    HeadInside(r.readbuffer, [], r.payloadHead);
    hide Frames;
    NothingYet();
  }

  lemma Cut(s: Sending, frame: seq<Byte>, wire: seq<Byte>)
    requires wire <= s.wire && s.wire + s.sendbuffer == wire + frame
    ensures |s.sendbuffer| <= |frame| && s.wire == wire + frame[..|frame| - |s.sendbuffer|]
    ensures s.sendbuffer == frame[|frame| - |s.sendbuffer|..]
  {
    CutAt(wire, frame, s.wire, s.sendbuffer);
  }

  lemma PieceOf(wire: seq<Byte>, before: Receiving, s: Sending, intact: bool, after: Receiving, t: Sending,
        nowIntact: bool, script: seq<Out.Event>, more: seq<Out.Event>, frame: seq<Byte>, i: nat)
    requires Answering(before, s, intact, script, after, t, nowIntact, more)
    requires i <= |frame| && s.wire == wire + frame[..i] && s.sendbuffer == frame[i..]
    requires s.sendbuffer != [] ==> s.current == frame
    ensures var piece := t.wire[|s.wire|..];
      && t.wire + t.sendbuffer == wire + Spliced(frame, i, piece) && t.sendbuffer == s.sendbuffer
      && (piece == [] || (|after.answers| == |before.answers| + 1 && piece <= after.answers[|before.answers|]))
      && nowIntact == (intact
           && (piece == [] || (piece == after.answers[|before.answers|] && (i == 0 || i == |frame|))))
  {
    hide IsAnswer;
    var piece := t.wire[|s.wire|..];
    assert t.wire == s.wire + piece;
    FourParts(wire, frame[..i], piece, frame[i..]);
    if after.answers != before.answers {
      var f := after.answers[|before.answers|];
      assert piece == f[..|t.wire| - |s.wire|];
    }
  }

  lemma CurrentIs(s: Sending)
    requires Underway(s) && s.sendbuffer != []
    ensures |s.key| == 4 && |s.pending| <= MAX_PAYLOAD && s.current == DataFrame(s.pending, s.key)
  {
    hide CreateFrame;
  }

  lemma CutAt(before: seq<Byte>, frame: seq<Byte>, after: seq<Byte>, rest: seq<Byte>)
    requires before <= after && after + rest == before + frame
    ensures |rest| <= |frame| && after == before + frame[..|frame| - |rest|] && rest == frame[|frame| - |rest|..]
  {
    var all := before + frame;
    assert after == all[..|after|] && rest == all[|after|..];
  }

  lemma FourParts(a: seq<Byte>, b: seq<Byte>, c: seq<Byte>, d: seq<Byte>)
    ensures a + b + c + d == a + (b + c + d)
  {
  }

  /** What one call of the receiving side did to the sending one: nothing, or the socket has taken the
      first bytes of the one answer given to it, and the frames sent are intact if it was harmless. */
  ghost predicate Answering(before: Receiving, s: Sending, intact: bool, script: seq<Out.Event>,
        after: Receiving, t: Sending, nowIntact: bool, more: seq<Out.Event>)
  {
    && t == s.(wire := t.wire, done := t.done) && s.wire <= t.wire
    && (after.answers == before.answers ==> t == s && nowIntact == intact && more == script)
    && (after.answers != before.answers ==>
         && |after.answers| == |before.answers| + 1 && before.answers <= after.answers
         && var f := after.answers[|before.answers|]; var n := Accepts(Out.Answer(script, |f|));
           && n <= |f| && t.wire == s.wire + f[..n] && IsAnswer(f) && more == Out.Later(script)
           && nowIntact == (intact && KeepsFrames(s, f, n)))
  }

  lemma Responded(before: Receiving, after: Receiving, s: Sending, intact: bool, script: seq<Out.Event>, t: Sending,
        f: seq<Byte>, n: nat)
    requires Underway(s) && IsAnswer(f) && f != [] && n <= |f| && after.answers == before.answers + [f]
    requires t == s.(wire := s.wire + f[..n], done := t.done) && n == Accepts(Out.Answer(script, |f|))
    ensures Underway(t) && s.wire <= t.wire
    ensures Answering(before, s, intact, script, after, t, intact && KeepsFrames(s, f, n), Out.Later(script))
  {
    hide Underway, IsAnswer, KeepsFrames, Out.Answer;
    StillUnderway(s, t);
    assert |t.wire| - |s.wire| == n && after.answers[|before.answers|] == f;
  }

  lemma NoAnswer(before: Receiving, after: Receiving, s: Sending, intact: bool, script: seq<Out.Event>)
    requires after.answers == before.answers
    ensures Answering(before, s, intact, script, after, s, intact, script)
  {
  }

  lemma IsAnswered(opcode: nat, payload: seq<Byte>)
    requires (opcode == OPCODE_CONNCLOSE || opcode == OPCODE_PING) && Answer(opcode, payload).Some?
    ensures IsAnswer(Answer(opcode, payload).value) && Answer(opcode, payload).value != []
  {
    AnswerParses(Answer(opcode, payload).value);
  }

  lemma Nothing(wire: seq<Byte>, frame: seq<Byte>)
    ensures wire == wire + frame[..0]
  {
  }

  lemma StillUnderway(s: Sending, t: Sending)
    requires Underway(s) && t == s.(wire := t.wire, done := t.done)
    ensures Underway(t)
  {
  }

  lemma SizeIs(s: Sending)
    requires Underway(s)
    ensures s.sendbuffer != [] ==> s.requestedSize == |s.pending|
  {
  }

  /** Unmask from index `from` on. */
  method Unmask(payload: seq<Byte>, key: seq<Byte>, from: nat) returns (r: seq<Byte>)
    requires |key| == 4 && from <= |payload|
    ensures r == payload[..from] + Masked(payload, Some(key))[from..]
  {
    hide Xor;
    r := payload;
    for index := from to |payload|
      invariant |r| == |payload|
      invariant forall i :: 0 <= i < |payload| ==>
        r[i] == if from <= i < index then Xor(payload[i], key[i % 4]) else payload[i]
    {
      r := r[index := Xor(r[index], key[index % 4])];
    }
  }

  lemma ChunkUnmasked(b: seq<Byte>, h: Header, payload: seq<Byte>, from: nat, to: nat)
    requires ReadHeader(b) == Some(h) && from <= to && h.size + to <= |b|
    requires var raw := b[h.size..h.size + to];
      payload == if h.key.Some? then raw[..from] + Masked(raw, h.key)[from..] else raw
    ensures |payload| == to && payload[from..to] == Chunk(b, h, from, to)
    ensures h.size + to == |b| ==> payload == Unmasked(FrameIn(h, b), from)
  {
    var raw := b[h.size..h.size + to];
    hide ReadHeader, Masked;
    if h.key.Some? {
      var m := Masked(raw, h.key);
      assert (raw[..from] + m[from..])[from..to] == m[from..to];
    } else {
      Untouched(raw, from);
    }
    if h.size + to == |b| {
      assert raw == b[h.size..];
    }
  }

  lemma Untouched(raw: seq<Byte>, from: nat)
    requires from <= |raw|
    ensures Masked(raw, None) == raw == raw[..from] + raw[from..]
  {
  }

  /** The head is inside the frame, and the frame is not complete unless it is empty. */
  predicate Begun(b: seq<Byte>, head: nat, h: Header) {
    && head <= h.length && h.size + head <= |b| <= h.size + h.length
    && (h.length > 0 ==> |b| < h.size + h.length && head < h.length)
  }

  lemma SeenIs(r: Receiving, grown: seq<Byte>)
    requires Deframed(r)
    ensures r.seen + grown == r.done + (r.readbuffer + grown)
  {
    hide Frames, ParseFrame, HeadOk, Part, DataOf, Answers, CutsFit;
    Joined(r.done, r.readbuffer, grown);
  }

  lemma NoHeaderNoFrame(b: seq<Byte>)
    requires ReadHeader(b) == None
    ensures ParseFrame(b) == None
  {
  }

  lemma HeaderInside(r: Receiving, b: seq<Byte>, h: Header)
    requires Deframed(r) && r.readbuffer <= b && ReadHeader(b) == Some(h) && |b| == Max(|r.readbuffer|, h.size)
    ensures Begun(b, r.payloadHead, h)
  {
    if ReadHeader(r.readbuffer).Some? {
      HeaderMore(r.readbuffer, b[|r.readbuffer|..]);
      assert b == r.readbuffer + b[|r.readbuffer|..];
    }
    hide ReadHeader;
  }

  lemma HeaderStays(b: seq<Byte>, c: seq<Byte>, h: Header)
    requires b <= c && ReadHeader(b) == Some(h)
    ensures ReadHeader(c) == Some(h)
  {
    HeaderMore(b, c[|b|..]);
    assert c == b + c[|b|..];
  }

  lemma HeaderIsKept(b: seq<Byte>, c: seq<Byte>, seenBefore: seq<Byte>, seenAfter: seq<Byte>, h: Header)
    requires Grown(b, c, seenBefore, seenAfter) && ReadHeader(b) == Some(h)
    ensures ReadHeader(c) == Some(h) && seenBefore <= seenAfter
  {
    hide ReadHeader;
    HeaderStays(b, c, h);
  }

  lemma ShortFrame(b: seq<Byte>, h: Header)
    requires ReadHeader(b) == Some(h) && |b| < h.size + h.length
    ensures ParseFrame(b) == None
  {
  }

  lemma Kept(b: seq<Byte>, c: seq<Byte>, i: nat, j: nat)
    requires b <= c && i <= j <= |b|
    ensures b[i..j] == c[i..j]
  {
    assert c[..|b|] == b;
  }
}
