/** The QoS session of the client as a value: the table of outgoing messages, the in-flight
    counter, the table of half-received QoS 2 messages, and every step that moves them.
    Module `ClientObject` holds the mutable object whose methods compute these functions. */
module QosSession {

  datatype MessageState =
    | ReadyToPublish
    | WaitForPuback
    | WaitForPubrec
    | WaitForPubcomp
    | ResendPubrel
    | Queued

  /** An outgoing QoS 1 or QoS 2 message. `body` stands for its topic, payload and identity:
      accepted messages are numbered in the order of acceptance, so that two messages are
      told apart even when their contents or their packet identifiers coincide. */
  datatype Msg = Msg(body: nat, qos: nat, state: MessageState, dup: bool)

  /** An incoming message, as handed to the application. */
  datatype InMsg = InMsg(mid: nat, qos: nat, body: nat)

  datatype Packet =
    | Connect(clean: bool)
    | Connack
    | Publish(mid: nat, qos: nat, dup: bool, body: nat)
    | Puback(mid: nat)
    | Pubrec(mid: nat)
    | Pubrel(mid: nat)
    | Pubcomp(mid: nat)

  /** The socket: absent, or present with a number of socket writes that will succeed
      before one fails and closes it. The number is unknown to the client. */
  datatype Link = Down | Up(writes: nat)

  datatype Rc = Success | NoConn | ConnLost | QueueSize | Protocol

  datatype Config = Config(maxInflight: nat, maxQueued: nat, manualAck: bool)

  /** `order` and `table` are the insertion-ordered dictionary of outgoing messages.
      `accepted`, `completed`, `delivered`, `released`, `sent` and `sentBefore` are history: how many messages
      were accepted, which were removed by an acknowledgement, what was handed to on_message,
      how many PUBRELs released a message since the last reset, every PUBLISH of an outgoing
      message that was put on a connection, and how many of these were before the last reset. */
  datatype Session = Session(
    config: Config,
    order: seq<nat>,
    table: map<nat, Msg>,
    inbox: map<nat, InMsg>,
    inflight: int,
    lastMid: nat,
    link: Link,
    outPacket: seq<Packet>,
    accepted: nat,
    completed: seq<Msg>,
    delivered: seq<InMsg>,
    released: nat,
    sent: seq<Packet>,
    sentBefore: nat)

  function Fresh(config: Config): Session {
    Session(config, [], map[], map[], 0, 0, Down, [], 0, [], [], 0, [], 0)
  }

  predicate Keyed(s: Session) {
    forall k :: k in s.order ==> k in s.table
  }

  // ---------- packet identifiers ----------

  function NextMid(last: nat): (mid: nat)
    ensures last < 65536 ==> 1 <= mid < 65536 && mid != last
  {
    if last + 1 == 65536 then 1 else last + 1
  }

  /** The identifier that comes `n` identifiers later. */
  function MidAfter(last: nat, n: nat): nat {
    if n == 0 then last else NextMid(MidAfter(last, n - 1))
  }

  /** The identifiers go round through all of 1 to 65535. */
  lemma {:induction false} MidsGoRound(last: nat, n: nat)
    requires last < 65536 && last + n > 0
    ensures MidAfter(last, n) == (last + n - 1) % 65535 + 1
  {
    hide NextMid;
    if n == 0 {
      InRound(last - 1);
    } else if last + n == 1 {
      FirstMid();
    } else {
      MidsGoRound(last, n - 1);
      NextInRound(last + n - 2);
    }
  }

  lemma InRound(a: nat)
    ensures a < 65535 ==> a % 65535 == a
  {
  }

  lemma FirstMid()
    ensures MidAfter(0, 1) == 1
  {
    assert MidAfter(0, 0) == 0;
  }

  lemma NextInRound(a: nat)
    ensures NextMid(a % 65535 + 1) == (a + 1) % 65535 + 1
  {
    var q, r := a / 65535, a % 65535;
    assert a == q * 65535 + r;
    assert (a + 1) / 65535 == if r + 1 < 65535 then q else q + 1;
  }

  /** Any 65535 identifiers given one after the other are different, and then the first one comes again. */
  lemma MidsDiffer(last: nat, i: nat, j: nat)
    requires last < 65536 && 0 < i < j
    ensures j - i < 65535 ==> MidAfter(last, i) != MidAfter(last, j)
    ensures j - i == 65535 ==> MidAfter(last, i) == MidAfter(last, j)
  {
    hide InTurn, MidAfter;
    MidIs(last, i);
    MidIs(last, j);
    Apart(last + i - 1, last + j - 1);
  }

  /** The place of an identifier in the round. */
  function InTurn(a: nat): nat {
    a % 65535
  }

  lemma MidIs(last: nat, n: nat)
    requires last < 65536 && n > 0
    ensures MidAfter(last, n) == InTurn(last + n - 1) + 1
  {
    hide MidAfter;
    MidsGoRound(last, n);
  }

  lemma Apart(a: nat, b: nat)
    requires a < b
    ensures b - a <= 65535 ==> (InTurn(b) == InTurn(a) <==> b - a == 65535)
  {
    if b - a <= 65535 {
      var q, r := a / 65535, a % 65535;
      assert a == q * 65535 + r;
      assert b / 65535 == if r + (b - a) < 65535 then q else if r + (b - a) < 131070 then q + 1 else q + 2;
    }
  }

  // ---------- sending ----------

  /** One attempt to write to the socket finds no connection, breaks it, or uses up one of its writes. */
  predicate Attempt(link: Link, after: Link, rc: Rc) {
    match link
    case Down => after == Down && rc == NoConn
    case Up(n) => if n == 0 then after == Down && rc == ConnLost else after == Up(n - 1) && rc == Success
  }

  function FirstState(qos: nat): MessageState {
    if qos == 1 then WaitForPuback else WaitForPubrec
  }

  function PublishOf(mid: nat, m: Msg): Packet {
    Publish(mid, m.qos, m.dup, m.body)
  }

  /** One attempt to write to the socket; a failing write closes it. */
  function LoopWrite(s: Session): (Session, Rc) {
    match s.link
    case Down => (s, NoConn)
    case Up(n) => if n == 0 then (s.(link := Down), ConnLost) else (s.(link := Up(n - 1)), Success)
  }

  /** Append a packet; outside of a callback the socket is written at once. */
  function PacketQueue(s: Session, p: Packet, inCallback: bool): (Session, Rc) {
    var q := s.(outPacket := s.outPacket + [p]);
    if inCallback then (q, Success) else LoopWrite(q)
  }

  function SendPublish(s: Session, mid: nat, m: Msg, inCallback: bool): (Session, Rc) {
    if s.link.Down? then (s, NoConn)
    else PacketQueue(s.(sent := s.sent + [PublishOf(mid, m)]), PublishOf(mid, m), inCallback)
  }

  function SetState(s: Session, mid: nat, state: MessageState): Session
    requires mid in s.table
  {
    s.(table := s.table[mid := s.table[mid].(state := state)])
  }

  function Count(s: Session, change: int): Session {
    s.(inflight := s.inflight + change)
  }

  /** Put one message in flight: count it, give it its waiting state and send it. */
  function Start(s: Session, mid: nat, inCallback: bool): (r: (Session, Rc))
    requires mid in s.table
    ensures r.0.order == s.order && r.0.table.Keys == s.table.Keys
  {
    var s1 := SetState(Count(s, 1), mid, FirstState(s.table[mid].qos));
    SendPublish(s1, mid, s1.table[mid], inCallback)
  }

  // ---------- publishing ----------

  function Accept(s: Session, mid: nat, qos: nat, state: MessageState): Session {
    s.(order := s.order + [mid],
       table := s.table[mid := Msg(s.accepted, qos, state, false)],
       accepted := s.accepted + 1)
  }

  function PublishMessage(s: Session, qos: nat): (r: (Session, Rc))
    ensures Keyed(s) ==> Keyed(r.0)
  {
    var mid := NextMid(s.lastMid);
    var s1 := s.(lastMid := mid);
    if s.config.maxQueued > 0 && |s.order| >= s.config.maxQueued then (s1, QueueSize)
    else if mid in s.table then (s1, QueueSize)
    else if s.config.maxInflight == 0 || s.inflight < s.config.maxInflight then
      var (s2, rc) := Start(Accept(s1, mid, qos, Queued), mid, false);
      if rc.NoConn? then (Accept(s1, mid, qos, ReadyToPublish), rc) else (s2, rc)
    else
      (Accept(s1, mid, qos, Queued), Success)
  }

  /** A QoS 0 message is sent at once or not at all, and never enters the table. */
  function PublishPlain(s: Session, body: nat): (Session, Rc) {
    var mid := NextMid(s.lastMid);
    var s1 := s.(lastMid := mid);
    if s.link.Down? then (s1, NoConn) else PacketQueue(s1, Publish(mid, 0, false, body), false)
  }

  /** The limit on messages is reached, or the identifier is still in use. */
  predicate Refuses(s: Session, qos: nat, mid: nat) {
    qos > 0 && ((s.config.maxQueued > 0 && |s.order| >= s.config.maxQueued) || mid in s.table)
  }

  /** The window has room, or the message does not count. */
  predicate SendsNow(s: Session, qos: nat) {
    qos == 0 || s.config.maxInflight == 0 || s.inflight < s.config.maxInflight
  }

  /** What publish() makes of `s`: a message that is not refused is sent when the window has room and there is a
      connection, and one of QoS 1 or 2 is in the table in any case. */
  predicate Submits(s: Session, qos: nat, plain: nat, mid: nat, t: Session, rc: Rc) {
    && t.lastMid == mid && (rc == QueueSize <==> Refuses(s, qos, mid))
    && var sends := SendsNow(s, qos) && !Refuses(s, qos, mid);
    && (if sends then Attempt(s.link, t.link, rc) else t.link == s.link && rc in {Success, QueueSize})
    && t.outPacket == s.outPacket
         + (if sends && s.link.Up? then [Publish(mid, qos, false, if qos == 0 then plain else s.accepted)] else [])
    && (if qos == 0 || Refuses(s, qos, mid) then t.table == s.table && t.order == s.order
        else
          var state := if !sends then Queued else if s.link.Down? then ReadyToPublish
                       else if qos == 1 then WaitForPuback else WaitForPubrec;
          t.order == s.order + [mid] && t.table == s.table[mid := Msg(s.accepted, qos, state, false)])
  }

  lemma PublishSubmits(s: Session, qos: nat, plain: nat)
    ensures var (t, rc) := if qos == 0 then PublishPlain(s, plain) else PublishMessage(s, qos);
      Submits(s, qos, plain, NextMid(s.lastMid), t, rc)
  {
    var mid := NextMid(s.lastMid);
    if qos > 0 && !Refuses(s, qos, mid) && SendsNow(s, qos) {
      StartIs(Accept(s.(lastMid := mid), mid, qos, Queued), mid);
      hide Start;
    }
  }

  lemma StartIs(s: Session, mid: nat)
    requires mid in s.table
    ensures var (t, rc) := Start(s, mid, false); var m := s.table[mid].(state := FirstState(s.table[mid].qos));
      && Attempt(s.link, t.link, rc) && t.lastMid == s.lastMid && t.order == s.order && t.table == s.table[mid := m]
      && t.outPacket == s.outPacket + if s.link.Up? then [PublishOf(mid, m)] else []
  {
  }

  /** Start queued messages, oldest first, while the window has room. */
  function UpdateInflight(s: Session, i: nat): (r: (Session, Rc))
    requires Keyed(s)
    ensures r.0.order == s.order && r.0.table.Keys == s.table.Keys
    decreases |s.order| - i
  {
    if i >= |s.order| || s.inflight >= s.config.maxInflight then (s, Success)
    else if s.table[s.order[i]].state.Queued? then
      var (s1, rc) := Start(s, s.order[i], false);
      if rc.Success? then UpdateInflight(s1, i + 1) else (s1, rc)
    else UpdateInflight(s, i + 1)
  }

  function Refill(s: Session): (r: (Session, Rc))
    requires Keyed(s)
    ensures r.0.order == s.order && r.0.table.Keys == s.table.Keys
  {
    if s.config.maxInflight > 0 then UpdateInflight(s, 0) else (s, Success)
  }

  // ---------- acknowledgements of outgoing messages ----------

  function Without(order: seq<nat>, mid: nat): (r: seq<nat>)
    ensures forall k :: k in r ==> k in order && k != mid
    ensures forall k :: k in order && k != mid ==> k in r
  {
    if order == [] then []
    else if order[0] == mid then Without(order[1..], mid)
    else [order[0]] + Without(order[1..], mid)
  }

  function Complete(s: Session, mid: nat): (r: Session)
    requires Keyed(s) && mid in s.table
    ensures Keyed(r)
  {
    s.(order := Without(s.order, mid),
       table := s.table - {mid},
       completed := s.completed + [s.table[mid]],
       inflight := s.inflight - 1)
  }

  function HandlePubackcomp(s: Session, mid: nat): (r: (Session, Rc))
    requires Keyed(s)
    ensures Keyed(r.0)
  {
    if mid in s.table then Refill(Complete(s, mid)) else (s, Success)
  }

  function HandlePubrec(s: Session, mid: nat): (r: (Session, Rc))
    ensures Keyed(s) ==> Keyed(r.0)
  {
    if mid in s.table then
      PacketQueue(SetState(s, mid, WaitForPubcomp), Pubrel(mid), false)
    else (s, Success)
  }

  // ---------- incoming messages ----------

  function Deliver(s: Session, m: InMsg): Session {
    s.(delivered := s.delivered + [m])
  }

  function HandlePublish(s: Session, mid: nat, qos: nat, body: nat): (r: (Session, Rc))
    ensures Keyed(s) ==> Keyed(r.0)
  {
    var m := InMsg(mid, qos, body);
    if qos == 0 then (Deliver(s, m), Success)
    else if qos == 1 then
      if s.config.manualAck then (Deliver(s, m), Success)
      else PacketQueue(Deliver(s, m), Puback(mid), false)
    else if qos == 2 then
      var (s1, rc) := PacketQueue(s, Pubrec(mid), false);
      (s1.(inbox := s1.inbox[mid := m]), rc)
    else (s, Protocol)
  }

  function Release(s: Session, mid: nat): Session
    requires mid in s.inbox
  {
    Deliver(s, s.inbox[mid]).(inbox := s.inbox - {mid}, inflight := s.inflight - 1, released := s.released + 1)
  }

  function HandlePubrel(s: Session, mid: nat): (r: (Session, Rc))
    requires Keyed(s)
    ensures Keyed(r.0)
  {
    var (s1, rc) := if mid in s.inbox then Refill(Release(s, mid)) else (s, Success);
    if !rc.Success? then (s1, rc)
    else if s.config.manualAck then (s1, Success)
    else PacketQueue(s1, Pubcomp(mid), false)
  }

  /** The application acknowledges a message by itself. */
  function Ack(s: Session, mid: nat, qos: nat): (Session, Rc) {
    if s.config.manualAck && qos == 1 then PacketQueue(s, Puback(mid), false)
    else if s.config.manualAck && qos == 2 then PacketQueue(s, Pubcomp(mid), false)
    else (s, Success)
  }

  // ---------- reconnection ----------

  function ResetMsg(m: Msg, clean: bool): Msg {
    if m.qos == 1 then
      Msg(m.body, m.qos, ReadyToPublish, m.dup || m.state.WaitForPuback?)
    else if clean then
      Msg(m.body, m.qos, ReadyToPublish, m.dup || !m.state.ReadyToPublish?)
    else if m.state.WaitForPubcomp? then
      m.(state := ResendPubrel)
    else
      Msg(m.body, m.qos, ReadyToPublish, m.dup || m.state.WaitForPubrec?)
  }

  function ResetTable(table: map<nat, Msg>, clean: bool): map<nat, Msg> {
    map k | k in table :: ResetMsg(table[k], clean)
  }

  function ResetOut(s: Session, clean: bool): Session {
    s.(table := ResetTable(s.table, clean), inflight := 0, released := 0, sentBefore := |s.sent|)
  }

  function ResetIn(s: Session, clean: bool): Session {
    if clean then s.(inbox := map[])
    else s.(inbox := map k | k in s.inbox && s.inbox[k].qos == 2 :: s.inbox[k])
  }

  /** Close the old socket, drop what was not written, reset the message states and, when a
      new socket could be opened, send CONNECT. */
  function Reconnect(s: Session, clean: bool, link: Link): (r: Session)
    ensures Keyed(s) ==> Keyed(r)
  {
    var s1 := ResetIn(ResetOut(s.(link := Down, outPacket := []), clean), clean).(link := link);
    if link.Down? then s1 else PacketQueue(s1, Connect(clean), false).0
  }

  /** The resend loop of an accepted CONNACK, from position `i` of the table on. */
  function HandleConnack(s: Session, i: nat): (r: (Session, Rc))
    requires Keyed(s)
    ensures r.0.order == s.order && r.0.table.Keys == s.table.Keys
    decreases |s.order| - i
  {
    if i >= |s.order| then (s, Success)
    else
      var mid := s.order[i];
      var m := s.table[mid];
      if m.state.Queued? then (LoopWrite(s).0, Success)
      else if m.state.ReadyToPublish? then
        var (s1, rc) := Start(s, mid, true);
        if rc.Success? then HandleConnack(LoopWrite(s1).0, i + 1) else (s1, rc)
      else if m.qos == 2 && m.state.ResendPubrel? then
        HandleConnack(LoopWrite(ResumePubrel(s, mid)).0, i + 1)
      else
        HandleConnack(LoopWrite(s).0, i + 1)
  }

  function ResumePubrel(s: Session, mid: nat): (r: Session)
    requires mid in s.table
    ensures r.order == s.order && r.table.Keys == s.table.Keys
  {
    PacketQueue(SetState(Count(s, 1), mid, WaitForPubcomp), Pubrel(mid), true).0
  }

  function HandlePacket(s: Session, p: Packet): (r: (Session, Rc))
    requires Keyed(s)
    ensures Keyed(r.0)
  {
    match p
    case Connack => HandleConnack(s, 0)
    case Publish(mid, qos, _, body) => HandlePublish(s, mid, qos, body)
    case Puback(mid) => HandlePubackcomp(s, mid)
    case Pubrec(mid) => HandlePubrec(s, mid)
    case Pubrel(mid) => HandlePubrel(s, mid)
    case Pubcomp(mid) => HandlePubackcomp(s, mid)
    case Connect(_) => (s, Protocol)
  }
}
