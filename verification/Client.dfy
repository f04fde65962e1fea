/** The client object: its methods update the message table in place and compute the steps of
    module `QosSession`. */
module ClientObject {
  import opened QosSession
  import opened Conservation
  import opened Resend

  /** An outgoing message together with the handle its publisher waits on. */
  class Message {
    const mid: nat
    const body: nat
    const qos: nat
    var state: MessageState
    var dup: bool
    var published: bool

    constructor (mid: nat, body: nat, qos: nat)
      ensures this.mid == mid && this.body == body && this.qos == qos
      ensures state == Queued && !dup && !published
    {
      this.mid, this.body, this.qos := mid, body, qos;
      state, dup, published := Queued, false, false;
    }

    function Value(): Msg
      reads `state, `dup
    {
      Msg(body, qos, state, dup)
    }
  }

  class Client {
    const config: Config
    var outOrder: seq<nat>
    var outMessages: map<nat, Message>
    var inMessages: map<nat, InMsg>
    var inflightMessages: int
    var lastMid: nat
    var link: Link
    var outPacket: seq<Packet>
    var accepted: nat
    var delivered: seq<InMsg>
    ghost var completed: seq<Msg>
    ghost var released: nat
    ghost var sent: seq<Packet>
    ghost var sentBefore: nat
    /** What publish() returned for each accepted message, in the order of acceptance. */
    ghost var handles: seq<Message>

    constructor (config: Config)
      ensures Valid() && Model() == Fresh(config) && handles == []
    {
      this.config := config;
      outOrder, outMessages, inMessages := [], map[], map[];
      inflightMessages, lastMid, link, outPacket := 0, 0, Down, [];
      accepted, delivered, completed, released := 0, [], [], 0;
      sent, sentBefore, handles := [], 0, [];
    }

    ghost predicate Valid()
      reads `outOrder, `outMessages, `inMessages, `accepted, `completed, `handles, handles`published
    {
      Filed() && Tracked()
    }

    /** Each message is filed under its own identifier. */
    ghost predicate Filed()
      reads `outOrder, `outMessages, `inMessages
    {
      Files(outOrder, outMessages) && (forall k :: k in inMessages ==> inMessages[k].qos == 2 && inMessages[k].mid == k)
    }

    ghost predicate Tracked()
      reads `outMessages, `accepted, `completed, `handles, handles`published
    {
      |handles| == accepted && Follows(outMessages, handles, Published(), completed)
    }

    ghost function Published(): set<Message>
      reads `handles, handles`published
    {
      set m | m in handles && m.published
    }

    ghost function Table(): map<nat, Msg>
      reads `outMessages, outMessages.Values`state, outMessages.Values`dup
    {
      map k | k in outMessages :: outMessages[k].Value()
    }

    ghost function Model(): Session
      reads this, outMessages.Values`state, outMessages.Values`dup
    {
      Session(config, outOrder, Table(), inMessages, inflightMessages, lastMid, link, outPacket,
              accepted, completed, delivered, released, sent, sentBefore)
    }

    lemma At(k: nat)
      ensures k in Model().table <==> k in outMessages
      ensures k in outMessages ==> Model().table[k] == outMessages[k].Value()
    {
    }

    lemma Fields()
      requires Valid()
      ensures Keyed(Model())
      ensures Model().config == config && Model().order == outOrder && Model().inbox == inMessages
      ensures Model().inflight == inflightMessages && Model().link == link && Model().accepted == accepted
      ensures Model().lastMid == lastMid && Model().completed == completed
      ensures forall k :: k in outOrder <==> k in outMessages
      ensures forall k :: k in outMessages ==> outMessages[k].mid == k && outMessages[k].qos <= 2
    {
    }

    /** The publisher of message `b` is released exactly when an acknowledgement has removed the
        message from the table; until then its own handle stands there. */
    lemma PublishedExactly(b: nat)
      requires Valid() && b < accepted
      ensures handles[b].published <==> InCompleted(Model().completed, b)
      ensures handles[b].published <==> !InTable(Model(), b)
      ensures handles[b].published <==> handles[b] !in outMessages.Values
    {
      var m := handles[b];
      assert m.published <==> m in Published();
      if InTable(Model(), b) {
        var k :| k in Model().table && Model().table[k].body == b;
        assert outMessages[k] == m;
      }
      if !m.published {
        assert Model().table[m.mid].body == b && outMessages[m.mid] == m;
      }
    }

    lemma Unpublished()
      requires Valid()
      ensures Keyed(Model())
      ensures forall k :: k in outMessages ==> !outMessages[k].published
    {
      Fields();
      forall k | k in outMessages ensures !outMessages[k].published {
        assert outMessages[k] in handles && outMessages[k] !in Published();
      }
    }

    method AddInflight(change: int)
      requires Valid()
      modifies this`inflightMessages
      ensures Valid() && Model() == Count(old(Model()), change)
    {
      hide Tracked, Files, Table;
      inflightMessages := inflightMessages + change;
    }

    method MidGenerate() returns (mid: nat)
      requires Valid()
      modifies this`lastMid
      ensures Valid() && Model() == old(Model()).(lastMid := mid) && mid == NextMid(old(lastMid))
    {
      hide Tracked, Files, Table;
      lastMid := lastMid + 1;
      if lastMid == 65536 {
        lastMid := 1;
      }
      mid := lastMid;
    }

    method Write() returns (rc: Rc)
      requires Valid()
      modifies this`link
      ensures Valid() && (Model(), rc) == LoopWrite(old(Model())) && Attempt(old(link), link, rc)
    {
      hide Valid, Table;
      match link
      case Down => rc := NoConn;
      case Up(n) =>
        if n == 0 {
          link, rc := Down, ConnLost;
        } else {
          link, rc := Up(n - 1), Success;
        }
    }

    method Queue(p: Packet, inCallback: bool) returns (rc: Rc)
      requires Valid()
      modifies this`link, this`outPacket
      ensures Valid() && (Model(), rc) == PacketQueue(old(Model()), p, inCallback)
      ensures outPacket == old(outPacket) + [p]
      ensures if inCallback then link == old(link) && rc == Success else Attempt(old(link), link, rc)
    {
      hide Valid, Table, LoopWrite;
      outPacket := outPacket + [p];
      if inCallback {
        rc := Success;
      } else {
        rc := Write();
      }
    }

    method SendMessage(m: Message, inCallback: bool) returns (rc: Rc)
      requires Valid() && m.mid in outMessages && outMessages[m.mid] == m
      modifies this`link, this`outPacket, this`sent
      ensures Valid() && (Model(), rc) == SendPublish(old(Model()), m.mid, old(Model()).table[m.mid], inCallback)
    {
      hide Tracked, Files, PacketQueue;
      if link.Down? {
        return NoConn;
      }
      sent := sent + [Publish(m.mid, m.qos, m.dup, m.body)];
      rc := Queue(Publish(m.mid, m.qos, m.dup, m.body), inCallback);
    }

    method SetMessageState(m: Message, state: MessageState)
      requires Valid() && m.mid in outMessages && outMessages[m.mid] == m
      modifies m`state
      ensures Valid() && m.state == state && Model() == SetState(old(Model()), m.mid, state)
    {
      m.state := state;
      assert Table() == old(Table())[m.mid := m.Value()];
    }

    /** Count a message of the table, give it its waiting state and send it. */
    method StartMessage(m: Message, inCallback: bool) returns (rc: Rc)
      requires Valid() && m.mid in outMessages && outMessages[m.mid] == m
      modifies this`link, this`outPacket, this`sent, this`inflightMessages, m`state
      ensures Valid() && (Model(), rc) == Start(old(Model()), m.mid, inCallback)
    {
      hide Model, Valid, SendPublish, Count, SetState;
      At(m.mid);
      AddInflight(1);
      if m.qos == 1 {
        SetMessageState(m, WaitForPuback);
      } else {
        SetMessageState(m, WaitForPubrec);
      }
      rc := SendMessage(m, inCallback);
    }

    method Insert(message: Message)
      requires Valid() && message.mid !in outMessages && 1 <= message.qos <= 2
      requires message.body == accepted && message.state == Queued && !message.dup && !message.published
      modifies this`outOrder, this`outMessages, this`accepted, this`handles
      ensures Valid() && Model() == Accept(old(Model()), message.mid, message.qos, Queued)
      ensures outMessages == old(outMessages)[message.mid := message] && handles == old(handles) + [message]
    {
      hide Follows, Files;
      FilesInsert(outOrder, outMessages, message);
      FollowsInsert(outMessages, handles, Published(), completed, message);
      outOrder := outOrder + [message.mid];
      outMessages := outMessages[message.mid := message];
      accepted := accepted + 1;
      handles := handles + [message];
      assert Table() == old(Table())[message.mid := message.Value()];
      assert Published() == old(Published());
    }

    /** publish() behind its argument checks: send a QoS 0 message, with `plain` for what it carries;
        refuse, start, or queue the others. An accepted one is in the table as the handle returned. */
    method PublishBody(qos: nat, plain: nat) returns (rc: Rc, message: Message)
      requires Valid() && qos <= 2
      modifies this
      ensures Valid()
      ensures (Model(), rc) == if qos == 0 then PublishPlain(old(Model()), plain) else PublishMessage(old(Model()), qos)
      ensures Submits(old(Model()), qos, plain, message.mid, Model(), rc)
      ensures qos == 0 ==> (rc == NoConn <==> old(link).Down?)
      ensures qos == 0 && old(link).Up? ==> outPacket == old(outPacket) + [Publish(message.mid, 0, false, plain)]
      ensures fresh(message) && !message.published && message.qos == qos
      ensures outMessages == if qos == 0 || rc == QueueSize then old(outMessages)
                             else old(outMessages)[message.mid := message]
      ensures handles == if qos == 0 || rc == QueueSize then old(handles) else old(handles) + [message]
      ensures qos > 0 && rc != QueueSize ==> message.mid !in old(outMessages) && message.body == old(accepted)
    {
      hide Model, Valid, Start, Accept, SetState, Count, PacketQueue, Submits;
      Fields();
      PublishSubmits(Model(), qos, plain);
      var mid := MidGenerate();
      Fields();
      if qos == 0 {
        message := new Message(mid, plain, qos);
        if link.Down? {
          return NoConn, message;
        }
        rc := Queue(Publish(mid, 0, false, plain), false);
        return;
      }
      message := new Message(mid, accepted, qos);
      At(mid);
      ghost var before := Model();
      if config.maxQueued > 0 && |outOrder| >= config.maxQueued {
        return QueueSize, message;
      }
      if mid in outMessages {
        return QueueSize, message;
      }
      Insert(message);
      if config.maxInflight == 0 || inflightMessages < config.maxInflight {
        At(mid);
        StartNeverFull(Model(), mid, false);
        rc := StartMessage(message, false);
        if rc == NoConn {
          NotSent(before, mid, qos);
          AddInflight(-1);
          SetMessageState(message, ReadyToPublish);
        }
      } else {
        rc := Success;
      }
    }

    /** _update_inflight: start queued messages while the window has room. */
    method RefillWindow() returns (rc: Rc)
      requires Valid()
      modifies this`link, this`outPacket, this`sent, this`inflightMessages, outMessages.Values`state
      ensures Valid() && (Model(), rc) == UpdateInflight(old(Model()), 0)
    {
      hide Model, Valid, Start;
      Fields();
      var i := 0;
      while i < |outOrder|
        invariant 0 <= i <= |outOrder| && Valid() && Keyed(Model())
        invariant UpdateInflight(Model(), i) == UpdateInflight(old(Model()), 0)
      {
        Fields();
        var m := outMessages[outOrder[i]];
        At(m.mid);
        if inflightMessages < config.maxInflight {
          if m.state.Queued? {
            rc := StartMessage(m, false);
            if rc != Success {
              return;
            }
            Fields();
          }
        } else {
          return Success;
        }
        i := i + 1;
      }
      rc := Success;
    }

    /** The acknowledged message leaves the table, its publisher is told, and it no longer counts
        as in flight. */
    method Finish(message: Message)
      requires Valid() && message.mid in outMessages && outMessages[message.mid] == message
      modifies this`outOrder, this`outMessages, this`completed, this`inflightMessages, message`published
      ensures Valid() && Model() == Complete(old(Model()), message.mid)
      ensures outMessages == old(outMessages) - {message.mid} && message.published
    {
      hide Follows, Files, InCompleted;
      FilesFinish(outOrder, outMessages, message.mid);
      ghost var value := message.Value();
      FollowsFinish(outMessages, handles, Published(), completed, message, value);
      completed := completed + [value];
      inflightMessages := inflightMessages - 1;
      Unfile(message);
    }

    /** Out of the table, and its handle is marked. */
    method Unfile(message: Message)
      requires message.mid in outMessages && outMessages[message.mid] == message && message in handles
      modifies this`outOrder, this`outMessages, message`published
      ensures outOrder == Without(old(outOrder), message.mid) && outMessages == old(outMessages) - {message.mid}
      ensures message.published && Published() == old(Published()) + {message}
      ensures Table() == old(Table()) - {message.mid}
    {
      outOrder := Without(outOrder, message.mid);
      outMessages := outMessages - {message.mid};
      message.published := true;
    }

    /** _do_on_publish and _handle_pubackcomp. */
    method Acknowledge(mid: nat) returns (rc: Rc)
      requires Valid()
      modifies this, outMessages.Values
      ensures Valid() && (Model(), rc) == HandlePubackcomp(old(Model()), mid)
      ensures mid in old(outMessages) ==> old(outMessages[mid]).published
      ensures outMessages == old(outMessages) - {mid} && handles == old(handles)
    {
      hide Model, Valid, UpdateInflight, Complete;
      Fields();
      At(mid);
      if mid !in outMessages {
        return Success;
      }
      Finish(outMessages[mid]);
      Fields();
      if config.maxInflight > 0 {
        rc := RefillWindow();
      } else {
        rc := Success;
      }
    }

    method ReceivePubrec(mid: nat) returns (rc: Rc)
      requires Valid()
      modifies this`link, this`outPacket, outMessages.Values`state
      ensures Valid() && (Model(), rc) == HandlePubrec(old(Model()), mid)
      ensures outPacket == old(outPacket) + if mid in outMessages then [Pubrel(mid)] else []
      ensures if mid in outMessages then Attempt(old(link), link, rc) else link == old(link) && rc == Success
    {
      hide Tracked, Files, SetState, PacketQueue, Table;
      Fields();
      At(mid);
      if mid in outMessages {
        SetMessageState(outMessages[mid], WaitForPubcomp);
        rc := Queue(Pubrel(mid), false);
      } else {
        rc := Success;
      }
    }

    method ReceivePublish(mid: nat, qos: nat, body: nat) returns (rc: Rc)
      requires Valid()
      modifies this`link, this`outPacket, this`delivered, this`inMessages
      ensures Valid() && (Model(), rc) == HandlePublish(old(Model()), mid, qos, body)
      ensures qos == 2 || (qos == 1 && !config.manualAck) ==>
        && outPacket == old(outPacket) + [if qos == 1 then Puback(mid) else Pubrec(mid)]
        && Attempt(old(link), link, rc)
      ensures !(qos == 2 || (qos == 1 && !config.manualAck)) ==>
        && outPacket == old(outPacket) && link == old(link)
        && rc == if qos > 2 then Protocol else Success
    {
      hide Tracked, Files, PacketQueue, Table;
      var message := InMsg(mid, qos, body);
      if qos == 0 {
        delivered := delivered + [message];
        rc := Success;
      } else if qos == 1 {
        delivered := delivered + [message];
        if config.manualAck {
          rc := Success;
        } else {
          rc := Queue(Puback(mid), false);
        }
      } else if qos == 2 {
        rc := Queue(Pubrec(mid), false);
        inMessages := inMessages[mid := message];
      } else {
        rc := Protocol;
      }
    }

    method ReceivePubrel(mid: nat) returns (rc: Rc)
      requires Valid()
      modifies this, outMessages.Values`state
      ensures Valid() && (Model(), rc) == HandlePubrel(old(Model()), mid)
      ensures mid !in old(inMessages) && !config.manualAck ==>
        outPacket == old(outPacket) + [Pubcomp(mid)] && Attempt(old(link), link, rc)
      ensures outMessages == old(outMessages) && handles == old(handles)
    {
      hide Tracked, Files, PacketQueue, Table, UpdateInflight;
      if mid in inMessages {
        var message := inMessages[mid];
        inMessages := inMessages - {mid};
        delivered := delivered + [message];
        inflightMessages := inflightMessages - 1;
        released := released + 1;
        assert Model() == Release(old(Model()), mid);
        if config.maxInflight > 0 {
          rc := RefillWindow();
          if rc != Success {
            return;
          }
        }
      }
      if config.manualAck {
        rc := Success;
      } else {
        rc := Queue(Pubcomp(mid), false);
      }
    }

    /** ack() */
    method Ack(mid: nat, qos: nat) returns (rc: Rc)
      requires Valid()
      modifies this`link, this`outPacket
      ensures Valid() && (Model(), rc) == QosSession.Ack(old(Model()), mid, qos)
      ensures config.manualAck && 1 <= qos <= 2 ==>
        && outPacket == old(outPacket) + [if qos == 1 then Puback(mid) else Pubcomp(mid)]
        && Attempt(old(link), link, rc)
      ensures !config.manualAck || !(1 <= qos <= 2) ==>
        outPacket == old(outPacket) && link == old(link) && rc == Success
    {
      hide Valid, Model, PacketQueue;
      Fields();
      if config.manualAck {
        if qos == 1 {
          rc := Queue(Puback(mid), false);
          return;
        } else if qos == 2 {
          rc := Queue(Pubcomp(mid), false);
          return;
        }
      }
      rc := Success;
    }

    method ResetMessage(m: Message, clean: bool)
      modifies m`state, m`dup
      ensures m.Value() == ResetMsg(old(m.Value()), clean)
    {
      if m.qos == 1 {
        if m.state.WaitForPuback? {
          m.dup := true;
        }
        m.state := ReadyToPublish;
      } else {
        if clean {
          if !m.state.ReadyToPublish? {
            m.dup := true;
          }
          m.state := ReadyToPublish;
        } else if m.state.WaitForPubcomp? {
          m.state := ResendPubrel;
        } else {
          if m.state.WaitForPubrec? {
            m.dup := true;
          }
          m.state := ReadyToPublish;
        }
      }
    }

    /** The counter is not raised while the messages are visited, so the branch that would
        queue some of them is never taken. */
    method ResetMessages(clean: bool)
      requires Valid() && inflightMessages == 0
      modifies outMessages.Values`state, outMessages.Values`dup
      ensures Valid() && Table() == ResetTable(old(Table()), clean)
    {
      hide ResetMsg, Tracked;
      var i := 0;
      while i < |outOrder|
        invariant 0 <= i <= |outOrder| && Valid()
        invariant forall j :: 0 <= j < i ==>
          outMessages[outOrder[j]].Value() == ResetMsg(old(outMessages[outOrder[j]].Value()), clean)
        invariant forall j :: i <= j < |outOrder| ==>
          outMessages[outOrder[j]].Value() == old(outMessages[outOrder[j]].Value())
      {
        if config.maxInflight == 0 || inflightMessages < config.maxInflight {
          ResetMessage(outMessages[outOrder[i]], clean);
        } else {
          assert false;
        }
        i := i + 1;
      }
      forall k | k in outMessages ensures outMessages[k].Value() == ResetMsg(old(outMessages[k].Value()), clean) {
        var j :| 0 <= j < |outOrder| && outOrder[j] == k;
      }
    }

    /** _messages_reconnect_reset_out */
    method ResetOutgoing(clean: bool)
      requires Valid()
      modifies this`inflightMessages, this`released, this`sentBefore
      modifies outMessages.Values`state, outMessages.Values`dup
      ensures Valid() && Model() == ResetOut(old(Model()), clean)
    {
      hide Table, Tracked, Files, ResetTable;
      inflightMessages := 0;
      released := 0;
      sentBefore := |sent|;
      ResetMessages(clean);
    }

    /** _messages_reconnect_reset_in: a kept session keeps every half-received message. */
    method ResetIncoming(clean: bool)
      requires Valid()
      modifies this`inMessages
      ensures Valid() && Model() == ResetIn(old(Model()), clean)
    {
      if clean {
        inMessages := map[];
      }
      assert Model().inbox == ResetIn(old(Model()), clean).inbox;
    }

    method SetLink(newLink: Link)
      requires Valid()
      modifies this`link
      ensures Valid() && link == newLink && Model() == old(Model()).(link := newLink)
    {
      hide Valid, Table;
      link := newLink;
    }

    method ClearOutPacket()
      requires Valid()
      modifies this`outPacket
      ensures Valid() && Model() == old(Model()).(outPacket := [])
    {
      hide Valid, Table;
      outPacket := [];
    }

    /** reconnect(), with a kept or a clean session, to a new socket or to none. */
    method Reopen(clean: bool, newLink: Link)
      requires Valid()
      modifies this, outMessages.Values`state, outMessages.Values`dup
      ensures Valid() && Model() == Reconnect(old(Model()), clean, newLink)
      ensures outMessages == old(outMessages) && handles == old(handles)
    {
      hide Model, Valid, ResetOut, ResetIn, PacketQueue;
      SetLink(Down);
      ClearOutPacket();
      ResetOutgoing(clean);
      ResetIncoming(clean);
      SetLink(newLink);
      if link.Up? {
        var _ := Queue(Connect(clean), false);
      }
    }

    /** The resend loop of _handle_connack. */
    method ReceiveConnack() returns (rc: Rc)
      requires Valid()
      modifies this`link, this`outPacket, this`sent, this`inflightMessages, outMessages.Values`state
      ensures Valid() && (Model(), rc) == HandleConnack(old(Model()), 0)
    {
      hide Model, Valid, Start, LoopWrite, PacketQueue, SetState, Count;
      Fields();
      var i := 0;
      while i < |outOrder|
        invariant 0 <= i <= |outOrder| && Valid() && Keyed(Model())
        invariant HandleConnack(Model(), i) == HandleConnack(old(Model()), 0)
      {
        Fields();
        var m := outMessages[outOrder[i]];
        At(m.mid);
        if m.state.Queued? {
          var _ := Write();
          return Success;
        }
        if m.state.ReadyToPublish? {
          rc := StartMessage(m, true);
          if rc != Success {
            return;
          }
        } else if m.qos == 2 && m.state.ResendPubrel? {
          AddInflight(1);
          SetMessageState(m, WaitForPubcomp);
          rc := Queue(Pubrel(m.mid), true);
        }
        var _ := Write();
        Fields();
        i := i + 1;
      }
      rc := Success;
    }

    /** Dispatch on the packet type. */
    method Receive(p: Packet) returns (rc: Rc)
      requires Valid()
      modifies this, outMessages.Values
      ensures Valid() && (Model(), rc) == HandlePacket(old(Model()), p) && handles == old(handles)
      ensures outMessages == if p.Puback? || p.Pubcomp? then old(outMessages) - {p.mid} else old(outMessages)
      ensures forall k :: k in old(outMessages) ==> (old(outMessages)[k].published <==> k !in outMessages)
    {
      hide Model, Valid, HandleConnack, HandlePublish, HandlePubackcomp, HandlePubrec, HandlePubrel;
      Unpublished();
      match p {
        case Connack => rc := ReceiveConnack();
        case Publish(mid, qos, _, body) => rc := ReceivePublish(mid, qos, body);
        case Puback(mid) => rc := Acknowledge(mid);
        case Pubrec(mid) => rc := ReceivePubrec(mid);
        case Pubrel(mid) => rc := ReceivePubrel(mid);
        case Pubcomp(mid) => rc := Acknowledge(mid);
        case Connect(_) => rc := Protocol;
      }
      Unpublished();
    }
  }

  ghost predicate Files(order: seq<nat>, table: map<nat, Message>) {
    && (forall k :: k in order <==> k in table)
    && Distinct(order)
    && (forall k :: k in table ==> table[k].mid == k && 1 <= table[k].qos <= 2)
  }

  lemma FilesInsert(order: seq<nat>, table: map<nat, Message>, m: Message)
    requires Files(order, table) && m.mid !in table && 1 <= m.qos <= 2
    ensures Files(order + [m.mid], table[m.mid := m])
  {
  }

  lemma FilesFinish(order: seq<nat>, table: map<nat, Message>, mid: nat)
    requires Files(order, table) && mid in table
    ensures Files(Without(order, mid), table - {mid})
    ensures forall k :: k in table ==> table[k].mid == k
  {
    WithoutDistinct(order, mid);
  }

  /** Each entry of the table is the handle its publisher waits on, and a handle is marked published
      when an acknowledgement has removed its message, and not before. */
  ghost predicate Follows(table: map<nat, Message>, handles: seq<Message>, published: set<Message>,
        completed: seq<Msg>)
  {
    && (forall k :: k in table ==>
          table[k].body < |handles| && handles[table[k].body] == table[k] && table[k] !in published)
    && (forall b :: 0 <= b < |handles| ==>
          && handles[b].body == b
          && (handles[b] in published <==> InCompleted(completed, b))
          && (handles[b] !in published ==> handles[b].mid in table && table[handles[b].mid] == handles[b]))
    && (forall b: nat :: InCompleted(completed, b) ==> b < |handles|)
  }

  lemma FollowsInsert(table: map<nat, Message>, handles: seq<Message>, published: set<Message>, completed: seq<Msg>,
        m: Message)
    requires Follows(table, handles, published, completed)
    requires m.mid !in table && m.body == |handles| && m !in published
    ensures Follows(table[m.mid := m], handles + [m], published, completed)
  {
    hide InCompleted;
  }

  lemma FollowsFinish(table: map<nat, Message>, handles: seq<Message>, published: set<Message>, completed: seq<Msg>,
        m: Message, value: Msg)
    requires Follows(table, handles, published, completed)
    requires m.mid in table && table[m.mid] == m && value.body == m.body
    requires forall k :: k in table ==> table[k].mid == k
    ensures Follows(table - {m.mid}, handles, published + {m}, completed + [value])
    ensures m in handles
  {
    CompletedMore(completed, value);
    hide InCompleted;
  }

  lemma StartNeverFull(s: Session, mid: nat, inCallback: bool)
    requires mid in s.table
    ensures !Start(s, mid, inCallback).1.QueueSize?
  {
  }

  lemma CompletedMore(completed: seq<Msg>, m: Msg)
    ensures forall b: nat :: InCompleted(completed + [m], b) <==> InCompleted(completed, b) || b == m.body
  {
    forall b: nat ensures InCompleted(completed + [m], b) <==> InCompleted(completed, b) || b == m.body {
      assert (completed + [m])[|completed|].body == m.body;
      if InCompleted(completed, b) {
        var i :| 0 <= i < |completed| && completed[i].body == b;
        assert (completed + [m])[i].body == b;
      }
    }
  }

  /** A message that could not be sent is left as if it had only been accepted. */
  lemma NotSent(s: Session, mid: nat, qos: nat)
    requires Start(Accept(s, mid, qos, Queued), mid, false).1.NoConn?
    ensures SetState(Count(Start(Accept(s, mid, qos, Queued), mid, false).0, -1), mid, ReadyToPublish)
         == Accept(s, mid, qos, ReadyToPublish)
  {
  }
}
