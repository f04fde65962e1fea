/** An induction principle for the steps of the session: what every single move of the table and the log
    keeps is kept by handling a packet and by publishing. */
module Moves {
  import opened QosSession
  import opened Network
  import Loops

  /** The table and the logs are those of `c`. */
  predicate SameLog(c: Session, c1: Session) {
    c1.table == c.table && c1.order == c.order && c1.sent == c.sent && c1.accepted == c.accepted
  }

  ghost predicate KeptByRest(P: Session -> bool) {
    forall c: Session, c1: Session :: P(c) && SameLog(c, c1) ==> P(c1)
  }

  ghost predicate KeptByPubrec(P: Session -> bool) {
    forall c: Session, mid :: P(c) && mid in c.table ==> P(SetState(c, mid, WaitForPubcomp))
  }

  ghost predicate KeptByComplete(P: Session -> bool) {
    forall c: Session, mid :: P(c) && Keyed(c) && mid in c.table ==> P(Complete(c, mid))
  }

  ghost predicate KeptByAccept(P: Session -> bool) {
    forall c: Session, mid, qos, state ::
      P(c) && mid !in c.table && (state == Queued || state == ReadyToPublish) ==> P(Accept(c, mid, qos, state))
  }

  ghost predicate KeptByMoves(P: Session -> bool) {
    && Loops.KeptByStart(P, false) && Loops.KeptByStart(P, true)
    && KeptByRest(P) && KeptByPubrec(P) && KeptByComplete(P) && KeptByAccept(P)
  }

  lemma RestKeeps(P: Session -> bool, c: Session, c1: Session)
    requires KeptByMoves(P) && P(c) && SameLog(c, c1)
    ensures P(c1)
  {
  }

  lemma ResumeKeeps(P: Session -> bool)
    requires KeptByMoves(P)
    ensures Loops.KeptByResume(P)
  {
    hide SetState;
    forall c: Session, mid | P(c) && mid in c.table && c.table[mid].qos == 2 && c.table[mid].state.ResendPubrel?
      ensures P(ResumePubrel(c, mid))
    {
      assert SameLog(c, Count(c, 1));
      var c2 := SetState(Count(c, 1), mid, WaitForPubcomp);
      assert P(c2);
      assert SameLog(c2, ResumePubrel(c, mid));
    }
  }

  lemma WriteKeeps(P: Session -> bool)
    requires KeptByMoves(P)
    ensures Loops.KeptByWrite(P)
  {
    forall c: Session | P(c) ensures P(LoopWrite(c).0) {
      assert SameLog(c, LoopWrite(c).0);
    }
  }

  lemma RefillKeeps(P: Session -> bool, c: Session)
    requires KeptByMoves(P) && Keyed(c) && P(c)
    ensures P(Refill(c).0)
  {
    hide UpdateInflight, KeptByRest, KeptByPubrec, KeptByComplete, KeptByAccept;
    if c.config.maxInflight > 0 {
      Loops.UpdateInflightKeeps(P, c, 0);
    }
  }

  lemma CompletionKeeps(P: Session -> bool, c: Session, mid: nat)
    requires KeptByMoves(P) && Keyed(c) && P(c)
    ensures P(HandlePubackcomp(c, mid).0)
  {
    hide Refill, Loops.KeptByStart, KeptByRest, KeptByPubrec, KeptByAccept;
    if mid in c.table {
      RefillKeeps(P, Complete(c, mid));
    }
  }

  lemma PubrecKeeps(P: Session -> bool, c: Session, mid: nat)
    requires KeptByMoves(P) && P(c)
    ensures P(HandlePubrec(c, mid).0)
  {
    hide SetState, Loops.KeptByStart, KeptByComplete, KeptByAccept, KeptByRest;
    if mid in c.table {
      assert P(SetState(c, mid, WaitForPubcomp));
      RestKeeps(P, SetState(c, mid, WaitForPubcomp), HandlePubrec(c, mid).0);
    }
  }

  lemma PubrelKeeps(P: Session -> bool, c: Session, mid: nat)
    requires KeptByMoves(P) && Keyed(c) && P(c)
    ensures P(HandlePubrel(c, mid).0)
  {
    hide Refill, KeptByMoves;
    var c1 := c;
    if mid in c.inbox {
      RestKeeps(P, c, Release(c, mid));
      RefillKeeps(P, Release(c, mid));
      c1 := Refill(Release(c, mid)).0;
    }
    RestKeeps(P, c1, HandlePubrel(c, mid).0);
  }

  lemma ConnackKeeps(P: Session -> bool, c: Session)
    requires KeptByMoves(P) && Keyed(c) && P(c)
    ensures P(HandleConnack(c, 0).0)
  {
    ResumeKeeps(P);
    WriteKeeps(P);
    hide HandleConnack, KeptByRest, KeptByPubrec, KeptByComplete, KeptByAccept;
    Loops.ConnackKeeps(P, c, 0);
  }

  lemma ProcessKeeps(P: Session -> bool, c: Session, p: Packet)
    requires KeptByMoves(P) && Keyed(c) && P(c)
    ensures P(Process(c, p))
  {
    hide KeptByMoves, HandlePacket;
    HandleKeeps(P, c, p);
    RestKeeps(P, HandlePacket(c, p).0, Process(c, p));
  }

  lemma HandleKeeps(P: Session -> bool, c: Session, p: Packet)
    requires KeptByMoves(P) && Keyed(c) && P(c)
    ensures P(HandlePacket(c, p).0)
  {
    hide KeptByMoves, HandleConnack, HandlePubackcomp, HandlePubrec, HandlePubrel, HandlePublish;
    match p
    case Connack => ConnackKeeps(P, c);
    case Puback(mid) => CompletionKeeps(P, c, mid);
    case Pubcomp(mid) => CompletionKeeps(P, c, mid);
    case Pubrec(mid) => PubrecKeeps(P, c, mid);
    case Pubrel(mid) => PubrelKeeps(P, c, mid);
    case Publish(mid, qos, _, body) => DeliveryKeeps(P, c, mid, qos, body);
    case Connect(_) =>
  }

  lemma DeliveryKeeps(P: Session -> bool, c: Session, mid: nat, qos: nat, body: nat)
    requires KeptByMoves(P) && P(c)
    ensures P(HandlePublish(c, mid, qos, body).0)
  {
    hide KeptByMoves;
    RestKeeps(P, c, HandlePublish(c, mid, qos, body).0);
  }

  lemma PublishKeeps(P: Session -> bool, c: Session, qos: nat)
    requires KeptByMoves(P) && P(c)
    ensures P(PublishMessage(c, qos).0)
  {
    hide KeptByRest, KeptByPubrec, KeptByComplete, Start, Accept;
    var mid := NextMid(c.lastMid);
    var c1 := c.(lastMid := mid);
    RestKeeps(P, c, c1);
    if mid !in c.table {
      var c2 := Accept(c1, mid, qos, Queued);
      assert P(c2) && P(Accept(c1, mid, qos, ReadyToPublish));
      Accepted(c1, mid, qos);
      assert P(Start(c2, mid, false).0);
    }
  }

  lemma Accepted(c: Session, mid: nat, qos: nat)
    ensures mid in Accept(c, mid, qos, Queued).table && Accept(c, mid, qos, Queued).table[mid].state.Queued?
  {
  }
}
