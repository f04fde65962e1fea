/** Induction principles for the two loops over the table of outgoing messages: a property
    kept by each single move of a loop is kept by the loop. */
module Loops {
  import opened QosSession

  ghost predicate KeptByStart(P: Session -> bool, inCallback: bool) {
    forall c: Session, mid ::
      P(c) && mid in c.table && (c.table[mid].state.Queued? || c.table[mid].state.ReadyToPublish?)
      ==> P(Start(c, mid, inCallback).0)
  }

  ghost predicate KeptByResume(P: Session -> bool) {
    forall c: Session, mid ::
      P(c) && mid in c.table && c.table[mid].qos == 2 && c.table[mid].state.ResendPubrel?
      ==> P(ResumePubrel(c, mid))
  }

  ghost predicate KeptByWrite(P: Session -> bool) {
    forall c: Session :: P(c) ==> P(LoopWrite(c).0)
  }

  lemma {:induction false} UpdateInflightKeeps(P: Session -> bool, c: Session, i: nat)
    requires Keyed(c) && P(c)
    requires KeptByStart(P, false)
    ensures P(UpdateInflight(c, i).0)
    decreases |c.order| - i
  {
    if i < |c.order| && c.inflight < c.config.maxInflight {
      if c.table[c.order[i]].state.Queued? {
        UpdateInflightKeeps(P, Start(c, c.order[i], false).0, i + 1);
      } else {
        UpdateInflightKeeps(P, c, i + 1);
      }
    }
  }

  lemma {:induction false} ConnackKeeps(P: Session -> bool, c: Session, i: nat)
    requires Keyed(c) && P(c)
    requires KeptByStart(P, true) && KeptByResume(P) && KeptByWrite(P)
    ensures P(HandleConnack(c, i).0)
    decreases |c.order| - i
  {
    if i < |c.order| {
      var mid := c.order[i];
      if c.table[mid].state.Queued? {
      } else if c.table[mid].state.ReadyToPublish? {
        ConnackKeeps(P, LoopWrite(Start(c, mid, true).0).0, i + 1);
      } else if c.table[mid].qos == 2 && c.table[mid].state.ResendPubrel? {
        ConnackKeeps(P, LoopWrite(ResumePubrel(c, mid)).0, i + 1);
      } else {
        ConnackKeeps(P, LoopWrite(c).0, i + 1);
      }
    }
  }
}
