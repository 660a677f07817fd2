/**
  Where an event is, in every reachable state: no crash, disconnect, timeout, redelivery or
  retry loses a confirmed message, and when one is settled without its event having been
  processed.
*/
module Conservation {
  import opened Delivery
  import opened DeliverySafety

  // ---------------------------------------------------------------- where a copy stands

  ghost predicate CopyOf(s: State, k: nat, e: EventId) {
    k < |s.copies| && s.copies[k].event == e
  }

  ghost predicate InQueue(p: Place) { p.Primary? || p.RetryQueue? || p.DeadLetter? }

  /** In a queue, or with a handler. */
  ghost predicate Live(s: State, k: nat, e: EventId) {
    CopyOf(s, k, e) && (InQueue(s.copies[k].place) || s.copies[k].place.Unacked?)
  }

  /** Acknowledged with the verdict "processed" or "duplicate". */
  ghost predicate AckedAs(s: State, k: nat, e: EventId) {
    CopyOf(s, k, e) && (s.copies[k].place == Settled(AsProcessed) || s.copies[k].place == Settled(AsDuplicate))
  }

  /** Settled by an ack frame that meant another delivery. */
  ghost predicate MisackedCopy(s: State, k: nat, e: EventId) {
    CopyOf(s, k, e) && s.copies[k].place == Settled(Misacked)
  }

  /** In a queue, or with a handler that has not sent its replacement yet. */
  ghost predicate Standing(s: State, k: nat, e: EventId) {
    && CopyOf(s, k, e)
    && (InQueue(s.copies[k].place)
        || (s.copies[k].place.Unacked? && s.copies[k].place.act < |s.acts|
            && !s.acts[s.copies[k].place.act].handler.Republished?))
  }

  ghost predicate Accounted(s: State, k: nat, e: EventId) { Standing(s, k, e) || AckedAs(s, k, e) }

  ghost predicate Conserving(s: State) {
    forall e | e in s.routed && (forall k: nat :: !MisackedCopy(s, k, e)) :: exists k: nat :: Accounted(s, k, e)
  }

  /** One step: the copy that accounts for `e` still does, or the one that replaced it, or it was misacked. */
  lemma AccountedStep(c: int, s: State, step: Step, k: nat, e: EventId)
    requires Deliveries(s) && Enabled(s, step) && Accounted(s, k, e)
    ensures var s' := Apply(c, s, step);
      Accounted(s', k, e) || Accounted(s', |s.copies|, e) || MisackedCopy(s', k, e)
  {
    if s.copies[k].place.Unacked? { InHandStep(c, s, step, k, e); } else { AtRestStep(c, s, step, k, e); }
  }

  lemma AtRestStep(c: int, s: State, step: Step, k: nat, e: EventId)
    requires Enabled(s, step) && Accounted(s, k, e) && !s.copies[k].place.Unacked?
    ensures Accounted(Apply(c, s, step), k, e)
  {
  }

  lemma InHandStep(c: int, s: State, step: Step, k: nat, e: EventId)
    requires Deliveries(s) && Enabled(s, step) && Standing(s, k, e) && s.copies[k].place.Unacked?
    ensures var s' := Apply(c, s, step);
      Accounted(s', k, e) || Accounted(s', |s.copies|, e) || MisackedCopy(s', k, e)
  {
    assert Outstanding(s, k);
    if step.AckOwn? || step.AckOther? { AckStep(c, s, step, k, e); }
  }

  lemma AckStep(c: int, s: State, step: Step, k: nat, e: EventId)
    requires Enabled(s, step) && Standing(s, k, e) && s.copies[k].place.Unacked? && Outstanding(s, k)
    requires step.AckOwn? || step.AckOther?
    ensures Accounted(Apply(c, s, step), k, e) || MisackedCopy(Apply(c, s, step), k, e)
  {
  }

  /** A misacked copy stays so. */
  lemma MisackedStays(c: int, s: State, step: Step, k: nat, e: EventId)
    requires Enabled(s, step) && MisackedCopy(s, k, e)
    ensures MisackedCopy(Apply(c, s, step), k, e)
  {
  }

  lemma ConservingStep(c: int, s: State, step: Step)
    requires Conserving(s) && Deliveries(s) && Enabled(s, step)
    ensures Conserving(Apply(c, s, step))
  {
    var s' := Apply(c, s, step);
    forall e | e in s'.routed && (forall k: nat :: !MisackedCopy(s', k, e))
      ensures exists k: nat :: Accounted(s', k, e)
    {
      if e in s.routed {
        forall k: nat ensures !MisackedCopy(s, k, e) {
          if MisackedCopy(s, k, e) { MisackedStays(c, s, step, k, e); }
        }
        var k: nat :| Accounted(s, k, e);
        AccountedStep(c, s, step, k, e);
      } else {
        assert Accounted(s', |s.copies|, e);
      }
    }
  }

  // ---------------------------------------------------------------- no event dropped unprocessed

  /** In a queue, or with a handler that will not settle it as "duplicate" or "replaced". */
  ghost predicate Firm(s: State, k: nat, e: EventId) {
    && CopyOf(s, k, e)
    && (InQueue(s.copies[k].place)
        || (s.copies[k].place.Unacked? && s.copies[k].place.act < |s.acts|
            && (s.acts[s.copies[k].place.act].handler.Waiting? || s.acts[s.copies[k].place.act].handler.Requeueing?)))
  }

  ghost predicate StrayedOn(s: State, a: nat, e: EventId) {
    a < |s.acts| && s.acts[a].event == e && s.acts[a].strayed
  }

  /** No activation of `e` ever held its claim beyond its delivery, and no copy of `e` was misacked. */
  ghost predicate Clean(s: State, e: EventId) {
    (forall a: nat :: !StrayedOn(s, a, e)) && (forall k: nat :: !MisackedCopy(s, k, e))
  }

  ghost predicate Kept(s: State, e: EventId) {
    (exists k: nat :: Firm(s, k, e)) || (exists a: nat :: Completer(s, a, e))
  }

  ghost predicate Keeping(s: State) {
    forall e | e in s.routed && Clean(s, e) :: Kept(s, e)
  }

  lemma StrayedStays(c: int, s: State, step: Step, a: nat, e: EventId)
    requires Enabled(s, step) && StrayedOn(s, a, e)
    ensures StrayedOn(Apply(c, s, step), a, e)
  {
  }

  lemma CompleterStays(c: int, s: State, step: Step, a: nat, e: EventId)
    requires Enabled(s, step) && Completer(s, a, e)
    ensures Completer(Apply(c, s, step), a, e)
  {
  }

  /** The handler of copy `k` learns that the event of `k` is a duplicate. */
  ghost predicate FindsDuplicate(s: State, step: Step, k: nat) {
    && step.InsertClaim? && IsAct(s, step.act)
    && s.acts[step.act].copy == k && s.acts[step.act].event in s.claims
  }

  /** The handler of copy `k` learns that the event of `k` is processed. */
  ghost predicate FindsProcessed(s: State, step: Step, k: nat) {
    step.UpdateEnds? && IsAct(s, step.act) && s.acts[step.act].copy == k
  }

  lemma QueuedStep(c: int, s: State, step: Step, k: nat, e: EventId)
    requires Enabled(s, step) && CopyOf(s, k, e) && InQueue(s.copies[k].place)
    ensures Firm(Apply(c, s, step), k, e)
  {
  }

  lemma HandledStep(c: int, s: State, step: Step, k: nat, e: EventId)
    requires Deliveries(s) && Enabled(s, step) && Firm(s, k, e) && s.copies[k].place.Unacked?
    requires !FindsDuplicate(s, step, k) && !FindsProcessed(s, step, k)
    ensures var s' := Apply(c, s, step);
      Firm(s', k, e) || Firm(s', |s.copies|, e) || MisackedCopy(s', k, e)
  {
    assert Outstanding(s, k);
    if step.AckOwn? || step.AckOther? { HandledAck(c, s, step, k, e); }
    else if step.Republish? { HandledRepublish(c, s, step.act, k, e); }
    else { HandledOtherwise(c, s, step, k, e); }
  }

  lemma HandledRepublish(c: int, s: State, a: nat, k: nat, e: EventId)
    requires Deliveries(s) && Enabled(s, Republish(a)) && Firm(s, k, e) && s.copies[k].place.Unacked?
    ensures Firm(Apply(c, s, Republish(a)), k, e) || Firm(Apply(c, s, Republish(a)), |s.copies|, e)
  {
    assert Outstanding(s, k) && ActRefs(s, a);
  }

  lemma HandledOtherwise(c: int, s: State, step: Step, k: nat, e: EventId)
    requires Enabled(s, step) && Firm(s, k, e) && s.copies[k].place.Unacked? && Outstanding(s, k)
    requires !FindsDuplicate(s, step, k) && !FindsProcessed(s, step, k)
    requires !step.AckOwn? && !step.AckOther? && !step.Republish?
    ensures Firm(Apply(c, s, step), k, e)
  {
  }

  lemma HandledAck(c: int, s: State, step: Step, k: nat, e: EventId)
    requires Enabled(s, step) && Firm(s, k, e) && s.copies[k].place.Unacked? && Outstanding(s, k)
    requires step.AckOwn? || step.AckOther?
    ensures Firm(Apply(c, s, step), k, e) || MisackedCopy(Apply(c, s, step), k, e)
  {
  }

  /**
    The hard case: a copy is about to be settled as a duplicate, so the claim holder must still answer
    for the event.
  */
  lemma DuplicateIsBacked(c: int, s: State, a: nat, e: EventId)
    requires Deliveries(s) && Claims(s) && Enabled(s, InsertClaim(a)) && s.acts[a].event == e && e in s.claims
    requires Clean(s, e)
    ensures Kept(Apply(c, s, InsertClaim(a)), e)
  {
    var s' := Apply(c, s, InsertClaim(a));
    assert ClaimOwned(s, e);
    var o := s.claims[e].owner;
    assert ActClaims(s, o) && ActRefs(s, o) && !StrayedOn(s, o, e);
    if Holding(s.acts[o].phase) {
      assert Firm(s', s.acts[o].copy, e);
    } else {
      assert Completer(s', o, e);
    }
  }

  lemma KeptStep(c: int, s: State, step: Step, e: EventId)
    requires Deliveries(s) && Claims(s) && Enabled(s, step)
    requires Kept(s, e) && Clean(s, e) && Clean(Apply(c, s, step), e)
    ensures Kept(Apply(c, s, step), e)
  {
    var s' := Apply(c, s, step);
    if a: nat :| Completer(s, a, e) {
      CompleterStays(c, s, step, a, e);
    } else {
      var k: nat :| Firm(s, k, e);
      if FindsDuplicate(s, step, k) {
        assert ActRefs(s, step.act);
        DuplicateIsBacked(c, s, step.act, e);
      } else if FindsProcessed(s, step, k) {
        assert ActRefs(s, step.act);
        assert Completer(s', step.act, e);
      } else {
        if InQueue(s.copies[k].place) {
          QueuedStep(c, s, step, k, e);
        } else {
          HandledStep(c, s, step, k, e);
        }
      }
    }
  }

  lemma CleanBefore(c: int, s: State, step: Step, e: EventId)
    requires Enabled(s, step) && Clean(Apply(c, s, step), e)
    ensures Clean(s, e)
  {
    forall a: nat ensures !StrayedOn(s, a, e) {
      if StrayedOn(s, a, e) { StrayedStays(c, s, step, a, e); }
    }
    forall k: nat ensures !MisackedCopy(s, k, e) {
      if MisackedCopy(s, k, e) { MisackedStays(c, s, step, k, e); }
    }
  }

  lemma KeepingStep(c: int, s: State, step: Step)
    requires Keeping(s) && Deliveries(s) && Claims(s) && Enabled(s, step)
    ensures Keeping(Apply(c, s, step))
  {
    var s' := Apply(c, s, step);
    forall e | e in s'.routed && Clean(s', e) ensures Kept(s', e) {
      CleanBefore(c, s, step, e);
      if e in s.routed {
        KeptStep(c, s, step, e);
      } else {
        assert Firm(s', |s.copies|, e);
      }
    }
  }
}
