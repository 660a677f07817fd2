/**
  What every step of the broker and the workers keeps.
*/
module DeliverySafety {
  import opened Delivery

  /** References are in range, and channel generations only grow. */
  ghost predicate ActRefs(s: State, a: nat)
    requires a < |s.acts|
  {
    && IsAct(s, a)
    && s.acts[a].event == s.copies[s.acts[a].copy].event
    && s.acts[a].gen <= Home(s, a).gen
    && (s.acts[a].handler.Republished? ==> s.acts[a].gen <= s.acts[a].handler.onGen <= Home(s, a).gen)
  }

  /** An unacknowledged copy is the delivery of a live handler on the current channel. */
  ghost predicate Outstanding(s: State, k: nat)
    requires k < |s.copies| && s.copies[k].place.Unacked?
  {
    var a := s.copies[k].place.act;
    && IsAct(s, a)
    && s.acts[a].copy == k
    && Home(s, a).up
    && s.acts[a].gen == Home(s, a).gen
    && !s.acts[a].handler.Finished?
  }

  ghost predicate Deliveries(s: State) {
    && (forall a | 0 <= a < |s.acts| :: ActRefs(s, a))
    && (forall k | 0 <= k < |s.copies| && s.copies[k].place.Unacked? :: Outstanding(s, k))
  }

  /**
    A claim row belongs to one activation of its event: one at work, the one that completed it, or one
    that left it behind.
  */
  ghost predicate ClaimOwned(s: State, e: EventId)
    requires e in s.claims
  {
    var o := s.claims[e].owner;
    && o < |s.acts|
    && s.acts[o].event == e
    && (|| Holding(s.acts[o].phase)
        || (s.acts[o].phase == Returned(Processed) && s.claims[e].completed)
        || (s.acts[o].strayed && (s.acts[o].phase.Threw? || s.acts[o].phase.Crashed?)))
  }

  ghost predicate OwnsClaim(s: State, a: nat)
    requires a < |s.acts|
  {
    s.acts[a].event in s.claims && s.claims[s.acts[a].event].owner == a
  }

  ghost predicate ActClaims(s: State, a: nat)
    requires a < |s.acts|
  {
    var x := s.acts[a];
    && (Holding(x.phase) || x.phase == Returned(Processed) ==> OwnsClaim(s, a))
    && (x.handler.Waiting? ==> Unsettled(x.phase))
    && (x.handler.Acking? ==> x.phase == Returned(x.handler.verdict))
    && (Holding(x.phase) && !x.strayed ==> IsAct(s, a) && x.handler.Waiting? && HasDelivery(s, a))
  }

  ghost predicate Claims(s: State) {
    && (forall e | e in s.claims :: ClaimOwned(s, e))
    && (forall a | 0 <= a < |s.acts| :: ActClaims(s, a))
  }

  // ---------------------------------------------------------------- deliveries

  /** It is enough to look at one activation and one copy at a time. */
  lemma DeliveriesFrom(s: State, s': State)
    requires Deliveries(s)
    requires forall a | 0 <= a < |s'.acts| && (a < |s.acts| ==> ActRefs(s, a)) :: ActRefs(s', a)
    requires forall k | 0 <= k < |s'.copies| && s'.copies[k].place.Unacked?
      && (k < |s.copies| && s.copies[k].place.Unacked? ==> Outstanding(s, k)) :: Outstanding(s', k)
    ensures Deliveries(s')
  {
  }

  lemma BrokerDeliveries(c: int, s: State, step: Step)
    requires Deliveries(s) && Enabled(s, step)
    requires step.Arrive? || step.BindQueue? || step.Connect? || step.RetryExpires?
    ensures Deliveries(Apply(c, s, step))
  {
    DeliveriesFrom(s, Apply(c, s, step));
  }

  lemma LossDeliveries(c: int, s: State, step: Step)
    requires Deliveries(s) && Enabled(s, step) && (step.Disconnect? || step.Crash? || step.AckUnknown?)
    ensures Deliveries(Apply(c, s, step))
  {
    DeliveriesFrom(s, Apply(c, s, step));
  }

  lemma DeliverDeliveries(c: int, s: State, w: nat, k: nat)
    requires Deliveries(s) && Enabled(s, Deliver(w, k))
    ensures Deliveries(Apply(c, s, Deliver(w, k)))
  {
    DeliveriesFrom(s, Apply(c, s, Deliver(w, k)));
  }

  /** What `acts[a]` may turn into without disturbing any delivery. */
  ghost predicate SameRefs(s: State, a: nat, x: Activation)
    requires IsAct(s, a)
  {
    var y := s.acts[a];
    && x.worker == y.worker && x.gen == y.gen && x.copy == y.copy && x.event == y.event
    && (x.handler.Republished? ==> x.handler == y.handler || x.handler.onGen == Home(s, a).gen)
    && (x.handler.Finished? ==> y.handler.Finished? || !HasDelivery(s, a))
  }

  /** One activation changes, and copies that are not outstanding may come, go or be settled. */
  lemma OneActDeliveries(s: State, a: nat, s': State)
    requires Deliveries(s) && IsAct(s, a) && s'.workers == s.workers && |s.copies| <= |s'.copies|
    requires a < |s'.acts| && s'.acts == s.acts[a := s'.acts[a]]
    requires forall k | 0 <= k < |s'.copies| ::
      if k < |s.copies| then
        s'.copies[k].event == s.copies[k].event && (s'.copies[k] == s.copies[k] || !s'.copies[k].place.Unacked?)
      else !s'.copies[k].place.Unacked?
    requires s'.acts[a].handler.Finished? && HasDelivery(s, a) ==> !s'.copies[s.acts[a].copy].place.Unacked?
    requires SameRefs(s, a,
      if HasDelivery(s, a) && s'.acts[a].handler.Finished? then s'.acts[a].(handler := s.acts[a].handler)
      else s'.acts[a])
    ensures Deliveries(s')
  {
    assert ActRefs(s, a);
    DeliveriesFrom(s, s');
  }

  lemma ActDeliveries(c: int, s: State, step: Step)
    requires Deliveries(s) && Enabled(s, step) && ByAct(step) && !step.AckOther? && !step.AckUnknown?
    ensures Deliveries(Apply(c, s, step))
  {
    assert ActRefs(s, step.act);
    assert HasDelivery(s, step.act) ==> Outstanding(s, s.acts[step.act].copy);
    OneActDeliveries(s, step.act, Apply(c, s, step));
  }

  lemma AckOtherDeliveries(c: int, s: State, a: nat, b: nat)
    requires Deliveries(s) && Enabled(s, AckOther(a, b))
    ensures Deliveries(Apply(c, s, AckOther(a, b)))
  {
    assert HasDelivery(s, a) ==> Outstanding(s, s.acts[a].copy);
    DeliveriesFrom(s, Apply(c, s, AckOther(a, b)));
  }

  /** A step of one activation. */
  predicate ByAct(step: Step) {
    !(step.Arrive? || step.BindQueue? || step.Connect? || step.Disconnect? || step.Crash? || step.Deliver?
      || step.RetryExpires?)
  }

  lemma DeliveriesStep(c: int, s: State, step: Step)
    requires Deliveries(s) && Enabled(s, step)
    ensures Deliveries(Apply(c, s, step))
  {
    match step
    case Disconnect(_) => LossDeliveries(c, s, step);
    case Crash(_) => LossDeliveries(c, s, step);
    case AckUnknown(_) => LossDeliveries(c, s, step);
    case Deliver(w, k) => DeliverDeliveries(c, s, w, k);
    case AckOther(a, b) => AckOtherDeliveries(c, s, a, b);
    case _ => if ByAct(step) { ActDeliveries(c, s, step); } else { BrokerDeliveries(c, s, step); }
  }

  // ---------------------------------------------------------------- claims

  /** It is enough to look at one row and one activation at a time. */
  lemma ClaimsFrom(s: State, s': State)
    requires Claims(s) && Deliveries(s)
    requires forall e | e in s'.claims && (e in s.claims ==> ClaimOwned(s, e)) :: ClaimOwned(s', e)
    requires forall b | 0 <= b < |s'.acts| && (b < |s.acts| ==> ActClaims(s, b) && ActRefs(s, b)) :: ActClaims(s', b)
    ensures Claims(s')
  {
  }

  lemma BrokerClaims(c: int, s: State, step: Step)
    requires Claims(s) && Deliveries(s) && Enabled(s, step)
    requires step.Arrive? || step.BindQueue? || step.Connect? || step.RetryExpires? || step.Deliver?
    ensures Claims(Apply(c, s, step))
  {
    if step.Deliver? { DeliverClaims(c, s, step); } else { ClaimsFrom(s, Apply(c, s, step)); }
  }

  lemma DeliverClaims(c: int, s: State, step: Step)
    requires Claims(s) && Deliveries(s) && Enabled(s, step) && step.Deliver?
    ensures Claims(Apply(c, s, step))
  {
    ClaimsFrom(s, Apply(c, s, step));
  }

  lemma LossClaims(c: int, s: State, step: Step)
    requires Claims(s) && Deliveries(s) && Enabled(s, step) && (step.Disconnect? || step.Crash? || step.AckUnknown?)
    ensures Claims(Apply(c, s, step))
  {
    ClaimsFrom(s, Apply(c, s, step));
  }

  lemma InsertClaims(c: int, s: State, step: Step)
    requires Claims(s) && Deliveries(s) && Enabled(s, step) && (step.InsertClaim?)
    ensures Claims(Apply(c, s, step))
  {
    assert ActClaims(s, step.act) && ActRefs(s, step.act);
    ClaimsFrom(s, Apply(c, s, step));
  }

  lemma InsertThrowsClaims(c: int, s: State, step: Step)
    requires Claims(s) && Deliveries(s) && Enabled(s, step) && (step.InsertThrows?)
    ensures Claims(Apply(c, s, step))
  {
    assert ActClaims(s, step.act) && ActRefs(s, step.act);
    ClaimsFrom(s, Apply(c, s, step));
  }

  lemma WorkClaims(c: int, s: State, step: Step)
    requires Claims(s) && Deliveries(s) && Enabled(s, step) && (step.WorkEnds? || step.UpdateThrows?)
    ensures Claims(Apply(c, s, step))
  {
    assert ActClaims(s, step.act) && ActRefs(s, step.act);
    ClaimsFrom(s, Apply(c, s, step));
  }

  lemma EndClaims(c: int, s: State, step: Step)
    requires Claims(s) && Deliveries(s) && Enabled(s, step) && (step.UpdateEnds? || step.DeleteEnds?)
    ensures Claims(Apply(c, s, step))
  {
    assert ActClaims(s, step.act) && ActRefs(s, step.act);
    ClaimsFrom(s, Apply(c, s, step));
  }

  lemma HandlerClaims(c: int, s: State, step: Step)
    requires Claims(s) && Deliveries(s) && Enabled(s, step) && (step.TimerFires? || step.Republish? || step.GiveUp?)
    ensures Claims(Apply(c, s, step))
  {
    assert ActClaims(s, step.act) && ActRefs(s, step.act);
    ClaimsFrom(s, Apply(c, s, step));
  }

  lemma AckClaims(c: int, s: State, step: Step)
    requires Claims(s) && Deliveries(s) && Enabled(s, step) && (step.AckOwn? || step.AckOther?)
    ensures Claims(Apply(c, s, step))
  {
    assert ActClaims(s, step.act) && ActRefs(s, step.act);
    ClaimsFrom(s, Apply(c, s, step));
  }

  lemma ClaimsStep(c: int, s: State, step: Step)
    requires Claims(s) && Deliveries(s) && Enabled(s, step)
    ensures Claims(Apply(c, s, step))
  {
    match step
    case Disconnect(_) => LossClaims(c, s, step);
    case Crash(_) => LossClaims(c, s, step);
    case AckUnknown(_) => LossClaims(c, s, step);
    case InsertClaim(_) => InsertClaims(c, s, step);
    case InsertThrows(_, _) => InsertThrowsClaims(c, s, step);
    case WorkEnds(_, _) => WorkClaims(c, s, step);
    case UpdateEnds(_) => EndClaims(c, s, step);
    case UpdateThrows(_, _) => WorkClaims(c, s, step);
    case DeleteEnds(_, _) => EndClaims(c, s, step);
    case AckOwn(_) => AckClaims(c, s, step);
    case AckOther(_, _) => AckClaims(c, s, step);
    case _ => if ByAct(step) { HandlerClaims(c, s, step); } else { BrokerClaims(c, s, step); }
  }

  // ---------------------------------------------------------------- who holds a claim

  ghost predicate Holder(s: State, a: nat, e: EventId) {
    a < |s.acts| && s.acts[a].event == e && Holding(s.acts[a].phase)
  }

  ghost predicate Completer(s: State, a: nat, e: EventId) {
    a < |s.acts| && s.acts[a].event == e && s.acts[a].phase == Returned(Processed)
  }

  /** The row of `e` was left by an activation that is over without having completed it. */
  ghost predicate Orphaned(s: State, e: EventId) {
    && e in s.claims
    && s.claims[e].owner < |s.acts|
    && s.acts[s.claims[e].owner].event == e
    && (s.acts[s.claims[e].owner].phase.Threw? || s.acts[s.claims[e].owner].phase.Crashed?)
  }

  /** No two activations ever return "processed" for one event; no two hold its claim. */
  lemma AtMostOneProcessed(s: State, a: nat, b: nat, e: EventId)
    requires Claims(s)
    requires Completer(s, a, e) || Holder(s, a, e)
    requires Completer(s, b, e) || Holder(s, b, e)
    ensures a == b
  {
    assert ActClaims(s, a) && ActClaims(s, b);
  }

  /** A `processed_events` row exists iff exactly one of: active holder, completed, orphaned. */
  lemma ClaimTrichotomy(s: State, e: EventId)
    requires Claims(s)
    ensures e in s.claims <==>
      (exists a :: Holder(s, a, e)) || (exists a :: Completer(s, a, e)) || Orphaned(s, e)
    ensures !((exists a :: Holder(s, a, e)) && (exists a :: Completer(s, a, e)))
    ensures !((exists a :: Holder(s, a, e)) && Orphaned(s, e))
    ensures !((exists a :: Completer(s, a, e)) && Orphaned(s, e))
  {
    if e in s.claims {
      assert ClaimOwned(s, e);
      var o := s.claims[e].owner;
      assert Holder(s, o, e) || Completer(s, o, e) || Orphaned(s, e);
    }
    forall a: nat | Holder(s, a, e) || Completer(s, a, e) ensures e in s.claims && s.claims[e].owner == a {
      assert ActClaims(s, a);
    }
  }

  /** The DELETE by event id only ever removes the row its own activation inserted. */
  lemma DeletesOwnClaim(s: State, a: nat)
    requires Claims(s) && Enabled(s, DeleteEnds(a, true))
    ensures s.acts[a].event in s.claims && s.claims[s.acts[a].event].owner == a
    ensures forall e :: e in Deleted(s, a, true).claims <==> e in s.claims && e != s.acts[a].event
  {
    assert ActClaims(s, a);
  }

  // ---------------------------------------------------------------- claims held beyond their delivery

  /**
    The step leaves the claim of `a` without its delivery: the process dies or loses its channel, the timer
    fires or an ack hits the delivery while the claim is held; the claim is taken after that; or the row of
    a claim stays although its INSERT or DELETE is reported failed.
  */
  ghost predicate Strays(s: State, step: Step, a: nat)
    requires IsAct(s, a)
  {
    var x := s.acts[a];
    var holds := x.phase.Working? || x.phase.Updating? || x.phase.Deleting?;
    match step
    case Crash(w) => w == x.worker && holds
    case Disconnect(w) => w == x.worker && holds
    case AckUnknown(b) => b < |s.acts| && s.acts[b].worker == x.worker && holds
    case TimerFires(b) => b == a && holds
    case AckOther(_, b) => b == a && holds
    case InsertClaim(b) => b == a && x.event !in s.claims && (!x.handler.Waiting? || !HasDelivery(s, a))
    case InsertThrows(b, applied) => b == a && applied && x.event !in s.claims
    case DeleteEnds(b, applied) => b == a && !applied
    case _ => false
  }

  /** Just these steps make an activation count as strayed. */
  lemma StrayedExactly(c: int, s: State, step: Step, a: nat)
    requires Enabled(s, step) && IsAct(s, a)
    ensures a < |Apply(c, s, step).acts|
    ensures Apply(c, s, step).acts[a].strayed <==> s.acts[a].strayed || Strays(s, step, a)
  {
    if step.Disconnect? || step.Crash? || step.AckUnknown? {
      StrayedByLoss(c, s, step, a);
    } else {
      StrayedOtherwise(c, s, step, a);
    }
  }

  lemma StrayedByLoss(c: int, s: State, step: Step, a: nat)
    requires Enabled(s, step) && IsAct(s, a) && (step.Disconnect? || step.Crash? || step.AckUnknown?)
    ensures a < |Apply(c, s, step).acts|
    ensures Apply(c, s, step).acts[a].strayed <==> s.acts[a].strayed || Strays(s, step, a)
  {
  }

  lemma StrayedOtherwise(c: int, s: State, step: Step, a: nat)
    requires Enabled(s, step) && IsAct(s, a) && !step.Disconnect? && !step.Crash? && !step.AckUnknown?
    ensures a < |Apply(c, s, step).acts|
    ensures Apply(c, s, step).acts[a].strayed <==> s.acts[a].strayed || Strays(s, step, a)
  {
  }

  // ---------------------------------------------------------------- delivery tags

  ghost predicate TagFits(s: State, a: nat)
    requires a < |s.acts|
  {
    IsAct(s, a) && (s.acts[a].gen == Home(s, a).gen ==> s.acts[a].tag < Home(s, a).nextTag)
  }

  ghost predicate SameTag(x: Activation, y: Activation) {
    x.worker == y.worker && x.gen == y.gen && x.tag == y.tag
  }

  /** Tags are unique on a channel. */
  ghost predicate Tags(s: State) {
    && (forall a | 0 <= a < |s.acts| :: TagFits(s, a))
    && (forall a, b | 0 <= a < |s.acts| && 0 <= b < |s.acts| && SameTag(s.acts[a], s.acts[b]) :: a == b)
  }

  lemma TagStays(c: int, s: State, step: Step, a: nat)
    requires Deliveries(s) && Enabled(s, step) && a < |s.acts| && TagFits(s, a)
    ensures var s' := Apply(c, s, step);
      a < |s'.acts| && SameTag(s'.acts[a], s.acts[a]) && TagFits(s', a)
  {
    assert ActRefs(s, a);
    TagKept(c, s, step, a);
  }

  ghost predicate ActStays(s: State, s': State, a: nat)
    requires a < |s.acts|
  {
    a < |s'.acts| && SameTag(s'.acts[a], s.acts[a]) && s'.acts[a].copy == s.acts[a].copy
  }

  lemma TagKept(c: int, s: State, step: Step, a: nat)
    requires Enabled(s, step) && IsAct(s, a)
    ensures IsAct(Apply(c, s, step), a) && ActStays(s, Apply(c, s, step), a)
  {
    SizesGrow(c, s, step);
    ActKept(c, s, step, a);
  }

  lemma SizesGrow(c: int, s: State, step: Step)
    requires Enabled(s, step)
    ensures |s.copies| <= |Apply(c, s, step).copies| && |s.workers| == |Apply(c, s, step).workers|
  {
  }

  lemma ActKept(c: int, s: State, step: Step, a: nat)
    requires Enabled(s, step) && IsAct(s, a)
    ensures ActStays(s, Apply(c, s, step), a)
  {
    if step.Disconnect? || step.Crash? || step.AckUnknown? {
      LossKeepsActs(c, s, step, a);
    } else {
      StepKeepsActs(c, s, step, a);
    }
  }

  lemma LossKeepsActs(c: int, s: State, step: Step, a: nat)
    requires Enabled(s, step) && IsAct(s, a) && (step.Disconnect? || step.Crash? || step.AckUnknown?)
    ensures ActStays(s, Apply(c, s, step), a)
  {
  }

  lemma StepKeepsActs(c: int, s: State, step: Step, a: nat)
    requires Enabled(s, step) && IsAct(s, a) && !step.Disconnect? && !step.Crash? && !step.AckUnknown?
    ensures ActStays(s, Apply(c, s, step), a)
  {
  }

  lemma NewTag(c: int, s: State, step: Step)
    requires Enabled(s, step)
    ensures |Apply(c, s, step).acts| == if step.Deliver? then |s.acts| + 1 else |s.acts|
  {
  }

  lemma TagsStep(c: int, s: State, step: Step)
    requires Tags(s) && Deliveries(s) && Enabled(s, step)
    ensures Tags(Apply(c, s, step))
  {
    var s' := Apply(c, s, step);
    NewTag(c, s, step);
    forall a: nat | a < |s.acts| ensures SameTag(s'.acts[a], s.acts[a]) && TagFits(s', a) {
      TagStays(c, s, step, a);
    }
    forall a | 0 <= a < |s.acts| && step.Deliver? ensures !SameTag(s'.acts[a], s'.acts[|s.acts|]) {
      assert TagFits(s, a);
    }
  }

  /**
    A pending ack frame has exactly one meaning: it settles its own delivery, or, only
    after a reconnect, another one, or it is an unknown tag.
  */
  lemma AckResolves(s: State, a: nat)
    requires Tags(s) && IsAct(s, a) && AckFrame(s, a)
    ensures Enabled(s, AckOwn(a)) || (exists b :: Enabled(s, AckOther(a, b))) || Enabled(s, AckUnknown(a))
    ensures Enabled(s, AckOwn(a)) ==> !Enabled(s, AckUnknown(a)) && forall b :: !Enabled(s, AckOther(a, b))
    ensures forall b, b' :: Enabled(s, AckOther(a, b)) && Enabled(s, AckOther(a, b')) ==> b == b'
  {
    if !Enabled(s, AckUnknown(a)) {
      var b: nat :| b < |s.acts| && TagMeans(s, a, b);
      if s.acts[a].gen != Home(s, a).gen {
        assert Enabled(s, AckOther(a, b));
      } else {
        assert a == b;
      }
    }
  }
}
