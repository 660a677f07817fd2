/**
  What holds in every state any run of the pipeline can reach, whatever crashes, rolls back,
  times out or is redelivered.
*/
module PipelineSafety {
  import Outbox
  import Delivery
  import opened DeliverySafety
  import opened Conservation
  import opened RetryBound
  import Runs
  import opened Pipeline

  // ---------------------------------------------------------------- the invariant

  /** The two sides agree: confirmed rows were sent, and every message is about an outbox row. */
  ghost predicate Joined(s: State) {
    && (forall t: nat, e | Outbox.Confirmer(s.db, t, e) :: e in s.mq.sent)
    && s.mq.routed <= s.mq.sent
    && (forall e | e in s.mq.sent :: e in s.db.outbox)
    && (forall k | 0 <= k < |s.mq.copies| :: s.mq.copies[k].event in s.db.outbox)
  }

  ghost predicate MqInv(maxRetries: int, m: Delivery.State) {
    Deliveries(m) && Claims(m) && Tags(m) && Conserving(m) && Keeping(m) && Bounded(maxRetries, m)
  }

  ghost predicate Inv(c: Config, s: State) {
    Outbox.Inv(s.db) && MqInv(c.maxRetries, s.mq) && Joined(s)
  }

  lemma MqInvStep(c: int, m: Delivery.State, step: Delivery.Step)
    requires MqInv(c, m) && Delivery.Enabled(m, step)
    ensures MqInv(c, Delivery.Apply(c, m, step))
  {
    DeliveriesStep(c, m, step);
    ClaimsStep(c, m, step);
    TagsStep(c, m, step);
    ConservingStep(c, m, step);
    KeepingStep(c, m, step);
    CountsFitStep(c, m, step);
    DeadStayDeadStep(c, m, step);
    LineageStep(c, m, step);
  }

  lemma JoinedDb(c: Config, s: State, d: Outbox.Step)
    requires Joined(s) && Outbox.Exclusive(s.db) && Enabled(c, s, Db(d))
    ensures Joined(Apply(c, s, Db(d)))
  {
    var s' := Apply(c, s, Db(d));
    forall t: nat, e | Outbox.Confirmer(s'.db, t, e) ensures e in s'.mq.sent {
      assert Outbox.Confirmer(s.db, t, e) || (d == Outbox.PublishConfirmed(t) && e == Outbox.CurrentRow(s.db, t));
    }
  }

  lemma JoinedMq(c: Config, s: State, m: Delivery.Step)
    requires Joined(s) && Deliveries(s.mq) && Enabled(c, s, Mq(m))
    ensures Joined(Apply(c, s, Mq(m)))
  {
    assert m.Republish? ==> ActRefs(s.mq, m.act);
  }

  lemma InvStep(c: Config, s: State, step: Step)
    requires Inv(c, s) && Enabled(c, s, step)
    ensures Inv(c, Apply(c, s, step))
  {
    match step
    case Db(d) =>
      Outbox.InvStep(c.batchSize, s.db, d);
      JoinedDb(c, s, d);
      if d.PublishConfirmed? || (d.PublishFailed? && d.delivered) {
        MqInvStep(c.maxRetries, s.mq, Delivery.Arrive(Outbox.CurrentRow(s.db, d.txn), d.PublishConfirmed?));
      }
    case Mq(m) =>
      MqInvStep(c.maxRetries, s.mq, m);
      JoinedMq(c, s, m);
  }

  lemma InvInit(c: Config, s: State)
    requires Init(s)
    ensures Inv(c, s)
  {
  }

  lemma InvReachable(c: Config, s: State)
    requires Reachable(c, s)
    ensures Inv(c, s)
  {
    forall x | Init(x) ensures Inv(c, x) { InvInit(c, x); }
    forall x, step | Inv(c, x) && Enabled(c, x, step) ensures Inv(c, Apply(c, x, step)) { InvStep(c, x, step); }
    Runs.Invariant(Machine(c), x => Inv(c, x), s);
  }

  // ---------------------------------------------------------------- theorems

  ghost predicate Unpublished(s: State, e: Outbox.EventId) { e in s.db.outbox && !s.db.outbox[e].published }

  /**
    Conservation. An outbox row is never lost: it is unpublished, or its publish was
    confirmed, and then a copy is in a queue or with a handler, or one was acknowledged as
    processed or duplicate. Two things outside the exchange of acks can break this, and both
    are visible in the state: no confirm came while the queue was bound, or a handler whose
    channel was replaced acknowledged another delivery by its tag.
  */
  lemma MessageConservation(c: Config, s: State, e: Outbox.EventId)
    requires Reachable(c, s) && e in s.db.outbox
    requires forall k: nat :: !MisackedCopy(s.mq, k, e)
    ensures s.db.outbox[e].published ==> e in s.mq.sent
    ensures e in s.mq.routed ==> exists k: nat :: Live(s.mq, k, e) || AckedAs(s.mq, k, e)
  {
    InvReachable(c, s);
    if s.db.outbox[e].published {
      var t: nat :| Outbox.CommittedConfirmer(s.db, t, e);
    }
    if e in s.mq.routed {
      var k: nat :| Accounted(s.mq, k, e);
      assert Live(s.mq, k, e) || AckedAs(s.mq, k, e);
    }
  }

  /**
    No event is dropped unprocessed: as long as no activation of this event held its claim
    beyond its own delivery (worker crash, processing timeout or channel loss while holding,
    failed DELETE, INSERT applied but reported failed) and no ack hit another delivery, the
    event is an unpublished row, or has a live copy, or was processed. Failing work, failing
    UPDATEs, rolled-back polls, duplicate copies and trouble with other events are all allowed.
  */
  lemma NoEventDropped(c: Config, s: State, e: Outbox.EventId)
    requires Reachable(c, s) && e in s.db.outbox
    requires s.db.outbox[e].published ==> e in s.mq.routed
    requires Clean(s.mq, e)
    ensures Unpublished(s, e) || (exists k: nat :: Live(s.mq, k, e)) || (exists a: nat :: Completer(s.mq, a, e))
  {
    InvReachable(c, s);
    if !Unpublished(s, e) && forall a: nat :: !Completer(s.mq, a, e) {
      assert Kept(s.mq, e);
      var k: nat :| Firm(s.mq, k, e);
      assert Live(s.mq, k, e);
    }
  }

  /** At most one activation of an event ever returns "processed", in any run. */
  lemma ProcessedAtMostOnce(c: Config, s: State, a: nat, b: nat, e: Outbox.EventId)
    requires Reachable(c, s) && Completer(s.mq, a, e) && Completer(s.mq, b, e)
    ensures a == b
  {
    InvReachable(c, s);
    AtMostOneProcessed(s.mq, a, b, e);
  }

  /** Every order has exactly one outbox row, and every message and result is about one of them. */
  lemma OneEventPerOrder(c: Config, s: State, o: Outbox.OrderId)
    requires Reachable(c, s) && o in s.db.orders
    ensures exists e :: Outbox.RowOf(s.db, o, e)
    ensures forall e, f :: Outbox.RowOf(s.db, o, e) && Outbox.RowOf(s.db, o, f) ==> e == f
  {
    InvReachable(c, s);
  }

  /** Confirmed publishes of a row, counted: one if published, one per rolled-back or open transaction that had it. */
  lemma PublishesCounted(c: Config, s: State, e: Outbox.EventId)
    requires Reachable(c, s) && e in s.db.outbox
    ensures |Outbox.Confirmers(s.db, e)|
         == (if s.db.outbox[e].published then 1 else 0)
          + |Outbox.ConfirmersIn(s.db, e, Outbox.RolledBack)| + |Outbox.ConfirmersIn(s.db, e, Outbox.Open)|
  {
    InvReachable(c, s);
    Outbox.DuplicateAccounting(s.db, e);
  }

  /** Once the queue is bound it stays so, and every publish confirmed from then on is routed. */
  lemma {:induction false} BoundBeforePublish(c: Config, s: State, steps: seq<Step>)
    requires s.mq.bound && s.mq.routed == s.mq.sent && Runs.Valid(Machine(c), s, steps)
    ensures var end := Runs.After(Machine(c), s, steps);
      end.mq.bound && end.mq.routed == end.mq.sent
    decreases |steps|
  {
    if steps != [] { BoundBeforePublish(c, Apply(c, s, steps[0]), steps[1..]); }
  }

  lemma {:induction false} StaysReachable(c: Config, s: State, steps: seq<Step>)
    requires Reachable(c, s) && Runs.Valid(Machine(c), s, steps)
    ensures Reachable(c, Runs.After(Machine(c), s, steps))
    decreases |steps|
  {
    if steps != [] {
      ReachableStep(c, s, steps[0], Apply(c, s, steps[0]));
      StaysReachable(c, Apply(c, s, steps[0]), steps[1..]);
    }
  }

  /**
    Conservation from the point where the queue is bound and nothing has been confirmed yet: after
    any steps, a published row has a copy in a queue or with a handler, or one acknowledged as
    processed or duplicate, unless an ack hit another delivery.
  */
  lemma ConservedOnceBound(c: Config, s: State, steps: seq<Step>, e: Outbox.EventId)
    requires Reachable(c, s) && s.mq.bound && s.mq.sent == {} && Runs.Valid(Machine(c), s, steps)
    requires Published(Runs.After(Machine(c), s, steps), e)
    requires forall k: nat :: !MisackedCopy(Runs.After(Machine(c), s, steps).mq, k, e)
    ensures exists k: nat ::
      Live(Runs.After(Machine(c), s, steps).mq, k, e) || AckedAs(Runs.After(Machine(c), s, steps).mq, k, e)
  {
    InvReachable(c, s);
    BoundBeforePublish(c, s, steps);
    StaysReachable(c, s, steps);
    MessageConservation(c, Runs.After(Machine(c), s, steps), e);
  }

  ghost predicate Published(s: State, e: Outbox.EventId) { e in s.db.outbox && s.db.outbox[e].published }
}
