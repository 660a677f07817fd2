/**
  When an event can be lost, and that it stays so: without crashes, lost connections, timeouts and
  statements whose outcome is misreported none is, and a claim row left behind blocks its event
  for good.
*/
module LostEvents {
  import opened Shared
  import Runs
  import Outbox
  import opened Delivery
  import opened DeliverySafety
  import opened Conservation
  import Pipeline
  import PipelineSafety

  // ---------------------------------------------------------------- calm runs

  /** No crash, no lost connection, no processing timeout, no failed DELETE, no INSERT applied but reported failed. */
  predicate Calm(step: Step) {
    && !step.Crash? && !step.Disconnect? && !step.TimerFires?
    && (step.DeleteEnds? ==> step.applied) && (step.InsertThrows? ==> !step.applied)
  }

  /** A handler that is not finished has its delivery, on the channel it came on; nothing strayed. */
  ghost predicate CalmAct(s: State, a: nat)
    requires a < |s.acts|
  {
    var x := s.acts[a];
    && IsAct(s, a) && Home(s, a).up && x.gen == Home(s, a).gen && !x.strayed
    && (!x.handler.Finished? ==> HasDelivery(s, a))
    && (x.handler.Republished? ==> x.handler.onGen == x.gen)
    && (Unsettled(x.phase) ==> x.handler.Waiting?)
  }

  ghost predicate CalmState(s: State) {
    && (forall a | 0 <= a < |s.acts| :: CalmAct(s, a))
    && (forall k | 0 <= k < |s.copies| :: s.copies[k].place != Settled(Misacked))
  }

  /** An ack can only mean its own delivery, and nobody gives up. */
  lemma CalmAcks(s: State, step: Step)
    requires CalmState(s) && Enabled(s, step)
    ensures !step.AckOther? && !step.AckUnknown? && !step.GiveUp?
  {
    if step.AckOther? || step.AckUnknown? || step.GiveUp? {
      assert CalmAct(s, step.act);
      assert step.AckUnknown? ==> TagMeans(s, step.act, step.act);
    }
  }

  lemma CalmActStep(c: int, s: State, step: Step, a: nat)
    requires CalmState(s) && Claims(s) && Enabled(s, step) && Calm(step) && a < |Apply(c, s, step).acts|
    requires !step.AckOther? && !step.AckUnknown? && !step.GiveUp?
    ensures CalmAct(Apply(c, s, step), a)
  {
    if a < |s.acts| { assert CalmAct(s, a) && ActClaims(s, a); }
    if InProcessing(step) { CalmProcessing(c, s, step, a); }
  }

  predicate InProcessing(step: Step) {
    step.InsertClaim? || step.InsertThrows? || step.WorkEnds? || step.UpdateEnds? || step.UpdateThrows?
      || step.DeleteEnds?
  }

  lemma CalmProcessing(c: int, s: State, step: Step, a: nat)
    requires CalmState(s) && Enabled(s, step) && Calm(step) && InProcessing(step) && a < |s.acts|
    ensures a < |Apply(c, s, step).acts| && CalmAct(Apply(c, s, step), a)
  {
    assert CalmAct(s, a) && CalmAct(s, step.act);
  }

  lemma CalmCopyStep(c: int, s: State, step: Step, k: nat)
    requires CalmState(s) && Enabled(s, step) && k < |Apply(c, s, step).copies|
    requires !step.AckOther? && !step.AckUnknown?
    ensures Apply(c, s, step).copies[k].place != Settled(Misacked)
  {
  }

  lemma CalmStep(c: int, s: State, step: Step)
    requires CalmState(s) && Claims(s) && Enabled(s, step) && Calm(step)
    ensures CalmState(Apply(c, s, step))
  {
    var s' := Apply(c, s, step);
    CalmAcks(s, step);
    forall a | 0 <= a < |s'.acts| ensures CalmAct(s', a) { CalmActStep(c, s, step, a); }
    forall k | 0 <= k < |s'.copies| ensures s'.copies[k].place != Settled(Misacked) { CalmCopyStep(c, s, step, k); }
  }

  lemma CalmIsClean(s: State, e: EventId)
    requires CalmState(s)
    ensures Clean(s, e)
  {
    forall a: nat ensures !StrayedOn(s, a, e) { assert a < |s.acts| ==> CalmAct(s, a); }
  }

  ghost predicate CalmSteps(steps: seq<Pipeline.Step>) {
    forall i | 0 <= i < |steps| && steps[i].Mq? :: Calm(steps[i].mq)
  }

  lemma CalmArrival(c: int, s: State, e: EventId, confirmed: bool)
    requires CalmState(s)
    ensures CalmState(Arrived(s, e, confirmed))
  {
    var s' := Arrived(s, e, confirmed);
    forall a | 0 <= a < |s'.acts| ensures CalmAct(s', a) { assert CalmAct(s, a); }
  }

  lemma CalmPipelineStep(c: Pipeline.Config, s: Pipeline.State, step: Pipeline.Step)
    requires Pipeline.Enabled(c, s, step) && (step.Mq? ==> Calm(step.mq)) && CalmState(s.mq) && Claims(s.mq)
    ensures CalmState(Pipeline.Apply(c, s, step).mq)
  {
    match step
    case Mq(m) => CalmStep(c.maxRetries, s.mq, m);
    case Db(d) =>
      if d.PublishConfirmed? || (d.PublishFailed? && d.delivered) {
        CalmArrival(c.maxRetries, s.mq, Outbox.CurrentRow(s.db, d.txn), d.PublishConfirmed?);
      }
  }

  lemma {:induction false} CalmRun(c: Pipeline.Config, s: Pipeline.State, steps: seq<Pipeline.Step>)
    requires Pipeline.Reachable(c, s) && CalmState(s.mq) && Runs.Valid(Pipeline.Machine(c), s, steps)
      && CalmSteps(steps)
    ensures CalmState(Runs.After(Pipeline.Machine(c), s, steps).mq)
    decreases |steps|
  {
    if steps != [] {
      PipelineSafety.InvReachable(c, s);
      CalmPipelineStep(c, s, steps[0]);
      var s' := Pipeline.Apply(c, s, steps[0]);
      Pipeline.ReachableStep(c, s, steps[0], s');
      CalmRun(c, s', steps[1..]);
    }
  }

  /**
    In every run without those troubles no event is dropped: each outbox row is unpublished, or its
    event has a copy in a queue or with a handler, or it was processed. Work, UPDATEs and polls may
    fail as they like, publishes may be repeated, and any number of workers take part.
  */
  lemma NothingLostWhenCalm(c: Pipeline.Config, s: Pipeline.State, steps: seq<Pipeline.Step>, e: EventId)
    requires Pipeline.Init(s) && Runs.Valid(Pipeline.Machine(c), s, steps) && CalmSteps(steps)
    requires e in Runs.After(Pipeline.Machine(c), s, steps).db.outbox
    requires PipelineSafety.Published(Runs.After(Pipeline.Machine(c), s, steps), e) ==>
      e in Runs.After(Pipeline.Machine(c), s, steps).mq.routed
    ensures var end := Runs.After(Pipeline.Machine(c), s, steps);
      || PipelineSafety.Unpublished(end, e)
      || (exists k: nat :: Live(end.mq, k, e))
      || (exists a: nat :: Completer(end.mq, a, e))
  {
    Pipeline.ReachableInit(c, s);
    CalmRun(c, s, steps);
    PipelineSafety.StaysReachable(c, s, steps);
    CalmIsClean(Runs.After(Pipeline.Machine(c), s, steps).mq, e);
    PipelineSafety.NoEventDropped(c, Runs.After(Pipeline.Machine(c), s, steps), e);
  }

  // ---------------------------------------------------------------- claims left behind

  /** A claim row left behind stays, whatever happens. */
  lemma OrphanedStays(c: int, s: State, step: Step, e: EventId)
    requires Claims(s) && Orphaned(s, e) && Enabled(s, step)
    ensures Orphaned(Apply(c, s, step), e)
  {
    if step.DeleteEnds? || step.UpdateEnds? || step.UpdateThrows? { assert ActClaims(s, step.act); }
  }

  lemma OrphanedStaysInPipeline(c: Pipeline.Config, s: Pipeline.State, step: Pipeline.Step, e: EventId)
    requires Claims(s.mq) && Orphaned(s.mq, e) && Pipeline.Enabled(c, s, step)
    ensures Orphaned(Pipeline.Apply(c, s, step).mq, e)
  {
    if step.Mq? { OrphanedStays(c.maxRetries, s.mq, step.mq, e); }
  }

  /** An event whose claim was left behind is never processed: not before, and in no continuation of the run. */
  lemma {:induction false} OrphanedForGood(c: Pipeline.Config, s: Pipeline.State, e: EventId,
                                           steps: seq<Pipeline.Step>, a: nat)
    requires Pipeline.Reachable(c, s) && Orphaned(s.mq, e) && Runs.Valid(Pipeline.Machine(c), s, steps)
    ensures Orphaned(Runs.After(Pipeline.Machine(c), s, steps).mq, e)
    ensures !Completer(Runs.After(Pipeline.Machine(c), s, steps).mq, a, e)
    decreases |steps|
  {
    PipelineSafety.InvReachable(c, s);
    if steps == [] {
      ClaimTrichotomy(s.mq, e);
    } else {
      OrphanedStaysInPipeline(c, s, steps[0], e);
      var s' := Pipeline.Apply(c, s, steps[0]);
      Pipeline.ReachableStep(c, s, steps[0], s');
      OrphanedForGood(c, s', e, steps[1..], a);
    }
  }
}
