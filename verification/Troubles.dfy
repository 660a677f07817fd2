/**
  The kinds of trouble a run can meet, the runs that meet only some of them, and what it is for
  an event to be lost for good.
*/
module Troubles {
  import opened Shared
  import Runs
  import Outbox
  import Delivery
  import opened Conservation
  import DeliverySafety
  import opened Pipeline
  import opened PipelineSafety
  import LostEvents

  datatype Trouble = UnboundPublish | ProcessDeath | LostConnection | Timeout | DeleteFails | InsertMisreported

  /** The trouble a step is, met in `s`. */
  function TroubleOf(s: State, step: Step): Option<Trouble> {
    match step
    case Db(PublishConfirmed(_)) => if s.mq.bound then None else Some(UnboundPublish)
    case Mq(Crash(_)) => Some(ProcessDeath)
    case Mq(Disconnect(_)) => Some(LostConnection)
    case Mq(TimerFires(_)) => Some(Timeout)
    case Mq(DeleteEnds(_, applied)) => if applied then None else Some(DeleteFails)
    case Mq(InsertThrows(_, applied)) => if applied then Some(InsertMisreported) else None
    case _ => None
  }

  predicate Permitted(ts: set<Trouble>, s: State, step: Step) {
    TroubleOf(s, step).Some? ==> TroubleOf(s, step).value in ts
  }

  /** The pipeline with no trouble but of the kinds in `ts`. */
  ghost function Meeting(c: Config, ts: set<Trouble>): Runs.System<State, Step> {
    Runs.System(s => Init(s), (s, step) => Enabled(c, s, step) && Permitted(ts, s, step),
                (s, step) => if Enabled(c, s, step) then Apply(c, s, step) else s)
  }

  ghost predicate ReachableMeeting(c: Config, ts: set<Trouble>, s: State) { Runs.Reaches(Meeting(c, ts), s) }

  lemma MeetingInit(c: Config, ts: set<Trouble>, s: State)
    requires Init(s)
    ensures ReachableMeeting(c, ts, s)
  {
    Runs.Start(Meeting(c, ts), s);
  }

  lemma MeetingStep(c: Config, ts: set<Trouble>, s: State, step: Step, s': State)
    requires ReachableMeeting(c, ts, s) && Enabled(c, s, step) && Permitted(ts, s, step) && Apply(c, s, step) == s'
    ensures ReachableMeeting(c, ts, s')
  {
    Runs.Go(Meeting(c, ts), s, step, s');
  }

  lemma MoreKept(c: Config, ts: set<Trouble>, more: set<Trouble>)
    requires ts <= more
    ensures Runs.Keeps(Meeting(c, ts), x => ReachableMeeting(c, more, x))
  {
    forall x, step | ReachableMeeting(c, more, x) && Enabled(c, x, step) && Permitted(ts, x, step)
      ensures ReachableMeeting(c, more, Apply(c, x, step))
    {
      MeetingStep(c, more, x, step, Apply(c, x, step));
    }
  }

  /** A run that may meet more can go where one that may meet less goes. */
  lemma MeetingMore(c: Config, ts: set<Trouble>, more: set<Trouble>, s: State)
    requires ReachableMeeting(c, ts, s) && ts <= more
    ensures ReachableMeeting(c, more, s)
  {
    forall x | Init(x) ensures ReachableMeeting(c, more, x) { MeetingInit(c, more, x); }
    MoreKept(c, ts, more);
    Runs.Invariant(Meeting(c, ts), x => ReachableMeeting(c, more, x), s);
  }

  lemma ReachableKept(c: Config, ts: set<Trouble>)
    ensures Runs.Keeps(Meeting(c, ts), x => Reachable(c, x))
  {
    forall x, step | Reachable(c, x) && Enabled(c, x, step) && Permitted(ts, x, step)
      ensures Reachable(c, Apply(c, x, step))
    {
      ReachableStep(c, x, step, Apply(c, x, step));
    }
  }

  /** Every such run is a run of the pipeline. */
  lemma MeetingReaches(c: Config, ts: set<Trouble>, s: State)
    requires ReachableMeeting(c, ts, s)
    ensures Reachable(c, s)
  {
    forall x | Init(x) ensures Reachable(c, x) { ReachableInit(c, x); }
    ReachableKept(c, ts);
    Runs.Invariant(Meeting(c, ts), x => Reachable(c, x), s);
  }

  // ---------------------------------------------------------------- without trouble

  ghost predicate Untroubled(c: Config, s: State) {
    Reachable(c, s) && LostEvents.CalmState(s.mq) && s.mq.routed == s.mq.sent
  }

  lemma UntroubledStep(c: Config, s: State, step: Step)
    requires Untroubled(c, s) && Enabled(c, s, step) && Permitted({}, s, step)
    ensures Untroubled(c, Apply(c, s, step))
  {
    InvReachable(c, s);
    ReachableStep(c, s, step, Apply(c, s, step));
    LostEvents.CalmPipelineStep(c, s, step);
    RoutedStep(c, s, step);
  }

  lemma RoutedStep(c: Config, s: State, step: Step)
    requires s.mq.routed == s.mq.sent && Enabled(c, s, step) && Permitted({}, s, step)
    ensures Apply(c, s, step).mq.routed == Apply(c, s, step).mq.sent
  {
  }

  lemma UntroubledKept(c: Config)
    ensures Runs.Keeps(Meeting(c, {}), x => Untroubled(c, x))
  {
    forall x, step | Untroubled(c, x) && Enabled(c, x, step) && Permitted({}, x, step)
      ensures Untroubled(c, Apply(c, x, step))
    {
      UntroubledStep(c, x, step);
    }
  }

  lemma UntroubledAlways(c: Config, s: State)
    requires ReachableMeeting(c, {}, s)
    ensures Untroubled(c, s)
  {
    forall x | Init(x) ensures Untroubled(c, x) { ReachableInit(c, x); }
    UntroubledKept(c);
    Runs.Invariant(Meeting(c, {}), x => Untroubled(c, x), s);
  }

  lemma PublishedIsRouted(c: Config, s: State, e: Outbox.EventId)
    requires Untroubled(c, s) && Published(s, e)
    ensures e in s.mq.routed
  {
    InvReachable(c, s);
    var t: nat :| Outbox.CommittedConfirmer(s.db, t, e);
  }

  /**
    In every run without trouble an event is unpublished, or has a copy in a queue or with a handler,
    or was processed.
  */
  lemma NothingLost(c: Config, s: State, e: Outbox.EventId)
    requires ReachableMeeting(c, {}, s) && e in s.db.outbox
    ensures Unpublished(s, e) || (exists k: nat :: Live(s.mq, k, e))
      || (exists a: nat :: DeliverySafety.Completer(s.mq, a, e))
  {
    UntroubledAlways(c, s);
    if Published(s, e) { PublishedIsRouted(c, s, e); }
    LostEvents.CalmIsClean(s.mq, e);
    NoEventDropped(c, s, e);
  }

  // ---------------------------------------------------------------- lost for good

  /** An activation of the event is over, and did not process it. */
  ghost predicate OverAct(s: Delivery.State, a: nat, e: Outbox.EventId)
    requires a < |s.acts|
  {
    s.acts[a].event == e ==>
      s.acts[a].handler.Finished?
        && (s.acts[a].phase.Threw? || s.acts[a].phase.Crashed?
             || s.acts[a].phase == Delivery.Returned(Delivery.Duplicate))
  }

  ghost predicate OverMq(s: Delivery.State, e: Outbox.EventId) {
    && (forall k: nat :: !Live(s, k, e))
    && (forall a | 0 <= a < |s.acts| :: OverAct(s, a, e))
  }

  /** Published, not processed, without a copy in a queue or with a handler, and nobody is at it any more. */
  ghost predicate Lost(s: State, e: Outbox.EventId) { Published(s, e) && OverMq(s.mq, e) }

  lemma LostUnprocessed(s: State, e: Outbox.EventId)
    requires Lost(s, e)
    ensures !Unpublished(s, e) && (forall k: nat :: !Live(s.mq, k, e)) && forall a: nat ::
      !DeliverySafety.Completer(s.mq, a, e)
  {
    forall a: nat ensures !DeliverySafety.Completer(s.mq, a, e) { assert a < |s.mq.acts| ==> OverAct(s.mq, a, e); }
  }

  lemma OverCopies(c: int, s: Delivery.State, step: Delivery.Step, e: Outbox.EventId, k: nat)
    requires DeliverySafety.Deliveries(s) && OverMq(s, e) && Delivery.Enabled(s, step)
      && (step.Arrive? ==> step.event != e)
    ensures !Live(Delivery.Apply(c, s, step), k, e)
  {
    assert !Live(s, k, e);
    if step.Republish? { assert OverAct(s, step.act, e) && DeliverySafety.ActRefs(s, step.act); }
  }

  lemma OverActs(c: int, s: Delivery.State, step: Delivery.Step, e: Outbox.EventId, a: nat)
    requires OverMq(s, e) && Delivery.Enabled(s, step) && a < |Delivery.Apply(c, s, step).acts|
    ensures OverAct(Delivery.Apply(c, s, step), a, e)
  {
    if a < |s.acts| {
      assert OverAct(s, a, e);
      OldAct(c, s, step, e, a);
    } else {
      assert !Live(s, step.copy, e);
    }
  }

  lemma OldAct(c: int, s: Delivery.State, step: Delivery.Step, e: Outbox.EventId, a: nat)
    requires Delivery.Enabled(s, step) && a < |s.acts| && OverAct(s, a, e)
    ensures a < |Delivery.Apply(c, s, step).acts| && OverAct(Delivery.Apply(c, s, step), a, e)
  {
  }

  lemma OverStep(c: int, s: Delivery.State, step: Delivery.Step, e: Outbox.EventId)
    requires DeliverySafety.Deliveries(s) && OverMq(s, e) && Delivery.Enabled(s, step)
      && (step.Arrive? ==> step.event != e)
    ensures OverMq(Delivery.Apply(c, s, step), e)
  {
    forall k: nat ensures !Live(Delivery.Apply(c, s, step), k, e) { OverCopies(c, s, step, e, k); }
    forall a: nat | a < |Delivery.Apply(c, s, step).acts| ensures OverAct(Delivery.Apply(c, s, step), a, e) {
      OverActs(c, s, step, e, a);
    }
  }

  /** A published row is in no open poll: it stays published, and is never sent again. */
  lemma PublishedStays(batchSize: nat, d: Outbox.State, step: Outbox.Step, e: Outbox.EventId)
    requires Outbox.Inv(d) && e in d.outbox && d.outbox[e].published && Outbox.Enabled(batchSize, d, step)
    ensures var d' := Outbox.Apply(batchSize, d, step); e in d'.outbox && d'.outbox[e].published
    ensures step.PublishConfirmed? || step.PublishFailed? ==> Outbox.CurrentRow(d, step.txn) != e
  {
    if step.Commit? { assert Outbox.Shape(d.txns[step.txn]); }
  }

  lemma LostStep(c: Config, s: State, step: Step, e: Outbox.EventId)
    requires Inv(c, s) && Lost(s, e) && Enabled(c, s, step)
    ensures Lost(Apply(c, s, step), e)
  {
    match step
    case Mq(m) => OverStep(c.maxRetries, s.mq, m, e);
    case Db(d) =>
      PublishedStays(c.batchSize, s.db, d, e);
      if d.PublishConfirmed? || (d.PublishFailed? && d.delivered) {
        OverStep(c.maxRetries, s.mq, Delivery.Arrive(Outbox.CurrentRow(s.db, d.txn), d.PublishConfirmed?), e);
      }
  }

  /** What is lost stays lost, in every continuation of the run. */
  lemma {:induction false} LostForGood(c: Config, s: State, e: Outbox.EventId, steps: seq<Step>)
    requires Reachable(c, s) && Lost(s, e) && Runs.Valid(Machine(c), s, steps)
    ensures Lost(Runs.After(Machine(c), s, steps), e)
    ensures forall a: nat :: !DeliverySafety.Completer(Runs.After(Machine(c), s, steps).mq, a, e)
    decreases |steps|
  {
    if steps == [] {
      LostUnprocessed(s, e);
    } else {
      InvReachable(c, s);
      LostStep(c, s, steps[0], e);
      ReachableStep(c, s, steps[0], Apply(c, s, steps[0]));
      LostForGood(c, Apply(c, s, steps[0]), e, steps[1..]);
    }
  }
}
