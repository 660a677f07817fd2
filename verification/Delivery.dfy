/**
  RabbitMQ and the workers as a transition system: message copies in the primary, retry
  and dead-letter queues, the claim table `processed_events`, and any number of worker
  processes handling deliveries concurrently. Copies and activations keep their place
  when they are over, so a statement about a state covers the whole run that led to it.
*/
module Delivery {
  import opened Shared
  import Runs

  type EventId = nat

  /** One row of `processed_events`; `owner` is the activation whose INSERT wrote it. */
  datatype Claim = Claim(owner: nat, completed: bool)

  datatype Outcome = AsProcessed | AsDuplicate | Replaced | Misacked

  datatype Place =
    | Primary
    | RetryQueue
    | Unacked(act: nat)
    | DeadLetter
    | Settled(outcome: Outcome)

  /** A message copy. `retry` is its `x-retry-count`, `sentBy` the activation that sent it to replace its own. */
  datatype Copy = Copy(event: EventId, retry: nat, sentBy: Option<nat>, place: Place)

  datatype Result = Processed | Duplicate

  /** Progress of `processEvent`. */
  datatype Phase = Claiming | Working | Updating | Deleting | Returned(result: Result) | Threw | Crashed

  /** Progress of `handleMessage` around it; `onGen` is the channel the retry copy was sent on. */
  datatype Handler = Waiting | Acking(verdict: Result) | Requeueing | Republished(onGen: nat) | Finished

  /**
    One delivery being handled. `gen` and `tag` are the channel it came on and its delivery
    tag there. `strayed` records that it once held the claim of its event without a delivery
    its own handler would settle by the outcome (timed out, channel lost, process gone), or
    left a claim row behind when it was over.
  */
  datatype Activation = Activation(
    worker: nat,
    gen: nat,
    tag: nat,
    copy: nat,
    event: EventId,
    phase: Phase,
    handler: Handler,
    strayed: bool)

  /** The module-level `channel` of one worker process; `gen` counts its connections. */
  datatype Worker = Worker(up: bool, gen: nat, nextTag: nat)

  /** `sent`: events of confirmed publishes; `routed`: those of them confirmed while the queue was bound. */
  datatype State = State(
    bound: bool,
    sent: set<EventId>,
    routed: set<EventId>,
    copies: seq<Copy>,
    workers: seq<Worker>,
    claims: map<EventId, Claim>,
    acts: seq<Activation>)

  ghost predicate Init(s: State) {
    && !s.bound && s.sent == {} && s.routed == {} && s.copies == [] && s.claims == map[] && s.acts == []
    && forall w | 0 <= w < |s.workers| :: !s.workers[w].up
  }

  datatype Step =
    // from the publishers
    | Arrive(event: EventId, confirmed: bool)
    // broker and connections
    | BindQueue
    | Connect(worker: nat)
    | Disconnect(worker: nat)
    | Crash(worker: nat)
    | Deliver(worker: nat, copy: nat)
    | RetryExpires(copy: nat)
    // processEvent
    | InsertClaim(act: nat)
    | InsertThrows(act: nat, applied: bool)
    | WorkEnds(act: nat, ok: bool)
    | UpdateEnds(act: nat)
    | UpdateThrows(act: nat, applied: bool)
    | DeleteEnds(act: nat, applied: bool)
    // handleMessage
    | TimerFires(act: nat)
    | Republish(act: nat)
    | AckOwn(act: nat)
    | AckOther(act: nat, other: nat)
    | AckUnknown(act: nat)
    | GiveUp(act: nat)

  // ---------------------------------------------------------------- guards

  predicate Holding(p: Phase) { p.Working? || p.Updating? || p.Deleting? }

  predicate Unsettled(p: Phase) { p.Claiming? || Holding(p) }

  predicate IsAct(s: State, a: nat) {
    && a < |s.acts|
    && s.acts[a].worker < |s.workers|
    && s.acts[a].copy < |s.copies|
  }

  function Home(s: State, a: nat): Worker
    requires IsAct(s, a)
  {
    s.workers[s.acts[a].worker]
  }

  /** The delivery `a` handles is outstanding. */
  predicate HasDelivery(s: State, a: nat)
    requires IsAct(s, a)
  {
    s.copies[s.acts[a].copy].place == Unacked(a)
  }

  /** The pending ack frame of `a` still reaches the broker, on the current channel of its process. */
  predicate AckFrame(s: State, a: nat)
    requires IsAct(s, a)
  {
    Home(s, a).up && (s.acts[a].handler.Acking? || s.acts[a].handler == Republished(Home(s, a).gen))
  }

  /** `b` is the outstanding delivery that the tag of `a` means on the current channel. */
  predicate TagMeans(s: State, a: nat, b: nat)
    requires IsAct(s, a)
  {
    && IsAct(s, b)
    && s.acts[b].worker == s.acts[a].worker
    && s.acts[b].gen == Home(s, a).gen
    && s.acts[b].tag == s.acts[a].tag
    && HasDelivery(s, b)
  }

  predicate Enabled(s: State, step: Step) {
    match step
    case Arrive(_, _) => true
    case BindQueue => true
    case Connect(w) => w < |s.workers| && !s.workers[w].up
    case Disconnect(w) => w < |s.workers| && s.workers[w].up
    case Crash(w) => w < |s.workers|
    case Deliver(w, k) => w < |s.workers| && s.workers[w].up && k < |s.copies| && s.copies[k].place.Primary?
    case RetryExpires(k) => k < |s.copies| && s.copies[k].place.RetryQueue?
    case InsertClaim(a) => IsAct(s, a) && s.acts[a].phase.Claiming?
    case InsertThrows(a, _) => IsAct(s, a) && s.acts[a].phase.Claiming?
    case WorkEnds(a, _) => IsAct(s, a) && s.acts[a].phase.Working?
    case UpdateEnds(a) => IsAct(s, a) && s.acts[a].phase.Updating?
    case UpdateThrows(a, _) => IsAct(s, a) && s.acts[a].phase.Updating?
    case DeleteEnds(a, _) => IsAct(s, a) && s.acts[a].phase.Deleting?
    case TimerFires(a) => IsAct(s, a) && s.acts[a].handler.Waiting? && Unsettled(s.acts[a].phase)
    case Republish(a) => IsAct(s, a) && s.acts[a].handler.Requeueing? && Home(s, a).up
    case AckOwn(a) => IsAct(s, a) && AckFrame(s, a) && TagMeans(s, a, a)
    case AckOther(a, b) => IsAct(s, a) && AckFrame(s, a) && s.acts[a].gen != Home(s, a).gen && TagMeans(s, a, b)
    case AckUnknown(a) => IsAct(s, a) && AckFrame(s, a) && forall b | 0 <= b < |s.acts| :: !TagMeans(s, a, b)
    case GiveUp(a) => IsAct(s, a) && GivesUp(s, a)
  }

  /** The channel is gone, or no longer the one the frame was written to. */
  predicate GivesUp(s: State, a: nat)
    requires IsAct(s, a)
  {
    match s.acts[a].handler
    case Acking(_) => !Home(s, a).up
    case Requeueing => !Home(s, a).up
    case Republished(g) => !Home(s, a).up || g != Home(s, a).gen
    case _ => false
  }

  // ---------------------------------------------------------------- effects

  function SetAct(s: State, a: nat, x: Activation): State
    requires a < |s.acts|
  {
    s.(acts := s.acts[a := x])
  }

  function SetPlace(s: State, k: nat, p: Place): State
    requires k < |s.copies|
  {
    s.(copies := s.copies[k := s.copies[k].(place := p)])
  }

  function AddCopy(s: State, k: Copy): State { s.(copies := s.copies + [k]) }

  /** A published message: queued if the queue is bound, silently dropped (and still confirmed) if not. */
  function Arrived(s: State, e: EventId, confirmed: bool): State {
    var s1 := if confirmed then s.(sent := s.sent + {e}) else s;
    if !s.bound then s1
    else AddCopy(s1, Copy(e, 0, None, Primary)).(routed := if confirmed then s.routed + {e} else s.routed)
  }

  /** Deliveries of a lost channel go back to the queue. */
  function RequeuedCopy(s: State, w: nat, k: Copy): Copy {
    if k.place.Unacked? && k.place.act < |s.acts| && s.acts[k.place.act].worker == w
    then k.(place := Primary) else k
  }

  function Requeued(s: State, w: nat): (cs: seq<Copy>)
    ensures |cs| == |s.copies|
    ensures forall i | 0 <= i < |cs| :: cs[i] == RequeuedCopy(s, w, s.copies[i])
  {
    seq(|s.copies|, i requires 0 <= i < |s.copies| => RequeuedCopy(s, w, s.copies[i]))
  }

  /** Claim holders of `w` lose their delivery. */
  function CutAct(w: nat, x: Activation): Activation {
    if x.worker == w && Holding(x.phase) then x.(strayed := true) else x
  }

  function Cut(s: State, w: nat): (xs: seq<Activation>)
    ensures |xs| == |s.acts|
    ensures forall i | 0 <= i < |xs| :: xs[i] == CutAct(w, s.acts[i])
  {
    seq(|s.acts|, i requires 0 <= i < |s.acts| => CutAct(w, s.acts[i]))
  }

  /** Everything the process of `w` was doing ends where it is. */
  function KilledAct(w: nat, x: Activation): Activation {
    if x.worker != w then x
    else CutAct(w, x).(phase := if Unsettled(x.phase) then Crashed else x.phase, handler := Finished)
  }

  function Killed(s: State, w: nat): (xs: seq<Activation>)
    ensures |xs| == |s.acts|
    ensures forall i | 0 <= i < |xs| :: xs[i] == KilledAct(w, s.acts[i])
  {
    seq(|s.acts|, i requires 0 <= i < |s.acts| => KilledAct(w, s.acts[i]))
  }

  function Down(s: State, w: nat): seq<Worker>
    requires w < |s.workers|
  {
    s.workers[w := s.workers[w].(up := false)]
  }

  function Disconnected(s: State, w: nat): State
    requires w < |s.workers|
  {
    s.(copies := Requeued(s, w), acts := Cut(s, w), workers := Down(s, w))
  }

  function ProcessGone(s: State, w: nat): State
    requires w < |s.workers|
  {
    s.(copies := Requeued(s, w), acts := Killed(s, w), workers := Down(s, w))
  }

  function Connected(s: State, w: nat): State
    requires w < |s.workers|
  {
    s.(workers := s.workers[w := Worker(true, s.workers[w].gen + 1, 1)])
  }

  function Delivered(s: State, w: nat, k: nat): State
    requires w < |s.workers| && k < |s.copies|
  {
    var here := s.workers[w];
    SetPlace(s, k, Unacked(|s.acts|))
      .(workers := s.workers[w := here.(nextTag := here.nextTag + 1)],
        acts := s.acts + [Activation(w, here.gen, here.nextTag, k, s.copies[k].event, Claiming, Waiting, false)])
  }

  /** `processEvent` settles: a handler that still waits takes the matching branch. */
  function Settle(x: Activation, p: Phase): Activation
    requires p.Returned? || p.Threw?
  {
    x.(phase := p,
       handler := if !x.handler.Waiting? then x.handler
                  else if p.Returned? then Acking(p.result)
                  else Requeueing)
  }

  /** The INSERT of `a`: takes the claim, or finds it taken. */
  function Inserted(s: State, a: nat): State
    requires IsAct(s, a)
  {
    var x := s.acts[a];
    if x.event in s.claims then SetAct(s, a, Settle(x, Returned(Duplicate)))
    else
      SetAct(s, a, x.(phase := Working, strayed := x.strayed || !x.handler.Waiting? || !HasDelivery(s, a)))
        .(claims := s.claims[x.event := Claim(a, false)])
  }

  /** The INSERT throws, outside the `try`; if the row was written anyway, it stays. */
  function InsertFailed(s: State, a: nat, applied: bool): State
    requires IsAct(s, a)
  {
    var x := s.acts[a];
    if applied && x.event !in s.claims then
      SetAct(s, a, Settle(x, Threw).(strayed := true)).(claims := s.claims[x.event := Claim(a, false)])
    else SetAct(s, a, Settle(x, Threw))
  }

  /** `UPDATE ... WHERE event_id`: touches the row if it is there. */
  function Completed(s: State, e: EventId): map<EventId, Claim> {
    if e in s.claims then s.claims[e := s.claims[e].(completed := true)] else s.claims
  }

  function Updated(s: State, a: nat): State
    requires IsAct(s, a)
  {
    SetAct(s, a, Settle(s.acts[a], Returned(Processed))).(claims := Completed(s, s.acts[a].event))
  }

  function UpdateFailed(s: State, a: nat, applied: bool): State
    requires IsAct(s, a)
  {
    SetAct(s, a, s.acts[a].(phase := Deleting))
      .(claims := if applied then Completed(s, s.acts[a].event) else s.claims)
  }

  /** `DELETE ... WHERE event_id`, then the rethrow; `applied` tells whether it took effect. */
  function Deleted(s: State, a: nat, applied: bool): State
    requires IsAct(s, a)
  {
    SetAct(s, a, Settle(s.acts[a], Threw).(strayed := s.acts[a].strayed || !applied))
      .(claims := if applied then s.claims - {s.acts[a].event} else s.claims)
  }

  function TimedOut(x: Activation): Activation {
    x.(handler := Requeueing, strayed := x.strayed || Holding(x.phase))
  }

  /** The copy a failed delivery is replaced by: retry queue, or dead letters once retries are spent. */
  function Replacement(maxRetries: int, s: State, a: nat): Copy
    requires IsAct(s, a)
  {
    var given := s.copies[s.acts[a].copy];
    Copy(given.event, given.retry + 1, Some(a), if given.retry >= maxRetries then DeadLetter else RetryQueue)
  }

  function Requeue(maxRetries: int, s: State, a: nat): State
    requires IsAct(s, a)
  {
    AddCopy(SetAct(s, a, s.acts[a].(handler := Republished(Home(s, a).gen))), Replacement(maxRetries, s, a))
  }

  function AckOutcome(h: Handler): Outcome {
    match h
    case Acking(Processed) => AsProcessed
    case Acking(Duplicate) => AsDuplicate
    case _ => Replaced
  }

  function AckedOwn(s: State, a: nat): State
    requires IsAct(s, a)
  {
    SetPlace(SetAct(s, a, s.acts[a].(handler := Finished)), s.acts[a].copy, Settled(AckOutcome(s.acts[a].handler)))
  }

  /** The frame settles a delivery that is not its own. */
  function AckedOther(s: State, a: nat, b: nat): State
    requires IsAct(s, a) && IsAct(s, b)
  {
    var s1 := SetAct(s, b, s.acts[b].(strayed := s.acts[b].strayed || Holding(s.acts[b].phase)));
    SetPlace(SetAct(s1, a, s1.acts[a].(handler := Finished)), s.acts[b].copy, Settled(Misacked))
  }

  function Apply(maxRetries: int, s: State, step: Step): State
    requires Enabled(s, step)
  {
    match step
    case Arrive(e, confirmed) => Arrived(s, e, confirmed)
    case BindQueue => s.(bound := true)
    case Connect(w) => Connected(s, w)
    case Disconnect(w) => Disconnected(s, w)
    case Crash(w) => ProcessGone(s, w)
    case Deliver(w, k) => Delivered(s, w, k)
    case RetryExpires(k) => SetPlace(s, k, Primary)
    case InsertClaim(a) => Inserted(s, a)
    case InsertThrows(a, applied) => InsertFailed(s, a, applied)
    case WorkEnds(a, ok) => SetAct(s, a, s.acts[a].(phase := if ok then Updating else Deleting))
    case UpdateEnds(a) => Updated(s, a)
    case UpdateThrows(a, applied) => UpdateFailed(s, a, applied)
    case DeleteEnds(a, applied) => Deleted(s, a, applied)
    case TimerFires(a) => SetAct(s, a, TimedOut(s.acts[a]))
    case Republish(a) => Requeue(maxRetries, s, a)
    case AckOwn(a) => AckedOwn(s, a)
    case AckOther(a, b) => AckedOther(s, a, b)
    case AckUnknown(a) => ProcessGone(s, s.acts[a].worker)
    case GiveUp(a) => SetAct(s, a, s.acts[a].(handler := Finished))
  }

  // ---------------------------------------------------------------- runs

  ghost function Machine(maxRetries: int): Runs.System<State, Step> {
    Runs.System(s => Init(s), (s, step) => Enabled(s, step),
                (s, step) => if Enabled(s, step) then Apply(maxRetries, s, step) else s)
  }
}
