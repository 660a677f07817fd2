/**
  `withIdempotency` as a transition system: any number of concurrent calls, one Redis key
  space with expiry, and a clock. A call keeps its place in `calls` when it is over, so a
  statement about a state covers the whole run that led to it.
*/
module Idempotency {
  import opened Shared
  import Runs

  const PROCESSING_TTL := 60
  const COMPLETED_TTL := 86_400
  const MAX_STORED_BYTES := 65_536

  type Key = string
  type Hash = nat

  /** A response; `bytes` is the size of its stored record. */
  datatype Response = Response(status: nat, body: string, bytes: nat)

  /** A stored record; `owner` is the call that wrote it. */
  datatype Record = InProgress(hash: Hash, expiresAt: nat, owner: nat)
                  | Completed(hash: Hash, response: Response, expiresAt: nat, owner: nat)

  datatype Reply = Own(response: Response) | Replay(response: Response) | KeyConflict | StillInProgress | Failed

  datatype Phase =
    | Claiming
    | Reading
    | Running
    | Storing(response: Response)
    | Releasing
    | Replied(reply: Reply)
    | Gone

  /**
    `claimedAt`: when its SET NX succeeded. `storedAt`: when its completed record was written.
    `overran`: its claim expired while it still held it. `lost`: its processor succeeded and no
    record of that was kept.
  */
  datatype Call = Call(key: Key, hash: Hash, phase: Phase, claimedAt: nat, storedAt: Option<nat>,
                       response: Option<Response>, overran: bool, lost: bool)

  datatype State = State(now: nat, store: map<Key, Record>, calls: seq<Call>)

  const EMPTY := State(0, map[], [])

  datatype Step =
    | Tick(seconds: nat)
    | Arrive(key: Key, hash: Hash)
    | SetNx(call: nat)
    | SetNxThrows(call: nat, applied: bool)
    | Get(call: nat)
    | GetThrows(call: nat)
    | ProcessorReturns(call: nat, response: Response)
    | ProcessorThrows(call: nat)
    | Store(call: nat)
    | StoreThrows(call: nat, applied: bool)
    | TooLarge(call: nat, applied: bool)
    | Release(call: nat, applied: bool)
    | Crash(call: nat)

  // ---------------------------------------------------------------- guards

  predicate Holds(p: Phase) { p.Running? || p.Storing? || p.Releasing? }

  /** Redis shows a record until it expires. */
  predicate Visible(s: State, k: Key) { k in s.store && s.now < s.store[k].expiresAt }

  predicate In(s: State, a: nat) { a < |s.calls| }

  predicate Enabled(s: State, step: Step) {
    match step
    case Tick(_) => true
    case Arrive(_, _) => true
    case SetNx(a) => In(s, a) && s.calls[a].phase.Claiming?
    case SetNxThrows(a, _) => In(s, a) && s.calls[a].phase.Claiming?
    case Get(a) => In(s, a) && s.calls[a].phase.Reading?
    case GetThrows(a) => In(s, a) && s.calls[a].phase.Reading?
    case ProcessorReturns(a, _) => In(s, a) && s.calls[a].phase.Running?
    case ProcessorThrows(a) => In(s, a) && s.calls[a].phase.Running?
    case Store(a) => In(s, a) && s.calls[a].phase.Storing? && s.calls[a].phase.response.bytes <= MAX_STORED_BYTES
    case StoreThrows(a, _) =>
      In(s, a) && s.calls[a].phase.Storing? && s.calls[a].phase.response.bytes <= MAX_STORED_BYTES
    case TooLarge(a, _) => In(s, a) && s.calls[a].phase.Storing? && s.calls[a].phase.response.bytes > MAX_STORED_BYTES
    case Release(a, _) => In(s, a) && s.calls[a].phase.Releasing?
    case Crash(a) => In(s, a) && !s.calls[a].phase.Replied?
  }

  // ---------------------------------------------------------------- effects

  function SetCall(s: State, a: nat, c: Call): State
    requires In(s, a)
  {
    s.(calls := s.calls[a := c])
  }

  /** Time passes; a holder whose claim expires is marked. */
  function Aged(now: nat, c: Call): Call {
    c.(overran := c.overran || (Holds(c.phase) && c.claimedAt + PROCESSING_TTL <= now))
  }

  function Ticked(s: State, seconds: nat): (t: State)
    ensures t.now == s.now + seconds && t.store == s.store && |t.calls| == |s.calls|
    ensures forall a | 0 <= a < |s.calls| :: t.calls[a] == Aged(t.now, s.calls[a])
  {
    s.(now := s.now + seconds,
       calls := seq(|s.calls|, a requires 0 <= a < |s.calls| => Aged(s.now + seconds, s.calls[a])))
  }

  function Arrived(s: State, k: Key, h: Hash): State {
    s.(calls := s.calls + [Call(k, h, Claiming, 0, None, None, false, false)])
  }

  function Claim(s: State, a: nat): Record
    requires In(s, a)
  {
    InProgress(s.calls[a].hash, s.now + PROCESSING_TTL, a)
  }

  function Claimed(s: State, a: nat): State
    requires In(s, a)
  {
    var c := s.calls[a];
    if Visible(s, c.key) then SetCall(s, a, c.(phase := Reading))
    else SetCall(s, a, c.(phase := Running, claimedAt := s.now)).(store := s.store[c.key := Claim(s, a)])
  }

  /** The SET NX throws before the `try`; a claim it left behind is released by nobody. */
  function ClaimFailed(s: State, a: nat, applied: bool): State
    requires In(s, a)
  {
    var c := s.calls[a];
    SetCall(s, a, c.(phase := Replied(Failed)))
      .(store := if applied && !Visible(s, c.key) then s.store[c.key := Claim(s, a)] else s.store)
  }

  /** What `readExistingRecord` answers; a record that vanished sends the call back to claiming. */
  function Answer(s: State, c: Call): Phase {
    if !Visible(s, c.key) then Claiming
    else if s.store[c.key].hash != c.hash then Replied(KeyConflict)
    else match s.store[c.key]
      case InProgress(_, _, _) => Replied(StillInProgress)
      case Completed(_, response, _, _) => Replied(Replay(response))
  }

  function Stored(s: State, a: nat): State
    requires In(s, a) && s.calls[a].phase.Storing?
  {
    var c := s.calls[a];
    SetCall(s, a, c.(phase := Replied(Own(c.phase.response)), storedAt := Some(s.now),
      response := Some(c.phase.response)))
      .(store := s.store[c.key := Completed(c.hash, c.phase.response, s.now + COMPLETED_TTL, a)])
  }

  /** The SET throws after the processor succeeded: into the `catch`, which releases the claim. */
  function StoreFailed(s: State, a: nat, applied: bool): State
    requires In(s, a) && s.calls[a].phase.Storing?
  {
    var c := s.calls[a];
    SetCall(s, a, c.(phase := Releasing, lost := true))
      .(store := if applied then s.store[c.key := Completed(c.hash, c.phase.response, s.now + COMPLETED_TTL, a)]
                 else s.store)
  }

  function Without(s: State, k: Key, applied: bool): map<Key, Record> {
    if applied then s.store - {k} else s.store
  }

  function Dropped(s: State, a: nat, applied: bool): State
    requires In(s, a) && s.calls[a].phase.Storing?
  {
    var c := s.calls[a];
    SetCall(s, a, c.(phase := Replied(Own(c.phase.response)), lost := true)).(store := Without(s, c.key, applied))
  }

  function Released(s: State, a: nat, applied: bool): State
    requires In(s, a)
  {
    SetCall(s, a, s.calls[a].(phase := Replied(Failed))).(store := Without(s, s.calls[a].key, applied))
  }

  function Apply(s: State, step: Step): State
    requires Enabled(s, step)
  {
    match step
    case Tick(seconds) => Ticked(s, seconds)
    case Arrive(k, h) => Arrived(s, k, h)
    case SetNx(a) => Claimed(s, a)
    case SetNxThrows(a, applied) => ClaimFailed(s, a, applied)
    case Get(a) => SetCall(s, a, s.calls[a].(phase := Answer(s, s.calls[a])))
    case GetThrows(a) => SetCall(s, a, s.calls[a].(phase := Replied(Failed)))
    case ProcessorReturns(a, response) => SetCall(s, a, s.calls[a].(phase := Storing(response)))
    case ProcessorThrows(a) => SetCall(s, a, s.calls[a].(phase := Releasing))
    case Store(a) => Stored(s, a)
    case StoreThrows(a, applied) => StoreFailed(s, a, applied)
    case TooLarge(a, applied) => Dropped(s, a, applied)
    case Release(a, applied) => Released(s, a, applied)
    case Crash(a) => SetCall(s, a, s.calls[a].(phase := Gone, lost := s.calls[a].lost || s.calls[a].phase.Storing?))
  }

  // ---------------------------------------------------------------- invariants

  /** No call of this key outlived its claim or lost the record of its success. */
  ghost predicate Clean(s: State, k: Key) {
    forall a | 0 <= a < |s.calls| && s.calls[a].key == k :: !s.calls[a].overran && !s.calls[a].lost
  }

  /** A holder still has its claim in the store. */
  ghost predicate HolderBacked(s: State, a: nat)
    requires In(s, a)
  {
    var c := s.calls[a];
    Holds(c.phase) ==>
      && c.claimedAt <= s.now && c.storedAt.None?
      && Visible(s, c.key)
      && s.store[c.key] == InProgress(c.hash, c.claimedAt + PROCESSING_TTL, a)
  }

  /** A recorded success is in the store until it expires. */
  ghost predicate SuccessBacked(s: State, a: nat)
    requires In(s, a)
  {
    var c := s.calls[a];
    c.storedAt.Some? ==>
      && c.response.Some? && c.phase == Replied(Own(c.response.value)) && c.claimedAt <= c.storedAt.value <= s.now
      && (s.now < c.storedAt.value + COMPLETED_TTL ==>
            && c.key in s.store
            && s.store[c.key] == Completed(c.hash, c.response.value, c.storedAt.value + COMPLETED_TTL, a))
  }

  /** A completed record in the store is the one its owner wrote. */
  ghost predicate RecordOwned(s: State, k: Key)
    requires k in s.store
  {
    s.store[k].Completed? ==>
      && In(s, s.store[k].owner)
      && var c := s.calls[s.store[k].owner];
         c.key == k && c.storedAt.Some? && c.response == Some(s.store[k].response) && c.hash == s.store[k].hash
         && s.store[k].expiresAt == c.storedAt.value + COMPLETED_TTL
  }

  /** Two processors that got somewhere under one key are a whole record life apart. */
  ghost predicate Apart(s: State, a: nat, b: nat)
    requires In(s, a) && In(s, b)
  {
    && s.calls[a].storedAt.Some? && a != b && s.calls[a].key == s.calls[b].key
    && (Holds(s.calls[b].phase) || s.calls[b].storedAt.Some?)
    ==>
    || s.calls[a].storedAt.value + COMPLETED_TTL <= s.calls[b].claimedAt
    || (s.calls[b].storedAt.Some? && s.calls[b].storedAt.value + COMPLETED_TTL <= s.calls[a].claimedAt)
  }

  /** A replayed reply is the response some call of this key with this hash recorded. */
  ghost predicate ReplayBacked(s: State, b: nat)
    requires In(s, b)
  {
    s.calls[b].phase.Replied? && s.calls[b].phase.reply.Replay? ==> exists a: nat :: Source(s, a, b)
  }

  ghost predicate Source(s: State, a: nat, b: nat)
    requires In(s, b) && s.calls[b].phase.Replied? && s.calls[b].phase.reply.Replay?
  {
    && In(s, a) && s.calls[a].key == s.calls[b].key && s.calls[a].hash == s.calls[b].hash
    && s.calls[a].storedAt.Some? && s.calls[a].response == Some(s.calls[b].phase.reply.response)
  }

  ghost predicate CallInv(s: State, a: nat)
    requires In(s, a)
  {
    HolderBacked(s, a) && SuccessBacked(s, a) && ReplayBacked(s, a)
  }

  ghost predicate KeyInv(s: State, k: Key) {
    && (forall a | 0 <= a < |s.calls| && s.calls[a].key == k :: CallInv(s, a))
    && (k in s.store ==> RecordOwned(s, k))
    && (forall a, b | 0 <= a < |s.calls| && 0 <= b < |s.calls| && s.calls[a].key == k :: Apart(s, a, b))
  }

  ghost predicate Inv(s: State) {
    forall k | Clean(s, k) :: KeyInv(s, k)
  }

  // ---------------------------------------------------------------- one step keeps them

  lemma CallsStay(s: State, step: Step, a: nat)
    requires Enabled(s, step) && In(s, a)
    ensures var s' := Apply(s, step);
      && In(s', a) && s'.calls[a].key == s.calls[a].key && s'.calls[a].hash == s.calls[a].hash
      && (s.calls[a].overran ==> s'.calls[a].overran) && (s.calls[a].lost ==> s'.calls[a].lost)
  {
  }

  lemma CleanBefore(s: State, step: Step, k: Key)
    requires Enabled(s, step) && Clean(Apply(s, step), k)
    ensures Clean(s, k)
  {
    forall a | 0 <= a < |s.calls| && s.calls[a].key == k ensures !s.calls[a].overran && !s.calls[a].lost {
      CallsStay(s, step, a);
    }
  }

  lemma RecordStep(s: State, step: Step, k: Key)
    requires Enabled(s, step) && Clean(s, k) && KeyInv(s, k) && Clean(Apply(s, step), k)
    requires k in Apply(s, step).store
    ensures RecordOwned(Apply(s, step), k)
  {
    if step.Store? || step.StoreThrows? || step.SetNx? || step.SetNxThrows? {
      RecordWritten(s, step, k);
    } else {
      RecordKept(s, step, k);
    }
  }

  lemma RecordWritten(s: State, step: Step, k: Key)
    requires Enabled(s, step) && Clean(s, k) && KeyInv(s, k) && Clean(Apply(s, step), k)
    requires k in Apply(s, step).store && (step.Store? || step.StoreThrows? || step.SetNx? || step.SetNxThrows?)
    ensures RecordOwned(Apply(s, step), k)
  {
  }

  lemma RecordKept(s: State, step: Step, k: Key)
    requires Enabled(s, step) && Clean(s, k) && KeyInv(s, k) && Clean(Apply(s, step), k)
    requires k in Apply(s, step).store && !step.Store? && !step.StoreThrows? && !step.SetNx? && !step.SetNxThrows?
    ensures RecordOwned(Apply(s, step), k)
  {
  }

  lemma HolderStep(s: State, step: Step, a: nat)
    requires Enabled(s, step) && In(Apply(s, step), a)
    requires Clean(s, Apply(s, step).calls[a].key) && KeyInv(s, Apply(s, step).calls[a].key)
    requires Clean(Apply(s, step), Apply(s, step).calls[a].key)
    ensures HolderBacked(Apply(s, step), a)
  {
  }

  predicate ByCall(step: Step) { !step.Tick? && !step.Arrive? }

  lemma SuccessStep(s: State, step: Step, a: nat)
    requires Enabled(s, step) && In(s, a)
    requires KeyInv(s, s.calls[a].key) && Clean(Apply(s, step), s.calls[a].key)
    ensures SuccessBacked(Apply(s, step), a)
  {
    assert CallInv(s, a);
    if ByCall(step) && s.calls[step.call].key == s.calls[a].key { assert CallInv(s, step.call); }
  }

  lemma ReplayStep(s: State, step: Step, b: nat)
    requires Enabled(s, step) && In(s, b)
    requires KeyInv(s, s.calls[b].key)
    ensures ReplayBacked(Apply(s, step), b)
  {
    var s' := Apply(s, step);
    assert CallInv(s, b);
    if s'.calls[b].phase.Replied? && s'.calls[b].phase.reply.Replay? {
      if s.calls[b].phase.Replied? {
        var a: nat :| Source(s, a, b);
        assert CallInv(s, a);
        SourceStays(s, step, a);
        assert Source(s', a, b);
      } else {
        assert RecordOwned(s, s.calls[b].key);
        assert Source(s', s.store[s.calls[b].key].owner, b);
      }
    }
  }

  /** A recorded success is history. */
  lemma SourceStays(s: State, step: Step, a: nat)
    requires Enabled(s, step) && In(s, a) && s.calls[a].storedAt.Some? && SuccessBacked(s, a)
    ensures var s' := Apply(s, step);
      && In(s', a) && s'.calls[a].storedAt == s.calls[a].storedAt && s'.calls[a].response == s.calls[a].response
      && s'.calls[a].key == s.calls[a].key && s'.calls[a].hash == s.calls[a].hash
      && s'.calls[a].claimedAt == s.calls[a].claimedAt
  {
  }

  lemma CallStep(s: State, step: Step, a: nat)
    requires Enabled(s, step) && In(Apply(s, step), a)
    requires KeyInv(s, Apply(s, step).calls[a].key) && Clean(s, Apply(s, step).calls[a].key)
    requires Clean(Apply(s, step), Apply(s, step).calls[a].key)
    ensures CallInv(Apply(s, step), a)
  {
    HolderStep(s, step, a);
    if a < |s.calls| {
      CallsStay(s, step, a);
      SuccessStep(s, step, a);
      ReplayStep(s, step, a);
    }
  }

  lemma ApartStep(s: State, step: Step, a: nat, b: nat)
    requires Enabled(s, step) && In(s, a) && In(s, b)
    requires KeyInv(s, s.calls[a].key) && Clean(Apply(s, step), s.calls[a].key)
    ensures Apart(Apply(s, step), a, b)
  {
    if step.Store? || step.SetNx? {
      ApartWritten(s, step, a, b);
    } else {
      assert Apart(s, a, b);
    }
  }

  /** A success is recorded, or a claim succeeds. */
  lemma ApartWritten(s: State, step: Step, a: nat, b: nat)
    requires Enabled(s, step) && In(s, a) && In(s, b) && (step.Store? || step.SetNx?)
    requires KeyInv(s, s.calls[a].key) && Clean(Apply(s, step), s.calls[a].key)
    ensures Apart(Apply(s, step), a, b)
  {
    assert CallInv(s, a) && Apart(s, a, b) && Apart(s, b, a);
    if s.calls[a].key == s.calls[b].key { assert CallInv(s, b); }
  }

  lemma KeyStep(s: State, step: Step, k: Key)
    requires Enabled(s, step) && KeyInv(s, k) && Clean(Apply(s, step), k)
    ensures KeyInv(Apply(s, step), k)
  {
    var s' := Apply(s, step);
    CleanBefore(s, step, k);
    forall a | 0 <= a < |s'.calls| && s'.calls[a].key == k ensures CallInv(s', a) { CallStep(s, step, a); }
    if k in s'.store { RecordStep(s, step, k); }
    forall a, b | 0 <= a < |s'.calls| && 0 <= b < |s'.calls| && s'.calls[a].key == k ensures Apart(s', a, b) {
      if a < |s.calls| && b < |s.calls| {
        CallsStay(s, step, a);
        ApartStep(s, step, a, b);
      }
    }
  }

  lemma InvStep(s: State, step: Step)
    requires Inv(s) && Enabled(s, step)
    ensures Inv(Apply(s, step))
  {
    forall k | Clean(Apply(s, step), k) ensures KeyInv(Apply(s, step), k) {
      CleanBefore(s, step, k);
      KeyStep(s, step, k);
    }
  }

  // ---------------------------------------------------------------- runs

  ghost function Machine(): Runs.System<State, Step> {
    Runs.System(s => s == EMPTY, (s, step) => Enabled(s, step),
                (s, step) => if Enabled(s, step) then Apply(s, step) else s)
  }

  ghost predicate Reachable(s: State) { Runs.Reaches(Machine(), s) }

  lemma ReachableInit()
    ensures Reachable(EMPTY)
  {
    Runs.Start(Machine(), EMPTY);
  }

  lemma ReachableStep(s: State, step: Step, s': State)
    requires Reachable(s) && Enabled(s, step) && Apply(s, step) == s'
    ensures Reachable(s')
  {
    Runs.Go(Machine(), s, step, s');
  }

  lemma InvReachable(s: State)
    requires Reachable(s)
    ensures Inv(s)
  {
    forall x, step | Inv(x) && Enabled(x, step) ensures Inv(Apply(x, step)) { InvStep(x, step); }
    Runs.Invariant(Machine(), Inv, s);
  }

  // ---------------------------------------------------------------- theorems

  ghost predicate Live(s: State, a: nat) {
    In(s, a) && s.calls[a].storedAt.Some? && s.now < s.calls[a].storedAt.value + 86_400
  }

  /** At most one processor per key runs at a time, and no other call's record is in the way of it. */
  lemma OneProcessorAtATime(s: State, a: nat, b: nat)
    requires Reachable(s) && In(s, a) && In(s, b) && s.calls[a].key == s.calls[b].key && Clean(s, s.calls[a].key)
    requires Holds(s.calls[a].phase)
    ensures Holds(s.calls[b].phase) ==> a == b
    ensures !Live(s, b)
  {
    InvReachable(s);
    assert KeyInv(s, s.calls[a].key);
    assert CallInv(s, a) && CallInv(s, b);
  }

  /** Processors of one key that hold the claim or recorded a success ran a whole record life, 24 hours, apart. */
  lemma SuccessesApart(s: State, a: nat, b: nat)
    requires Reachable(s) && In(s, a) && In(s, b) && a != b
    requires s.calls[a].key == s.calls[b].key && Clean(s, s.calls[a].key)
    requires s.calls[a].storedAt.Some? && (Holds(s.calls[b].phase) || s.calls[b].storedAt.Some?)
    ensures || s.calls[a].storedAt.value + 86_400 <= s.calls[b].claimedAt
            || (s.calls[b].storedAt.Some? && s.calls[b].storedAt.value + 86_400 <= s.calls[a].claimedAt)
  {
    InvReachable(s);
    assert KeyInv(s, s.calls[a].key) && Apart(s, a, b);
  }

  /** A claim lasts a minute: its holder has overrun it exactly if it took it a minute ago or more. */
  lemma ClaimLastsAMinute(s: State, a: nat)
    requires Reachable(s) && In(s, a) && Holds(s.calls[a].phase)
    ensures s.calls[a].claimedAt <= s.now
    ensures s.calls[a].overran <==> s.calls[a].claimedAt + 60 <= s.now
  {
    forall x, step | MinutesOk(x) && Enabled(x, step) ensures MinutesOk(Apply(x, step)) { MinutesStep(x, step); }
    Runs.Invariant(Machine(), MinutesOk, s);
    assert MinuteOk(s, a);
  }

  lemma MinutesStep(s: State, step: Step)
    requires MinutesOk(s) && Enabled(s, step)
    ensures MinutesOk(Apply(s, step))
  {
    forall a | 0 <= a < |Apply(s, step).calls| ensures MinuteOk(Apply(s, step), a) {
      if a < |s.calls| { assert MinuteOk(s, a); }
    }
  }

  ghost predicate MinutesOk(s: State) { forall a | 0 <= a < |s.calls| :: MinuteOk(s, a) }

  ghost predicate MinuteOk(s: State, a: nat)
    requires In(s, a)
  {
    var c := s.calls[a];
    && (Holds(c.phase) ==> c.claimedAt <= s.now && (c.overran <==> c.claimedAt + 60 <= s.now))
    && (c.phase.Claiming? || c.phase.Reading? ==> !c.overran)
  }

  /** A success of at most 65536 bytes is stored, and a larger one never is. */
  lemma SizeLimit(s: State, a: nat, applied: bool)
    requires In(s, a) && s.calls[a].phase.Storing?
    ensures Enabled(s, Store(a)) <==> s.calls[a].phase.response.bytes <= 65_536
    ensures Enabled(s, StoreThrows(a, applied)) <==> s.calls[a].phase.response.bytes <= 65_536
    ensures Enabled(s, TooLarge(a, applied)) <==> s.calls[a].phase.response.bytes >= 65_537
  {
  }

  lemma ClaimedBeforeStored(s: State, a: nat)
    requires Reachable(s) && In(s, a) && Clean(s, s.calls[a].key)
    ensures s.calls[a].storedAt.Some? ==> s.calls[a].claimedAt <= s.calls[a].storedAt.value
  {
    InvReachable(s);
    assert KeyInv(s, s.calls[a].key) && CallInv(s, a);
  }

  /** Past its claim, a call never goes back to it. */
  lemma NeverBack(s: State, step: Step, a: nat)
    requires Enabled(s, step) && In(s, a) && !s.calls[a].phase.Claiming? && !s.calls[a].phase.Reading?
    ensures In(Apply(s, step), a)
    ensures !Apply(s, step).calls[a].phase.Claiming? && !Apply(s, step).calls[a].phase.Reading?
  {
  }

  /**
    While a success is on record, every call of its key is answered from it: replay on the same hash,
    conflict on another.
  */
  lemma AnsweredFromRecord(s: State, a: nat, b: nat)
    requires Reachable(s) && Live(s, a) && In(s, b)
    requires s.calls[a].key == s.calls[b].key && Clean(s, s.calls[a].key)
    ensures s.calls[a].response.Some?
    ensures s.calls[b].phase.Claiming? ==> Apply(s, SetNx(b)).calls[b].phase == Reading
    ensures s.calls[b].phase.Reading? ==> Apply(s, Get(b)).calls[b].phase == Replied(
      if s.calls[b].hash == s.calls[a].hash then Replay(s.calls[a].response.value) else KeyConflict)
  {
    InvReachable(s);
    assert KeyInv(s, s.calls[a].key) && CallInv(s, a);
  }

  /** When a success counts as lost, and a claim as overrun. */
  lemma LostAndOverrun(s: State, step: Step, a: nat)
    requires Enabled(s, step) && In(s, a)
    ensures In(Apply(s, step), a)
    ensures Apply(s, step).calls[a].lost <==>
      || s.calls[a].lost
      || ((step.StoreThrows? || step.TooLarge?) && step.call == a)
      || (step == Crash(a) && s.calls[a].phase.Storing?)
    ensures Apply(s, step).calls[a].overran <==>
      || s.calls[a].overran
      || (step.Tick? && Holds(s.calls[a].phase) && s.calls[a].claimedAt + 60 <= Apply(s, step).now)
  {
  }

  /** What has been replied stays as it is. */
  lemma {:induction false} RepliedStays(s: State, steps: seq<Step>, a: nat)
    requires Runs.Valid(Machine(), s, steps) && In(s, a) && s.calls[a].phase.Replied?
    ensures var end := Runs.After(Machine(), s, steps);
      s.now <= end.now && In(end, a) && end.calls[a] == s.calls[a]
    decreases |steps|
  {
    if steps != [] { RepliedStays(Apply(s, steps[0]), steps[1..], a); }
  }

  lemma {:induction false} StaysReachable(s: State, steps: seq<Step>)
    requires Reachable(s) && Runs.Valid(Machine(), s, steps)
    ensures Reachable(Runs.After(Machine(), s, steps))
    decreases |steps|
  {
    if steps != [] {
      ReachableStep(s, steps[0], Apply(s, steps[0]));
      StaysReachable(Apply(s, steps[0]), steps[1..]);
    }
  }

  /**
    A success that is stored is the answer to its key for 24 hours from that moment, whatever happens in
    between: until then no processor of the key runs, every call that claims finds the record, and every
    call that reads it gets the response, or a conflict if its request is another one.
  */
  lemma AnsweredForADay(s: State, a: nat, steps: seq<Step>, b: nat)
    requires Reachable(s) && Enabled(s, Store(a)) && Runs.Valid(Machine(), Apply(s, Store(a)), steps)
    requires Runs.After(Machine(), Apply(s, Store(a)), steps).now < s.now + 86_400
    requires Clean(Runs.After(Machine(), Apply(s, Store(a)), steps), s.calls[a].key)
    requires In(Runs.After(Machine(), Apply(s, Store(a)), steps), b)
    requires Runs.After(Machine(), Apply(s, Store(a)), steps).calls[b].key == s.calls[a].key
    ensures var end := Runs.After(Machine(), Apply(s, Store(a)), steps);
      && !Holds(end.calls[b].phase)
      && (end.calls[b].phase.Claiming? ==> Apply(end, SetNx(b)).calls[b].phase == Reading)
      && (end.calls[b].phase.Reading? ==> Apply(end, Get(b)).calls[b].phase == Replied(
            if end.calls[b].hash == s.calls[a].hash then Replay(s.calls[a].phase.response) else KeyConflict))
  {
    var s1 := Apply(s, Store(a));
    var end := Runs.After(Machine(), s1, steps);
    ReachableStep(s, Store(a), s1);
    StaysReachable(s1, steps);
    RepliedStays(s1, steps, a);
    AnsweredFromRecord(end, a, b);
    if Holds(end.calls[b].phase) { OneProcessorAtATime(end, b, a); }
  }

  /** While a processor runs, every other call of its key is answered 409 without running anything. */
  lemma AnsweredInProgress(s: State, a: nat, b: nat)
    requires Reachable(s) && In(s, a) && Holds(s.calls[a].phase) && In(s, b)
    requires s.calls[a].key == s.calls[b].key && Clean(s, s.calls[a].key)
    ensures s.calls[b].phase.Claiming? ==> Apply(s, SetNx(b)).calls[b].phase == Reading
    ensures s.calls[b].phase.Reading? ==> Apply(s, Get(b)).calls[b].phase == Replied(
      if s.calls[b].hash == s.calls[a].hash then StillInProgress else KeyConflict)
  {
    InvReachable(s);
    assert KeyInv(s, s.calls[a].key) && CallInv(s, a);
  }

  /** Every replayed response is the one a successful call with this key and hash recorded. */
  lemma ReplaysAreRecorded(s: State, b: nat)
    requires Reachable(s) && In(s, b) && Clean(s, s.calls[b].key)
    requires s.calls[b].phase.Replied? && s.calls[b].phase.reply.Replay?
    ensures exists a: nat :: Source(s, a, b)
  {
    InvReachable(s);
    assert KeyInv(s, s.calls[b].key) && CallInv(s, b);
  }

  // ---------------------------------------------------------------- why the exemptions are needed

  function C(p: Phase): Call { Call("k", 0, p, 0, None, None, false, false) }

  /** Two calls with the same key and body; the first holds the claim. */
  lemma FirstClaims()
    ensures Reachable(State(0, map["k" := InProgress(0, 60, 0)], [C(Running), C(Claiming)]))
  {
    ReachableInit();
    ReachableStep(EMPTY, Arrive("k", 0), State(0, map[], [C(Claiming)]));
    ReachableStep(State(0, map[], [C(Claiming)]), Arrive("k", 0), State(0, map[], [C(Claiming), C(Claiming)]));
    ReachableStep(State(0, map[], [C(Claiming), C(Claiming)]), SetNx(0),
       State(0, map["k" := InProgress(0, 60, 0)], [C(Running), C(Claiming)]));
  }

  /** A processor that outlives the claim runs beside a second one. */
  lemma OverrunOverlaps() returns (s: State)
    ensures Reachable(s) && |s.calls| == 2 && s.calls[0].key == s.calls[1].key
    ensures s.calls[0].phase.Running? && s.calls[1].phase.Running?
    ensures s.calls[0].overran && !s.calls[1].overran && !s.calls[0].lost && !s.calls[1].lost
  {
    FirstClaims();
    var s0 := State(0, map["k" := InProgress(0, 60, 0)], [C(Running), C(Claiming)]);
    var s1 := State(60, map["k" := InProgress(0, 60, 0)], [C(Running).(overran := true), C(Claiming)]);
    assert Ticked(s0, 60).calls == s1.calls;
    ReachableStep(s0, Tick(60), s1);
    s := State(60, map["k" := InProgress(0, 120, 1)], [C(Running).(overran := true), C(Running).(claimedAt := 60)]);
    ReachableStep(s1, SetNx(1), s);
  }

  /** Redis fails to store a success: the claim is released, and the retry runs the processor again. */
  lemma FailedStoreRunsTwice(r: Response) returns (s: State)
    requires r.bytes <= 65_536
    ensures Reachable(s) && |s.calls| == 2 && s.calls[0].key == s.calls[1].key && s.now == 0
    ensures s.calls[0].lost && s.calls[0].phase == Replied(Failed) && s.calls[1].phase == Storing(r)
  {
    FirstClaims();
    var held := map["k" := InProgress(0, 60, 0)];
    ReachableStep(State(0, held, [C(Running), C(Claiming)]), ProcessorReturns(0, r),
      State(0, held, [C(Storing(r)), C(Claiming)]));
    var failed := C(Releasing).(lost := true);
    ReachableStep(State(0, held, [C(Storing(r)), C(Claiming)]), StoreThrows(0, false),
      State(0, held, [failed, C(Claiming)]));
    var over := failed.(phase := Replied(Failed));
    assert held - {"k"} == map[];
    ReachableStep(State(0, held, [failed, C(Claiming)]), Release(0, true), State(0, map[], [over, C(Claiming)]));
    SecondRuns(over, r);
    s := State(0, map["k" := InProgress(0, 60, 1)], [over, C(Storing(r))]);
  }

  lemma SecondRuns(first: Call, r: Response)
    requires Reachable(State(0, map[], [first, C(Claiming)]))
    ensures Reachable(State(0, map["k" := InProgress(0, 60, 1)], [first, C(Storing(r))]))
  {
    ReachableStep(State(0, map[], [first, C(Claiming)]), SetNx(1),
      State(0, map["k" := InProgress(0, 60, 1)], [first, C(Running)]));
    ReachableStep(State(0, map["k" := InProgress(0, 60, 1)], [first, C(Running)]), ProcessorReturns(1, r),
       State(0, map["k" := InProgress(0, 60, 1)], [first, C(Storing(r))]));
  }

  /** A success too large to store releases the claim: the next call with the key runs the processor again. */
  lemma LargeSuccessRunsTwice(r: Response) returns (s: State)
    requires r.bytes > 65_536
    ensures Reachable(s) && |s.calls| == 2 && s.calls[0].key == s.calls[1].key && s.now == 0
    ensures s.calls[0].lost && s.calls[0].phase == Replied(Own(r)) && s.calls[1].phase == Storing(r)
  {
    FirstClaims();
    var held := map["k" := InProgress(0, 60, 0)];
    ReachableStep(State(0, held, [C(Running), C(Claiming)]), ProcessorReturns(0, r),
      State(0, held, [C(Storing(r)), C(Claiming)]));
    var over := C(Replied(Own(r))).(lost := true);
    assert held - {"k"} == map[];
    ReachableStep(State(0, held, [C(Storing(r)), C(Claiming)]), TooLarge(0, true),
      State(0, map[], [over, C(Claiming)]));
    SecondRuns(over, r);
    s := State(0, map["k" := InProgress(0, 60, 1)], [over, C(Storing(r))]);
  }

  /** A holder that dies leaves its claim to expire; then whoever asks next runs the processor again. */
  lemma DeadHolderExpires(s: State, a: nat, b: nat) returns (s': State)
    requires Reachable(s) && In(s, a) && In(s, b) && Clean(s, s.calls[a].key) && s.calls[b].key == s.calls[a].key
    requires s.calls[a].phase.Running? && s.calls[b].phase.Claiming?
    ensures s' == Claimed(Ticked(SetCall(s, a, s.calls[a].(phase := Gone)), 60), b)
    ensures In(s', a) && In(s', b) && s'.calls[b].phase.Running? && s'.calls[a].phase.Gone?
    ensures s'.calls[b].key == s.calls[b].key && s'.calls[a].key == s.calls[a].key
  {
    InvReachable(s);
    assert KeyInv(s, s.calls[a].key) && CallInv(s, a);
    s' := Claimed(Ticked(SetCall(s, a, s.calls[a].(phase := Gone)), 60), b);
  }
}
