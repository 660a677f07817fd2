/**
  `withIdempotency` as the program it is, with every other request, and the clock, moving at
  each `await`.
*/
module IdempotentRequests {
  import opened Shared
  import Runs
  import opened Idempotency
  import opened IdempotencyKeys

  type Moment = Runs.Taken<State, Step>

  /** What the calls to Redis and the processor meet; `setNx` and `get` in each round. */
  datatype Script = Script(
    setNx: nat -> Io,
    get: nat -> bool,
    processor: Outcome,
    store: Io,
    delApplied: bool)

  datatype Io = Works | Breaks(applied: bool)

  datatype Outcome = Returns(response: Response) | Throws

  // ---------------------------------------------------------------- the program

  /** The steps of a call whose processor runs. */
  function ProcessorSteps(a: nat, x: Script): seq<Step> {
    match x.processor
    case Throws => [ProcessorThrows(a), Release(a, x.delApplied)]
    case Returns(r) => [ProcessorReturns(a, r)] + KeepSteps(a, r, x)
  }

  /** A success is stored, unless it is too large; if Redis fails to store it, the claim is released. */
  function KeepSteps(a: nat, r: Response, x: Script): seq<Step> {
    if r.bytes > MAX_STORED_BYTES then [TooLarge(a, x.delApplied)]
    else match x.store
      case Works => [Store(a)]
      case Breaks(applied) => [StoreThrows(a, applied), Release(a, x.delApplied)]
  }

  /** What a caller whose processor ran is told. */
  function ProcessorReply(x: Script): Reply {
    match x.processor
    case Throws => Failed
    case Returns(r) => if r.bytes > MAX_STORED_BYTES || x.store.Works? then Own(r) else Failed
  }

  function StepsOf(es: seq<Moment>): seq<Step> { seq(|es|, i requires 0 <= i < |es| => es[i].step) }

  /**
    What a call does, each step with the state it met, and the phase it ends in. SET NX: if no record is
    visible to it the processor runs, otherwise GET, and the record it shows is the answer; if
    it shows none, the next round.
  */
  ghost predicate Handles(a: nat, x: Script, round: nat, rounds: nat, es: seq<Moment>, end: Phase)
    requires round <= rounds
    decreases rounds - round
  {
    if round == rounds then es == [] && end == Claiming
    else if x.setNx(round).Breaks? then
      StepsOf(es) == [SetNxThrows(a, x.setNx(round).applied)] && end == Replied(Failed)
    else
      && es != [] && es[0].step == SetNx(a) && In(es[0].before, a)
      && if !Visible(es[0].before, es[0].before.calls[a].key)
         then StepsOf(es[1..]) == ProcessorSteps(a, x) && end == Replied(ProcessorReply(x))
         else ReadsRecord(a, x, round, rounds, es[1..], end)
  }

  ghost predicate ReadsRecord(a: nat, x: Script, round: nat, rounds: nat, es: seq<Moment>, end: Phase)
    requires round < rounds
    decreases rounds - round, 0
  {
    if !x.get(round) then StepsOf(es) == [GetThrows(a)] && end == Replied(Failed)
    else
      && es != [] && es[0].step == Get(a) && In(es[0].before, a)
      && var answer := Answer(es[0].before, es[0].before.calls[a]);
         if answer.Claiming? then Handles(a, x, round + 1, rounds, es[1..], end)
         else es == [es[0]] && end == answer
  }

  // ---------------------------------------------------------------- the methods

  /** What others leave to a call: its identity, and its phase unless its process dies. */
  ghost predicate Kept(a: nat, s: State, s': State) {
    In(s, a) ==>
      && In(s', a) && s'.calls[a].phase == s.calls[a].phase
      && s'.calls[a].key == s.calls[a].key && s'.calls[a].hash == s.calls[a].hash
  }

  predicate Mine(a: nat, step: Step) { ByCall(step) && step.call == a }

  function By(a: nat): Step -> bool { step => Mine(a, step) }

  class Requests {
    var st: State
    ghost var log: seq<Moment>

    ghost predicate Ok()
      reads this
    {
      Runs.Traced(Machine(), log, st)
    }

    /** The steps call `a` has taken, each with the state it met. */
    ghost function Own(a: nat): seq<Moment>
      reads this
    {
      Runs.Own(By(a), log)
    }

    constructor ()
      ensures Ok() && st == EMPTY && log == []
    {
      st := EMPTY;
      log := [];
    }

    lemma Reached()
      requires Ok()
      ensures Reachable(st)
    {
      Runs.TracedReaches(Machine(), log, st, |log|);
    }

    method Do(step: Step)
      requires Ok() && Enabled(st, step)
      modifies this
      ensures Ok() && st == Apply(old(st), step) && log == old(log) + [Runs.Taken(old(st), step)]
      ensures forall a :: Own(a) == if Mine(a, step) then old(Own(a)) + [Runs.Taken(old(st), step)] else old(Own(a))
    {
      ghost var x := Runs.Taken(st, step);
      Runs.TracedSnoc(Machine(), log, st, step, Apply(st, step));
      forall a ensures Runs.Own(By(a), log + [x]) == if Mine(a, step) then Own(a) + [x] else Own(a) {
        Runs.OwnSnoc(By(a), log, x);
      }
      st := Apply(st, step);
      log := log + [x];
    }

    /** Whatever of `schedule` is possible happens, except steps of call `a`. */
    method Await(schedule: seq<Step>, a: nat)
      requires Ok()
      modifies this
      ensures Ok() && Kept(a, old(st), st) && Own(a) == old(Own(a))
    {
      for i := 0 to |schedule|
        invariant Ok() && Kept(a, old(st), st) && Own(a) == old(Own(a))
      {
        if !Mine(a, schedule[i]) && Enabled(st, schedule[i]) {
          Do(schedule[i]);
        }
      }
    }

    /** SET NX: the processor runs exactly if no record is visible to it. */
    method TryClaim(a: nat, io: Io, others: seq<Step>) returns (ghost claim: Moment)
      requires Ok() && In(st, a) && st.calls[a].phase.Claiming?
      modifies this
      ensures Ok() && Same(old(st), st, a) && Same(old(st), claim.before, a) && Own(a) == old(Own(a)) + [claim]
      ensures claim.step == if io.Breaks? then SetNxThrows(a, io.applied) else SetNx(a)
      ensures if io.Breaks? then st.calls[a].phase == Replied(Failed)
              else if Visible(claim.before, claim.before.calls[a].key) then st.calls[a].phase == Reading
              else st.calls[a].phase == Running && st.calls[a].claimedAt == st.now
    {
      Await(others, a);
      match io
      case Works => claim := Runs.Taken(st, SetNx(a)); Do(SetNx(a));
      case Breaks(applied) => claim := Runs.Taken(st, SetNxThrows(a, applied)); Do(SetNxThrows(a, applied));
    }

    /** `readExistingRecord`. */
    method ReadExistingRecord(a: nat, works: bool, others: seq<Step>) returns (ghost look: Moment)
      requires Ok() && In(st, a) && st.calls[a].phase.Reading?
      modifies this
      ensures Ok() && Same(old(st), st, a) && Same(old(st), look.before, a) && Own(a) == old(Own(a)) + [look]
      ensures look.step == if works then Get(a) else GetThrows(a)
      ensures st.calls[a].phase == if works then Answer(look.before, look.before.calls[a]) else Replied(Failed)
      ensures works ==> ReadAs(look.before, look.before.calls[a], st.calls[a].phase)
    {
      Await(others, a);
      look := Runs.Taken(st, if works then Get(a) else GetThrows(a));
      if works { Do(Get(a)); } else { Do(GetThrows(a)); }
    }

    /** The `try` and `catch` around the processor. */
    method RunProcessor(a: nat, x: Script, others: nat -> seq<Step>) returns (ghost es: seq<Moment>)
      requires Ok() && In(st, a) && st.calls[a].phase.Running?
      modifies this
      ensures Ok() && Same(old(st), st, a)
      ensures Own(a) == old(Own(a)) + es && StepsOf(es) == ProcessorSteps(a, x)
      ensures st.calls[a].phase == Replied(ProcessorReply(x))
      ensures IsTooLarge(x) ==> StepsOf(es) == [ProcessorReturns(a, x.processor.response), TooLarge(a, x.delApplied)]
      ensures Leaves(st, a, x) && GetsOwn(x, st.calls[a].phase)
    {
      Await(others(0), a);
      match x.processor {
        case Throws => es := ReleaseClaim(a, ProcessorThrows(a), x, others(1));
        case Returns(r) => es := ReturnResult(a, r, x, others);
      }
    }

    method ReturnResult(a: nat, r: Response, x: Script, others: nat -> seq<Step>) returns (ghost es: seq<Moment>)
      requires Ok() && In(st, a) && st.calls[a].phase.Running? && x.processor == Returns(r)
      modifies this
      ensures Ok() && Same(old(st), st, a)
      ensures Own(a) == old(Own(a)) + es && StepsOf(es) == ProcessorSteps(a, x)
      ensures st.calls[a].phase == Replied(ProcessorReply(x))
      ensures Leaves(st, a, x) && GetsOwn(x, st.calls[a].phase)
    {
      ghost var first := Runs.Taken(st, ProcessorReturns(a, r));
      Do(ProcessorReturns(a, r));
      Await(others(1), a);
      ghost var rest := KeepResult(a, r, x, others(2));
      StepsCons(first, rest);
      Runs.Joined(old(Own(a)), [first], rest);
      es := [first] + rest;
    }

    /** `failing` throws, inside the `try`: the claim is released. */
    method ReleaseClaim(a: nat, failing: Step, x: Script, others: seq<Step>) returns (ghost es: seq<Moment>)
      requires Ok() && In(st, a) && Enabled(st, failing)
      requires failing == ProcessorThrows(a) || (exists applied :: failing == StoreThrows(a, applied))
      modifies this
      ensures Ok() && Same(old(st), st, a) && st.calls[a].phase == Replied(Failed)
      ensures Own(a) == old(Own(a)) + es && StepsOf(es) == [failing, Release(a, x.delApplied)]
    {
      es := [Runs.Taken(st, failing)];
      Do(failing);
      Await(others, a);
      es := es + [Runs.Taken(st, Release(a, x.delApplied))];
      Do(Release(a, x.delApplied));
    }

    /** The processor succeeded: store the result, unless it is too large or Redis fails. */
    method KeepResult(a: nat, r: Response, x: Script, others: seq<Step>) returns (ghost es: seq<Moment>)
      requires Ok() && In(st, a) && st.calls[a].phase == Storing(r) && x.processor == Returns(r)
      modifies this
      ensures Ok() && Same(old(st), st, a)
      ensures Own(a) == old(Own(a)) + es && StepsOf(es) == KeepSteps(a, r, x)
      ensures st.calls[a].phase == Replied(ProcessorReply(x))
      ensures Leaves(st, a, x) && GetsOwn(x, st.calls[a].phase)
    {
      if r.bytes > MAX_STORED_BYTES {
        es := [Runs.Taken(st, TooLarge(a, x.delApplied))];
        Do(TooLarge(a, x.delApplied));
      } else if x.store.Works? {
        es := [Runs.Taken(st, Store(a))];
        Do(Store(a));
      } else {
        es := ReleaseClaim(a, StoreThrows(a, x.store.applied), x, others);
      }
    }

    /**
      `withIdempotency` past the header: SET NX, then the processor or the record in the way, and
      from the start again if that vanished. `rounds` bounds how often; the original recurs
      without a bound. `ran` tells whether the processor ran, `es` what the call did.
    */
    method Attempt(a: nat, x: Script, others: nat -> nat -> seq<Step>, round: nat, rounds: nat)
      returns (ran: bool, ghost es: seq<Moment>)
      requires Ok() && In(st, a) && st.calls[a].phase.Claiming? && round <= rounds
      modifies this
      ensures Ok() && Same(old(st), st, a)
      ensures Own(a) == old(Own(a)) + es && Handles(a, x, round, rounds, es, st.calls[a].phase)
      ensures ran <==> Ran(a, es)
      ensures ran ==> st.calls[a].phase == Replied(ProcessorReply(x))
      ensures ran ==> Leaves(st, a, x) && GetsOwn(x, st.calls[a].phase)
      ensures !ran ==> st.calls[a].phase.Claiming? || (st.calls[a].phase.Replied? && !st.calls[a].phase.reply.Own?)
      decreases rounds - round
    {
      if round == rounds { return false, []; }
      ghost var claim := TryClaim(a, x.setNx(round), others(round)(0));
      if st.calls[a].phase.Running? {
        ran := true;
        es := RunClaimed(a, x, others(round), round, rounds, claim);
      } else if st.calls[a].phase.Reading? {
        ghost var more: seq<Moment>;
        ran, more := ReadOrRetry(a, x, others, round, rounds);
        HandlesRead(a, x, round, rounds, claim, more, st.calls[a].phase);
        es := [claim] + more;
        Runs.Joined(old(Own(a)), [claim], more);
      } else {
        ran, es := false, [claim] + [];
        HandlesFailure(a, x, round, rounds, claim);
      }
    }

    /** The claim is taken: the processor runs. */
    method RunClaimed(a: nat, x: Script, others: nat -> seq<Step>, ghost round: nat, ghost rounds: nat,
                      ghost claim: Moment)
      returns (ghost es: seq<Moment>)
      requires Ok() && In(st, a) && st.calls[a].phase.Running? && round < rounds && x.setNx(round).Works?
      requires claim.step == SetNx(a) && In(claim.before, a) && !Visible(claim.before, claim.before.calls[a].key)
      modifies this
      ensures Ok() && Same(old(st), st, a) && old(Own(a)) <= Own(a)
      ensures es == [claim] + Own(a)[|old(Own(a))|..]
      ensures Handles(a, x, round, rounds, es, st.calls[a].phase) && Ran(a, es)
      ensures st.calls[a].phase == Replied(ProcessorReply(x))
      ensures Leaves(st, a, x) && GetsOwn(x, st.calls[a].phase)
    {
      ghost var more := RunProcessor(a, x, (i: nat) => others(i + 2));
      HandlesRun(a, x, round, rounds, claim, more);
      es := [claim] + more;
    }

    /** GET and its answer, or the next round. */
    method ReadOrRetry(a: nat, x: Script, others: nat -> nat -> seq<Step>, round: nat, rounds: nat)
      returns (ran: bool, ghost es: seq<Moment>)
      requires Ok() && In(st, a) && st.calls[a].phase.Reading? && round < rounds
      modifies this
      ensures Ok() && Same(old(st), st, a)
      ensures Own(a) == old(Own(a)) + es && ReadsRecord(a, x, round, rounds, es, st.calls[a].phase)
      ensures ran <==> Ran(a, es)
      ensures ran ==> st.calls[a].phase == Replied(ProcessorReply(x))
      ensures ran ==> Leaves(st, a, x) && GetsOwn(x, st.calls[a].phase)
      ensures !ran ==> st.calls[a].phase.Claiming? || (st.calls[a].phase.Replied? && !st.calls[a].phase.reply.Own?)
      decreases rounds - round, 0
    {
      ghost var look := ReadExistingRecord(a, x.get(round), others(round)(1));
      ghost var more: seq<Moment> := [];
      ran := false;
      if st.calls[a].phase.Claiming? {
        ran, more := Attempt(a, x, others, round + 1, rounds);
        ReadsAgain(a, x, round, rounds, look, more, st.calls[a].phase);
      } else {
        ReadsAnswer(a, x, round, rounds, look, st.calls[a].phase);
      }
      es := [look] + more;
      Runs.Joined(old(Own(a)), [look], more);
    }

    /** One request with a key, from its arrival; what it does is exactly the program. */
    method WithKey(key: string, hash: Hash, x: Script, others: nat -> nat -> seq<Step>, rounds: nat)
      returns (a: nat, ran: bool, ghost es: seq<Moment>)
      requires Ok()
      modifies this
      ensures Ok() && a == old(|st.calls|) && In(st, a) && st.calls[a].key == key && st.calls[a].hash == hash
      ensures Own(a) == old(Own(a)) + es && Handles(a, x, 0, rounds, es, st.calls[a].phase)
      ensures ran <==> Ran(a, es)
      ensures ran ==> st.calls[a].phase == Replied(ProcessorReply(x))
      ensures ran ==> Leaves(st, a, x) && GetsOwn(x, st.calls[a].phase)
    {
      a := |st.calls|;
      Do(Arrive(key, hash));
      ran, es := Attempt(a, x, others, 0, rounds);
    }

    /** The wrapper: no header runs the processor bare, a malformed one is answered 400. */
    method WithIdempotency(header: Option<string>, scope: string, user: string, hash: Hash, x: Script,
                           others: nat -> nat -> seq<Step>, rounds: nat) returns (h: Handling, ghost es: seq<Moment>)
      requires Ok()
      modifies this
      ensures Ok()
      ensures h.Bare? <==> header.None? || header.value == ""
      ensures h.BadRequest? <==> header.Some? && header.value != "" && !ValidKey(header.value)
      ensures !h.Keyed? ==> st == old(st)
      ensures h.Keyed? ==>
        In(st, h.call) && st.calls[h.call].key == RedisKey(scope, user, header.value) && st.calls[h.call].hash == hash
      ensures h.Keyed? ==>
        Own(h.call) == old(Own(h.call)) + es && Handles(h.call, x, 0, rounds, es, st.calls[h.call].phase)
      ensures h.Keyed? ==> (h.ran <==> Ran(h.call, es))
      ensures h.Keyed? && h.ran ==> Leaves(st, h.call, x) && GetsOwn(x, st.calls[h.call].phase)
    {
      es := [];
      if header.None? || header.value == "" { return Bare, es; }
      if !ValidKey(header.value) { return BadRequest, es; }
      var a, ran;
      a, ran, es := WithKey(RedisKey(scope, user, header.value), hash, x, others, rounds);
      return Keyed(a, ran), es;
    }
  }

  datatype Handling = Bare | BadRequest | Keyed(call: nat, ran: bool)

  ghost predicate Same(s: State, s': State, a: nat) {
    In(s, a) && In(s', a) && s'.calls[a].key == s.calls[a].key && s'.calls[a].hash == s.calls[a].hash
  }

  /** What the record found under the key of `c` calls for: nothing there, other request, still running, or done. */
  ghost predicate ReadAs(s: State, c: Call, end: Phase) {
    if c.key !in s.store || s.store[c.key].expiresAt <= s.now then end == Claiming
    else match s.store[c.key]
      case InProgress(hash, _, _) => end == Replied(if hash == c.hash then StillInProgress else KeyConflict)
      case Completed(hash, response, _, _) => end == Replied(if hash == c.hash then Replay(response) else KeyConflict)
  }

  /** The success of `a` is in the store, for 24 hours from now. */
  ghost predicate OnRecord(s: State, a: nat, r: Response) {
    && In(s, a) && s.calls[a].storedAt == Some(s.now)
    && s.calls[a].key in s.store
    && s.store[s.calls[a].key] == Completed(s.calls[a].hash, r, s.now + 86_400, a)
  }

  /** The processor succeeds, with more than is kept. */
  predicate IsTooLarge(x: Script) { x.processor.Returns? && x.processor.response.bytes >= 65_537 }

  /** What the call leaves under its key: its success, for 24 hours, or nothing if that is larger than 64 KiB. */
  ghost predicate Leaves(s: State, a: nat, x: Script)
    requires In(s, a)
  {
    && (Stores(x) ==> OnRecord(s, a, x.processor.response))
    && (IsTooLarge(x) && x.delApplied ==> s.calls[a].key !in s.store)
  }

  /** The caller gets the processor's own result, unless Redis failed to store it, or its error. */
  ghost predicate GetsOwn(x: Script, end: Phase) {
    match x.processor
    case Throws => end == Replied(Failed)
    case Returns(r) => end == Replied(if r.bytes <= 65_536 && x.store.Breaks? then Failed else Own(r))
  }

  predicate Stores(x: Script) {
    x.processor.Returns? && x.processor.response.bytes <= 65_536 && x.store.Works?
  }

  /** Some SET NX of the call found no record in its way. */
  ghost predicate Ran(a: nat, es: seq<Moment>) { exists i :: ClaimedAt(a, es, i) }

  ghost predicate ClaimedAt(a: nat, es: seq<Moment>, i: int) {
    && 0 <= i < |es| && es[i].step == SetNx(a) && In(es[i].before, a)
    && !Visible(es[i].before, es[i].before.calls[a].key)
  }

  lemma RanLater(a: nat, first: Moment, rest: seq<Moment>)
    ensures Ran(a, [first] + rest) <==> ClaimedAt(a, [first], 0) || Ran(a, rest)
  {
    var es := [first] + rest;
    if i :| ClaimedAt(a, es, i) { assert if i == 0 then ClaimedAt(a, [first], 0) else ClaimedAt(a, rest, i - 1); }
    if i :| ClaimedAt(a, rest, i) { assert ClaimedAt(a, es, i + 1); }
    if ClaimedAt(a, [first], 0) { assert ClaimedAt(a, es, 0); }
  }

  lemma StepsCons(e: Moment, rest: seq<Moment>)
    ensures StepsOf([e] + rest) == [e.step] + StepsOf(rest)
  {
  }

  lemma HandlesFailure(a: nat, x: Script, round: nat, rounds: nat, claim: Moment)
    requires round < rounds && x.setNx(round).Breaks? && claim.step == SetNxThrows(a, x.setNx(round).applied)
    ensures Handles(a, x, round, rounds, [claim] + [], Replied(Failed)) && !Ran(a, [claim] + [])
  {
    RanLater(a, claim, []);
  }

  lemma HandlesRun(a: nat, x: Script, round: nat, rounds: nat, claim: Moment, more: seq<Moment>)
    requires round < rounds && x.setNx(round).Works? && claim.step == SetNx(a) && In(claim.before, a)
    requires !Visible(claim.before, claim.before.calls[a].key) && StepsOf(more) == ProcessorSteps(a, x)
    ensures Handles(a, x, round, rounds, [claim] + more, Replied(ProcessorReply(x))) && Ran(a, [claim] + more)
  {
    assert ([claim] + more)[1..] == more && ClaimedAt(a, [claim] + more, 0);
  }

  lemma HandlesRead(a: nat, x: Script, round: nat, rounds: nat, claim: Moment, more: seq<Moment>, end: Phase)
    requires round < rounds && x.setNx(round).Works? && claim.step == SetNx(a) && In(claim.before, a)
    requires Visible(claim.before, claim.before.calls[a].key) && ReadsRecord(a, x, round, rounds, more, end)
    ensures Handles(a, x, round, rounds, [claim] + more, end) && (Ran(a, [claim] + more) <==> Ran(a, more))
  {
    assert ([claim] + more)[1..] == more;
    RanLater(a, claim, more);
  }

  lemma ReadsAgain(a: nat, x: Script, round: nat, rounds: nat, look: Moment, more: seq<Moment>, end: Phase)
    requires round < rounds && x.get(round) && look.step == Get(a) && In(look.before, a)
    requires Answer(look.before, look.before.calls[a]).Claiming? && Handles(a, x, round + 1, rounds, more, end)
    ensures ReadsRecord(a, x, round, rounds, [look] + more, end) && (Ran(a, [look] + more) <==> Ran(a, more))
  {
    assert ([look] + more)[1..] == more;
    RanLater(a, look, more);
  }

  lemma ReadsAnswer(a: nat, x: Script, round: nat, rounds: nat, look: Moment, end: Phase)
    requires round < rounds && In(look.before, a) && !end.Claiming?
      && look.step == (if x.get(round) then Get(a) else GetThrows(a))
    requires end == if x.get(round) then Answer(look.before, look.before.calls[a]) else Replied(Failed)
    ensures ReadsRecord(a, x, round, rounds, [look] + [], end) && !Ran(a, [look] + [])
  {
    RanLater(a, look, []);
  }
}
