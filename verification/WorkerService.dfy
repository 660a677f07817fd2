/**
  `handleMessage` and what it calls, as the program they are: `processEvent` raced against
  the processing timer, then the ack, the retry or the dead letter, with everybody else
  running at every `await`.
*/
module WorkerService {
  import opened World
  import opened Pipeline
  import opened PipelineSafety
  import opened Delivery
  import DeliverySafety

  /** What the statements of `processEvent` meet. */
  datatype Script = Script(insert: Call, workOk: bool, update: Call, deleteApplied: bool)

  datatype Call = Succeeds | Throws(applied: bool)

  /** The statement `processEvent` executes next. */
  function NextStep(a: nat, p: Phase, x: Script): Delivery.Step
    requires Unsettled(p)
  {
    match p
    case Claiming => if x.insert.Throws? then InsertThrows(a, x.insert.applied) else InsertClaim(a)
    case Working => WorkEnds(a, x.workOk)
    case Updating => if x.update.Throws? then UpdateThrows(a, x.update.applied) else UpdateEnds(a)
    case Deleting => DeleteEnds(a, x.deleteApplied)
  }

  /** The statements from phase `p` on, if the INSERT finds the claim taken (`dup`) or not. */
  function Statements(a: nat, p: Phase, x: Script, dup: bool): seq<Pipeline.Step>
    decreases Rank(p)
  {
    if !Unsettled(p) then []
    else [Mq(NextStep(a, p, x))] + Statements(a, NextPhase(p, x, dup), x, dup)
  }

  function NextPhase(p: Phase, x: Script, dup: bool): Phase
    requires Unsettled(p)
    ensures Rank(NextPhase(p, x, dup)) < Rank(p)
  {
    match p
    case Claiming => if x.insert.Throws? then Threw else if dup then Returned(Duplicate) else Working
    case Working => if x.workOk then Updating else Deleting
    case Updating => if x.update.Throws? then Deleting else Returned(Processed)
    case Deleting => Threw
  }

  function Rank(p: Phase): nat {
    match p
    case Claiming => 4
    case Working => 3
    case Updating => 2
    case Deleting => 1
    case _ => 0
  }

  predicate AckStep(a: nat, step: Pipeline.Step) {
    step.Mq? && ((step.mq.AckOwn? || step.mq.AckOther? || step.mq.AckUnknown? || step.mq.GiveUp?) && step.mq.act == a)
  }

  /** What may follow a verdict: the ack, or nothing if the process is gone. */
  predicate AckTail(a: nat, tail: seq<Pipeline.Step>) {
    tail == [] || (|tail| == 1 && AckStep(a, tail[0]))
  }

  /** What may follow a failure: replacement, then ack; or giving up because the channel is gone. */
  predicate RequeueTail(a: nat, tail: seq<Pipeline.Step>) {
    || tail == []
    || tail == [Mq(GiveUp(a))]
    || (tail[0] == Mq(Republish(a)) && AckTail(a, tail[1..]))
  }

  /** Alive: the handler has not been killed. */
  predicate Alive(w: World, a: nat)
    reads w
  {
    a < |w.st.mq.acts| && !w.st.mq.acts[a].handler.Finished?
  }

  /** `channel.ack(message)`: the tag is looked up on whatever channel is current. */
  method Ack(w: World, a: nat)
    requires w.Ok() && Alive(w, a)
    requires w.st.mq.acts[a].handler.Acking? || w.st.mq.acts[a].handler.Republished?
    modifies w
    ensures w.Ok() && a < |w.st.mq.acts| && w.st.mq.acts[a].handler.Finished?
    ensures exists step :: AckStep(a, step) && Own(Handling(a), w.log) == Own(Handling(a), old(w.log)) + [step]
  {
    assert DeliverySafety.Tags(w.st.mq) by { w.Reached(); }
    var step := ChooseAck(w.st.mq, a);
    AckFinishes(w.config.maxRetries, w.st.mq, a, step);
    OwnSnoc(Handling(a), w.log, Mq(step));
    assert AckStep(a, Mq(step));
    w.Do(Mq(step));
  }

  lemma AckFinishes(c: int, m: Delivery.State, a: nat, step: Delivery.Step)
    requires Delivery.Enabled(m, step) && AckStep(a, Mq(step))
    ensures a < |Delivery.Apply(c, m, step).acts| && Delivery.Apply(c, m, step).acts[a].handler.Finished?
  {
  }

  method ChooseAck(m: Delivery.State, a: nat) returns (step: Delivery.Step)
    requires DeliverySafety.Tags(m) && a < |m.acts| && (m.acts[a].handler.Acking? || m.acts[a].handler.Republished?)
    ensures AckStep(a, Mq(step)) && Delivery.Enabled(m, step)
  {
    assert DeliverySafety.TagFits(m, a);
    if !AckFrame(m, a) { return GiveUp(a); }
    var b := Lookup(m, a);
    if b == |m.acts| { return AckUnknown(a); }
    if b == a { return AckOwn(a); }
    assert m.acts[a].gen == Home(m, a).gen ==> DeliverySafety.SameTag(m.acts[a], m.acts[b]);
    return AckOther(a, b);
  }

  /** The delivery a tag means on the current channel; own first. */
  method Lookup(m: Delivery.State, a: nat) returns (b: nat)
    requires IsAct(m, a)
    ensures b == |m.acts| ==> forall c | 0 <= c < |m.acts| :: !TagMeans(m, a, c)
    ensures b != |m.acts| ==> b < |m.acts| && TagMeans(m, a, b)
  {
    b := 0;
    while b < |m.acts| && !TagMeans(m, a, b)
      invariant b <= |m.acts|
      invariant forall c | 0 <= c < b :: !TagMeans(m, a, c)
    {
      b := b + 1;
    }
  }

  /** The first step of `requeueOrDeadLetter`: the replacement is sent, or there is no channel to send it on. */
  method SendReplacement(w: World, a: nat) returns (step: Delivery.Step)
    requires w.Ok() && Alive(w, a) && w.st.mq.acts[a].handler.Requeueing?
    modifies w
    ensures w.Ok() && a < |w.st.mq.acts|
    ensures step == Republish(a) || step == GiveUp(a)
    ensures if step.Republish? then w.st.mq.acts[a].handler.Republished? else w.st.mq.acts[a].handler.Finished?
    ensures Own(Handling(a), w.log) == Own(Handling(a), old(w.log)) + [Mq(step)]
  {
    assert DeliverySafety.ActRefs(w.st.mq, a) by { w.Reached(); }
    step := if Home(w.st.mq, a).up then Republish(a) else GiveUp(a);
    ReplacementEffect(w.config.maxRetries, w.st.mq, a, step);
    OwnSnoc(Handling(a), w.log, Mq(step));
    w.Do(Mq(step));
  }

  lemma ReplacementEffect(c: int, m: Delivery.State, a: nat, step: Delivery.Step)
    requires IsAct(m, a) && m.acts[a].handler.Requeueing?
    requires step == if Home(m, a).up then Republish(a) else GiveUp(a)
    ensures Delivery.Enabled(m, step)
    ensures var m' := Delivery.Apply(c, m, step);
      a < |m'.acts| && if step.Republish? then m'.acts[a].handler.Republished? else m'.acts[a].handler.Finished?
  {
  }

  /** `requeueOrDeadLetter`. */
  method RequeueOrDeadLetter(w: World, a: nat, others: seq<Pipeline.Step>) returns (ghost tail: seq<Pipeline.Step>)
    requires w.Ok() && Alive(w, a) && w.st.mq.acts[a].handler.Requeueing?
    modifies w
    ensures w.Ok() && a < |w.st.mq.acts| && w.st.mq.acts[a].handler.Finished?
    ensures tail != [] && RequeueTail(a, tail) && Own(Handling(a), w.log) == Own(Handling(a), old(w.log)) + tail
  {
    var step := SendReplacement(w, a);
    tail := [Mq(step)];
    if step.Republish? {
      w.Await(others, Handling(a));
      if Alive(w, a) {
        ghost var before := Own(Handling(a), w.log);
        Ack(w, a);
        ghost var last :| AckStep(a, last) && Own(Handling(a), w.log) == before + [last];
        tail := tail + [last];
      }
    }
  }

  /** How `processEvent` ends from phase `p` if nothing stops it. */
  function FinalPhase(p: Phase, x: Script, dup: bool): Phase
    decreases Rank(p)
  {
    if Unsettled(p) then FinalPhase(NextPhase(p, x, dup), x, dup) else p
  }

  /** The handler took the branch `processEvent` asks for, or still waits for it. */
  predicate Follows(y: Activation) {
    match y.phase
    case Returned(r) => y.handler == Acking(r)
    case Threw => y.handler.Requeueing?
    case _ => Unsettled(y.phase) && y.handler.Waiting?
  }

  /**
    What the handler did after `n` of its statements: the branch their outcome asks for, or the retry
    branch if the timer fired first.
  */
  ghost predicate Ending(a: nat, x: Script, dup: bool, n: nat, tail: seq<Pipeline.Step>) {
    var all := |Statements(a, Claiming, x, dup)|;
    || tail == []
    || (n < all && |tail| > 0 && tail[0] == Mq(TimerFires(a)) && RequeueTail(a, tail[1..]))
    || (n == all && FinalPhase(Claiming, x, dup).Returned? && AckTail(a, tail))
    || (n == all && FinalPhase(Claiming, x, dup).Threw? && RequeueTail(a, tail))
  }

  /**
    The timer cuts the statements off after `timer` of them and no sooner, and only a dead process
    does nothing more.
  */
  ghost predicate InTime(y: Activation, a: nat, timer: nat, n: nat, tail: seq<Pipeline.Step>) {
    && n <= timer
    && (tail != [] && tail[0] == Mq(TimerFires(a)) ==> n == timer)
    && (tail == [] ==> y.phase.Crashed?)
  }

  lemma StatementEffect(c: int, m: Delivery.State, a: nat, x: Script)
    requires IsAct(m, a) && Unsettled(m.acts[a].phase) && m.acts[a].handler.Waiting?
    ensures Delivery.Enabled(m, NextStep(a, m.acts[a].phase, x))
    ensures var m' := Delivery.Apply(c, m, NextStep(a, m.acts[a].phase, x));
      && a < |m'.acts| && Follows(m'.acts[a])
      && m'.acts[a].phase == NextPhase(m.acts[a].phase, x, m.acts[a].event in m.claims)
  {
  }

  /** The next statement of `processEvent`. */
  method Execute(w: World, a: nat, x: Script) returns (ghost dup: bool)
    requires w.Ok() && Alive(w, a) && Unsettled(w.st.mq.acts[a].phase) && Follows(w.st.mq.acts[a])
    modifies w
    ensures w.Ok() && Alive(w, a) && Follows(w.st.mq.acts[a])
    ensures w.st.mq.acts[a].phase == NextPhase(old(w.st.mq.acts[a].phase), x, dup)
    ensures Own(Handling(a), w.log) == Own(Handling(a), old(w.log)) + [Mq(NextStep(a, old(w.st.mq.acts[a].phase), x))]
  {
    assert DeliverySafety.ActRefs(w.st.mq, a) by { w.Reached(); }
    var step := NextStep(a, w.st.mq.acts[a].phase, x);
    dup := w.st.mq.acts[a].event in w.st.mq.claims;
    StatementEffect(w.config.maxRetries, w.st.mq, a, x);
    OwnSnoc(Handling(a), w.log, Mq(step));
    w.Do(Mq(step));
  }

  /** After the race: the timer won, or `processEvent` returned, or it threw. */
  method Finish(w: World, a: nat, others: seq<Pipeline.Step>) returns (ghost tail: seq<Pipeline.Step>)
    requires w.Ok() && Alive(w, a) && Follows(w.st.mq.acts[a])
    modifies w
    ensures w.Ok() && a < |w.st.mq.acts| && w.st.mq.acts[a].handler.Finished?
    ensures tail != [] && Own(Handling(a), w.log) == Own(Handling(a), old(w.log)) + tail
    ensures match old(w.st.mq.acts[a].phase)
      case Returned(_) => AckTail(a, tail)
      case Threw => RequeueTail(a, tail)
      case _ => |tail| > 0 && tail[0] == Mq(TimerFires(a)) && RequeueTail(a, tail[1..])
  {
    tail := [];
    if w.st.mq.acts[a].phase.Returned? {
      Ack(w, a);
      ghost var last :| AckStep(a, last) && Own(Handling(a), w.log) == Own(Handling(a), old(w.log)) + [last];
      tail := [last];
    } else {
      if Unsettled(w.st.mq.acts[a].phase) {
        Expire(w, a);
        tail := [Mq(TimerFires(a))];
      }
      ghost var rest := RequeueOrDeadLetter(w, a, others);
      tail := tail + rest;
    }
  }

  /** The processing timer fires. */
  method Expire(w: World, a: nat)
    requires w.Ok() && Alive(w, a) && Unsettled(w.st.mq.acts[a].phase) && Follows(w.st.mq.acts[a])
    modifies w
    ensures w.Ok() && Alive(w, a) && w.st.mq.acts[a].handler.Requeueing?
    ensures Own(Handling(a), w.log) == Own(Handling(a), old(w.log)) + [Mq(TimerFires(a))]
  {
    assert DeliverySafety.ActRefs(w.st.mq, a) by { w.Reached(); }
    OwnSnoc(Handling(a), w.log, Mq(TimerFires(a)));
    w.Do(Mq(TimerFires(a)));
  }

  /** The handler has executed `n` statements, and unless it was killed the rest is what its phase asks for. */
  ghost predicate Progress(y: Activation, a: nat, x: Script, dup: bool, n: nat, own: seq<Pipeline.Step>) {
    var all := Statements(a, Claiming, x, dup);
    && n <= |all|
    && own == all[..n]
    && (!y.handler.Finished? ==>
        && Follows(y)
        && all[n..] == Statements(a, y.phase, x, dup)
        && FinalPhase(y.phase, x, dup) == FinalPhase(Claiming, x, dup)
        && (y.phase.Claiming? ==> n == 0))
  }

  /** Nobody finishes a handler that was still running but the death of its process. */
  predicate KilledIfOver(y: Activation) { y.handler.Finished? ==> y.phase.Crashed? }

  lemma ProgressNext(y: Activation, y': Activation, a: nat, x: Script, dup: bool, found: bool, n: nat,
                     own: seq<Pipeline.Step>)
    requires Progress(y, a, x, dup, n, own) && !y.handler.Finished? && Unsettled(y.phase)
    requires Follows(y') && y'.phase == NextPhase(y.phase, x, found)
    ensures Progress(y', a, x, if y.phase.Claiming? then found else dup, n + 1, own + [Mq(NextStep(a, y.phase, x))])
  {
    var dup' := if y.phase.Claiming? then found else dup;
    var all := Statements(a, Claiming, x, dup');
    assert all[n..] == Statements(a, y.phase, x, dup');
    assert all[n..][1..] == all[n + 1..];
    assert all[n..][0] == all[n] && all[..n + 1] == all[..n] + [all[n]];
  }

  lemma ProgressWaits(s: Pipeline.State, s': Pipeline.State, a: nat, x: Script, dup: bool, n: nat,
                      own: seq<Pipeline.Step>)
    requires a < |s.mq.acts| && Progress(s.mq.acts[a], a, x, dup, n, own) && Undisturbed(Handling(a), s, s')
    ensures a < |s'.mq.acts| && Progress(s'.mq.acts[a], a, x, dup, n, own)
    ensures !s.mq.acts[a].handler.Finished? && Unsettled(s.mq.acts[a].phase) ==>
      if s'.mq.acts[a].handler.Finished? then s'.mq.acts[a].phase.Crashed?
      else s'.mq.acts[a].phase == s.mq.acts[a].phase
  {
  }

  lemma ProgressEnds(y: Activation, a: nat, x: Script, dup: bool, n: nat, own: seq<Pipeline.Step>,
                     tail: seq<Pipeline.Step>)
    requires Progress(y, a, x, dup, n, own) && !y.handler.Finished?
    requires match y.phase
      case Returned(_) => AckTail(a, tail)
      case Threw => RequeueTail(a, tail)
      case _ => |tail| > 0 && tail[0] == Mq(TimerFires(a)) && RequeueTail(a, tail[1..])
    ensures Ending(a, x, dup, n, tail)
  {
  }

  /** One await, and the statement after it unless the timer fired meanwhile. */
  method Turn(w: World, a: nat, x: Script, expired: bool, others: seq<Pipeline.Step>, ghost dup: bool, ghost n: nat)
    returns (ghost dup': bool, ghost n': nat)
    requires w.Ok() && Alive(w, a) && Unsettled(w.st.mq.acts[a].phase)
    requires Progress(w.st.mq.acts[a], a, x, dup, n, Own(Handling(a), w.log))
    modifies w
    ensures w.Ok() && a < |w.st.mq.acts| && Progress(w.st.mq.acts[a], a, x, dup', n', Own(Handling(a), w.log))
    ensures KilledIfOver(w.st.mq.acts[a])
    ensures n' == if expired || w.st.mq.acts[a].handler.Finished? then n else n + 1
    ensures expired && Alive(w, a) ==> Unsettled(w.st.mq.acts[a].phase)
  {
    dup', n' := dup, n;
    ghost var s := w.st;
    w.Await(others, Handling(a));
    ProgressWaits(s, w.st, a, x, dup, n, Own(Handling(a), w.log));
    if Alive(w, a) && !expired {
      ghost var y, own := w.st.mq.acts[a], Own(Handling(a), w.log);
      ghost var found := Execute(w, a, x);
      ProgressNext(y, w.st.mq.acts[a], a, x, dup, found, n, own);
      dup', n' := if y.phase.Claiming? then found else dup, n + 1;
    }
  }

  /**
    `processEvent` raced against the timer: its statements up to its end, to the timer, or to the
    death of the process.
  */
  method Race(w: World, a: nat, x: Script, timer: nat, others: nat -> seq<Pipeline.Step>)
    returns (ghost dup: bool, ghost n: nat)
    requires w.Ok() && Alive(w, a) && w.st.mq.acts[a].phase.Claiming? && Follows(w.st.mq.acts[a])
    requires Own(Handling(a), w.log) == []
    modifies w
    ensures w.Ok() && a < |w.st.mq.acts| && Progress(w.st.mq.acts[a], a, x, dup, n, Own(Handling(a), w.log))
    ensures KilledIfOver(w.st.mq.acts[a]) && n <= timer
    ensures Alive(w, a) && Unsettled(w.st.mq.acts[a].phase) ==> n == timer
  {
    var awaits := 0;
    dup, n := false, 0;
    assert Progress(w.st.mq.acts[a], a, x, dup, 0, []);
    while Alive(w, a) && Unsettled(w.st.mq.acts[a].phase) && awaits <= timer
      invariant w.Ok() && a < |w.st.mq.acts| && Progress(w.st.mq.acts[a], a, x, dup, n, Own(Handling(a), w.log))
      invariant awaits <= timer + 1 && KilledIfOver(w.st.mq.acts[a])
      invariant n <= timer && n <= awaits && (Alive(w, a) ==> n == awaits || (n == timer && awaits == timer + 1))
      decreases timer + 1 - awaits
    {
      dup, n := Turn(w, a, x, awaits == timer, others(awaits), dup, n);
      awaits := awaits + 1;
    }
  }

  /**
    One delivery, from its first statement to its last. `x` says what each statement meets,
    `timer` at which await the processing timer fires, `others` what everybody else does.
  */
  method HandleMessage(w: World, a: nat, x: Script, timer: nat, others: nat -> seq<Pipeline.Step>)
    returns (ghost dup: bool, ghost n: nat, ghost tail: seq<Pipeline.Step>)
    requires w.Ok() && Alive(w, a) && w.st.mq.acts[a].phase.Claiming? && Follows(w.st.mq.acts[a])
    requires Own(Handling(a), w.log) == []
    modifies w
    ensures w.Ok() && a < |w.st.mq.acts| && w.st.mq.acts[a].handler.Finished?
    ensures n <= |Statements(a, Claiming, x, dup)| && Ending(a, x, dup, n, tail)
    ensures InTime(w.st.mq.acts[a], a, timer, n, tail)
    ensures Own(Handling(a), w.log) == Statements(a, Claiming, x, dup)[..n] + tail
  {
    dup, n := Race(w, a, x, timer, others);
    tail := [];
    if Alive(w, a) {
      ghost var y, own := w.st.mq.acts[a], Own(Handling(a), w.log);
      tail := Finish(w, a, others(timer + 1));
      ProgressEnds(y, a, x, dup, n, own, tail);
    }
  }

  /** The consumer callback: a delivery of copy `k` begins, and is handled to its end. */
  method Consume(w: World, worker: nat, k: nat, x: Script, timer: nat, others: nat -> seq<Pipeline.Step>)
    returns (a: nat, ghost dup: bool, ghost n: nat, ghost tail: seq<Pipeline.Step>)
    requires w.Ok() && Delivery.Enabled(w.st.mq, Deliver(worker, k))
    modifies w
    ensures w.Ok() && a == old(|w.st.mq.acts|) < |w.st.mq.acts| && w.st.mq.acts[a].handler.Finished?
    ensures n <= |Statements(a, Claiming, x, dup)| && Ending(a, x, dup, n, tail)
    ensures InTime(w.st.mq.acts[a], a, timer, n, tail)
    ensures Own(Handling(a), w.log) == Statements(a, Claiming, x, dup)[..n] + tail
  {
    a := |w.st.mq.acts|;
    NothingYet(Handling(a), w.log, w.st);
    OwnSnoc(Handling(a), w.log, Mq(Deliver(worker, k)));
    w.Do(Mq(Deliver(worker, k)));
    dup, n, tail := HandleMessage(w, a, x, timer, others);
  }
}
