/**
  The shared world the publisher and worker processes act on: it only ever moves by steps of
  the pipeline, and remembers them. Each process takes its own steps with `Do`; at every
  `await` the others run, as some schedule has it.
*/
module World {
  import opened Pipeline
  import opened PipelineSafety
  import Outbox
  import Delivery
  import Runs

  /** Who takes a step: one poll transaction, one handler activation, or anybody else. */
  datatype Party = Poller(txn: nat) | Handling(act: nat)

  predicate Mine(p: Party, step: Step) {
    match p
    case Poller(t) => step.Db? && (step.db.PublishConfirmed? || step.db.PublishFailed? || step.db.RecordPublished?
                                   || step.db.Commit? || step.db.Rollback?) && step.db.txn == t
    case Handling(a) => step.Mq? && (ProcessStep(step.mq) || HandlerStep(step.mq)) && step.mq.act == a
  }

  predicate ProcessStep(m: Delivery.Step) {
    m.InsertClaim? || m.InsertThrows? || m.WorkEnds? || m.UpdateEnds? || m.UpdateThrows? || m.DeleteEnds?
  }

  predicate HandlerStep(m: Delivery.Step) {
    m.TimerFires? || m.Republish? || m.AckOwn? || m.AckOther? || m.AckUnknown? || m.GiveUp?
  }

  /** The steps of `p` among `steps`, in order. */
  ghost function Own(p: Party, steps: seq<Step>): seq<Step> {
    if steps == [] then []
    else if Mine(p, steps[|steps| - 1]) then Own(p, steps[..|steps| - 1]) + [steps[|steps| - 1]]
    else Own(p, steps[..|steps| - 1])
  }

  lemma OwnSnoc(p: Party, steps: seq<Step>, step: Step)
    ensures Own(p, steps + [step]) == if Mine(p, step) then Own(p, steps) + [step] else Own(p, steps)
  {
    assert (steps + [step])[..|steps|] == steps;
  }

  /** The transaction or activation a step is about exists. */
  ghost predicate Within(step: Step, s: State) {
    && (forall t: nat | Mine(Poller(t), step) :: t < |s.db.txns|)
    && (forall a: nat | Mine(Handling(a), step) :: a < |s.mq.acts|)
  }

  /** Nobody took a step for a transaction or an activation that does not exist yet. */
  lemma {:induction false} NothingYet(p: Party, steps: seq<Step>, s: State)
    requires forall i | 0 <= i < |steps| :: Within(steps[i], s)
    requires match p case Poller(t) => |s.db.txns| <= t case Handling(a) => |s.mq.acts| <= a
    ensures Own(p, steps) == []
    decreases |steps|
  {
    if steps != [] {
      assert Within(steps[|steps| - 1], s);
      NothingYet(p, steps[..|steps| - 1], s);
    }
  }

  class World {
    const config: Config
    var st: State
    ghost const start: State
    ghost var log: seq<Step>

    ghost predicate Ok()
      reads this
    {
      Runs.Arrives(Machine(config), start, log, st)
      && forall i | 0 <= i < |log| :: Within(log[i], st)
    }

    constructor (config: Config, st: State)
      requires Init(st)
      ensures Ok() && start == st && this.config == config && this.st == st && log == []
    {
      this.config := config;
      this.st := st;
      start := st;
      log := [];
      Runs.Start(Machine(config), st);
    }

    lemma Reached()
      requires Ok()
      ensures Reachable(config, st) && Inv(config, st)
    {
      InvReachable(config, st);
    }

    /** One step of the caller. */
    method Do(step: Step)
      requires Ok() && Enabled(config, st, step)
      modifies this
      ensures Ok() && st == Apply(config, old(st), step) && log == old(log) + [step]
    {
      Runs.Append(Machine(config), start, log, step);
      StaysWithin(config, st, step);
      st := Apply(config, st, step);
      log := log + [step];
    }

    lemma UndisturbedNow(p: Party)
      requires Ok()
      ensures Undisturbed(p, st, st)
    {
      Reached();
      UndisturbedInit(config, p, st);
    }

    lemma UndisturbedNext(p: Party, step: Step)
      requires Ok() && !Mine(p, step) && Enabled(config, st, step)
      ensures Undisturbed(p, st, Apply(config, st, step))
    {
      Reached();
      UndisturbedStep(config, p, st, step);
    }

    /** Whatever of `schedule` is possible happens, except steps of `me`. */
    method Await(schedule: seq<Step>, me: Party)
      requires Ok()
      modifies this
      ensures Ok()
      ensures Own(me, log) == Own(me, old(log))
      ensures Undisturbed(me, old(st), st)
    {
      UndisturbedNow(me);
      for i := 0 to |schedule|
        invariant Ok()
        invariant Own(me, log) == Own(me, old(log))
        invariant Undisturbed(me, old(st), st)
      {
        if !Mine(me, schedule[i]) && Enabled(config, st, schedule[i]) {
          OwnSnoc(me, log, schedule[i]);
          ghost var before := st;
          UndisturbedNext(me, schedule[i]);
          Do(schedule[i]);
        }
      }
    }
  }

  /** Others leave to `p` its open transaction and the rows it locked, or its activation, unless its process dies. */
  ghost predicate Undisturbed(p: Party, s: State, s': State) {
    match p
    case Poller(t) => Outbox.IsOpen(s.db, t) ==> TxnKept(t, s.db, s'.db)
    case Handling(a) => a < |s.mq.acts| ==> a < |s'.mq.acts| && Went(s.mq.acts[a], s'.mq.acts[a])
  }

  ghost predicate TxnKept(t: nat, d: Outbox.State, d': Outbox.State)
    requires t < |d.txns|
  {
    && t < |d'.txns| && d'.txns[t] == d.txns[t]
    && forall e | e in d.txns[t].rows :: e in d.outbox && e in d'.outbox && d'.outbox[e] == d.outbox[e]
  }

  /** As it was, or its delivery is lost or taken, or its process is gone: then what was still running is crashed. */
  ghost predicate Went(x: Delivery.Activation, y: Delivery.Activation) {
    && SameDelivery(x, y)
    && (y.handler.Finished? || (y.phase == x.phase && y.handler == x.handler))
    && (y.handler.Finished? && !x.handler.Finished? && Delivery.Unsettled(x.phase) ==> y.phase.Crashed?)
    && (x.phase.Crashed? ==> y.phase.Crashed?)
  }

  ghost predicate SameDelivery(x: Delivery.Activation, y: Delivery.Activation) {
    x.worker == y.worker && x.gen == y.gen && x.tag == y.tag && x.copy == y.copy && x.event == y.event
  }

  lemma TxnUndisturbed(batchSize: nat, t: nat, d: Outbox.State, step: Outbox.Step)
    requires Outbox.Inv(d) && Outbox.IsOpen(d, t) && Outbox.Enabled(batchSize, d, step) && !Mine(Poller(t), Db(step))
    ensures TxnKept(t, d, Outbox.Apply(batchSize, d, step))
  {
    if step.Commit? { CommitUndisturbed(t, d, step.txn); }
  }

  lemma CommitUndisturbed(t: nat, d: Outbox.State, u: nat)
    requires Outbox.Exclusive(d) && Outbox.Shapes(d) && Outbox.IsOpen(d, t) && Outbox.IsOpen(d, u) && t != u
    ensures TxnKept(t, d, Outbox.AfterCommit(d, u))
  {
    assert Outbox.Shape(d.txns[u]);
    forall e | e in d.txns[u].marks ensures e !in d.txns[t].rows {
      assert e in d.txns[u].rows;
    }
  }

  lemma ActUndisturbed(c: int, a: nat, m: Delivery.State, step: Delivery.Step)
    requires a < |m.acts| && Delivery.Enabled(m, step) && !Mine(Handling(a), Mq(step))
    ensures a < |Delivery.Apply(c, m, step).acts| && Went(m.acts[a], Delivery.Apply(c, m, step).acts[a])
  {
  }

  lemma UndisturbedStep(c: Config, p: Party, s: State, step: Step)
    requires !Mine(p, step) && Inv(c, s) && Enabled(c, s, step)
    ensures Undisturbed(p, s, Apply(c, s, step))
  {
    match p
    case Poller(t) =>
      if step.Db? && Outbox.IsOpen(s.db, t) { TxnUndisturbed(c.batchSize, t, s.db, step.db); }
      if step.Mq? && Outbox.IsOpen(s.db, t) { LockedRowsExist(t, s.db); }
    case Handling(a) =>
      if step.Mq? && a < |s.mq.acts| { ActUndisturbed(c.maxRetries, a, s.mq, step.mq); }
  }

  lemma LockedRowsExist(t: nat, d: Outbox.State)
    requires Outbox.Exclusive(d) && Outbox.IsOpen(d, t)
    ensures TxnKept(t, d, d)
  {
  }

  lemma UndisturbedInit(c: Config, p: Party, s: State)
    requires Inv(c, s)
    ensures Undisturbed(p, s, s)
  {
    if p.Poller? && Outbox.IsOpen(s.db, p.txn) { LockedRowsExist(p.txn, s.db); }
  }

  lemma StaysWithin(c: Config, s: State, step: Step)
    requires Enabled(c, s, step)
    ensures Within(step, s)
    ensures |s.db.txns| <= |Apply(c, s, step).db.txns| && |s.mq.acts| <= |Apply(c, s, step).mq.acts|
  {
    match step
    case Db(d) =>
      TxnsGrow(c.batchSize, s.db, d);
      assert Apply(c, s, step).mq.acts == s.mq.acts;
    case Mq(m) => ActsGrow(c.maxRetries, s.mq, m);
  }

  lemma TxnsGrow(batchSize: nat, d: Outbox.State, step: Outbox.Step)
    requires Outbox.Enabled(batchSize, d, step)
    ensures |d.txns| <= |Outbox.Apply(batchSize, d, step).txns|
    ensures forall t: nat | Mine(Poller(t), Db(step)) :: t < |d.txns|
  {
  }

  lemma ActsGrow(c: int, m: Delivery.State, step: Delivery.Step)
    requires Delivery.Enabled(m, step)
    ensures |m.acts| <= |Delivery.Apply(c, m, step).acts|
    ensures forall a: nat | Mine(Handling(a), Mq(step)) :: a < |m.acts|
  {
  }
}
