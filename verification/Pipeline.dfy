/**
  The whole order-created pipeline: API transactions and publishers on one side, broker and
  workers on the other, joined where a publish reaches the exchange.
*/
module Pipeline {
  import Outbox
  import Delivery
  import Runs

  datatype Config = Config(batchSize: nat, maxRetries: int)

  datatype State = State(db: Outbox.State, mq: Delivery.State)

  datatype Step = Db(db: Outbox.Step) | Mq(mq: Delivery.Step)

  ghost predicate Init(s: State) { s.db == Outbox.EMPTY && Delivery.Init(s.mq) }

  predicate Enabled(c: Config, s: State, step: Step) {
    match step
    case Db(d) => Outbox.Enabled(c.batchSize, s.db, d)
    case Mq(m) => !m.Arrive? && Delivery.Enabled(s.mq, m)
  }

  /** What a publisher step brings to the exchange. */
  function Brought(c: Config, s: State, d: Outbox.Step): Delivery.State
    requires Outbox.Enabled(c.batchSize, s.db, d)
  {
    match d
    case PublishConfirmed(t) => Delivery.Arrived(s.mq, Outbox.CurrentRow(s.db, t), true)
    case PublishFailed(t, delivered) =>
      if delivered then Delivery.Arrived(s.mq, Outbox.CurrentRow(s.db, t), false) else s.mq
    case _ => s.mq
  }

  function Apply(c: Config, s: State, step: Step): State
    requires Enabled(c, s, step)
  {
    match step
    case Db(d) => State(Outbox.Apply(c.batchSize, s.db, d), Brought(c, s, d))
    case Mq(m) => s.(mq := Delivery.Apply(c.maxRetries, s.mq, m))
  }

  // ---------------------------------------------------------------- runs

  ghost function Machine(c: Config): Runs.System<State, Step> {
    Runs.System(s => Init(s), (s, step) => Enabled(c, s, step),
                (s, step) => if Enabled(c, s, step) then Apply(c, s, step) else s)
  }

  /** `s` is where some run from an initial state arrives. */
  ghost predicate Reachable(c: Config, s: State) { Runs.Reaches(Machine(c), s) }

  lemma ReachableInit(c: Config, s: State)
    requires Init(s)
    ensures Reachable(c, s)
  {
    Runs.Start(Machine(c), s);
  }

  lemma ReachableStep(c: Config, s: State, step: Step, s': State)
    requires Reachable(c, s) && Enabled(c, s, step) && Apply(c, s, step) == s'
    ensures Reachable(c, s')
  {
    Runs.Go(Machine(c), s, step, s');
  }
}
