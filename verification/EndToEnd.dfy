/**
  POST /v1/orders from the client's key to the worker's result: idempotency, the transaction that
  creates an order, the audit trail and the event pipeline as one system. A creating transaction
  buffers its rows one INSERT at a time; its COMMIT makes them visible to the audit trail and the
  pipeline. The parts keep their own clocks.
*/
module EndToEnd {
  import opened Shared
  import opened Strings
  import opened IdempotencyKeys
  import Idempotency
  import OrderAudit
  import Outbox
  import Pipeline
  import Runs

  // ---------------------------------------------------------------- creating transactions

  datatype Row = OrderRow | AuditRow | OutboxRow

  const ALL_ROWS := {OrderRow, AuditRow, OutboxRow}

  datatype Phase = Open | Committed | Announced | RolledBack

  /** One creating transaction: of which call, under which key; its ids and values, and the rows it has inserted. */
  datatype Draft = Draft(call: Option<nat>, key: string, order: nat, event: nat, user: nat, total: nat, occurredAt: nat,
                         startedAt: nat, written: set<Row>, phase: Phase)

  /** The largest value of `orders.total_cents`, a 32-bit integer. */
  const MAX_TOTAL := 2_147_483_647

  const SCOPE := "orders:create"

  /** A user id as it is printed. */
  function UserText(user: nat): string { Digits(user) }

  /** The response body, by the id of the order in it. */
  function OrderBody(order: nat): string { Digits(order) }

  /** `made`: by call, the transaction that committed its order; `version`: the namespace version of the order list. */
  datatype State = State(requests: Idempotency.State, audit: OrderAudit.State, pipe: Pipeline.State,
                         drafts: seq<Draft>, made: map<nat, nat>, version: nat)

  datatype Step =
    | Request(request: Idempotency.Step)
    | Audit(audit: OrderAudit.Step)
    | Pipe(pipe: Pipeline.Step)
    | BeginCreate(call: Option<nat>, key: string, order: nat, event: nat, user: nat, total: nat, occurredAt: nat)
    | InsertRow(draft: nat, row: Row)
    | CommitCreate(draft: nat)
    | RollbackCreate(draft: nat)
    | Announce(draft: nat, bumps: bool)

  ghost predicate Init(s: State) {
    && s.requests == Idempotency.EMPTY && s.audit == OrderAudit.EMPTY && Pipeline.Init(s.pipe)
    && s.drafts == [] && s.made == map[] && s.version == 0
  }

  // ---------------------------------------------------------------- guards

  predicate IsOpen(s: State, d: nat) { d < |s.drafts| && s.drafts[d].phase.Open? }

  /** The INSERTs come in this order; the first fails if the total does not fit its column. */
  predicate MayWrite(x: Draft, row: Row) {
    match row
    case OrderRow => x.written == {} && x.total <= MAX_TOTAL
    case AuditRow => x.written == {OrderRow}
    case OutboxRow => x.written == {OrderRow, AuditRow}
  }

  /** Random ids nobody has drawn before. */
  predicate FreshIds(s: State, o: nat, e: nat) {
    && o !in s.audit.orders && o !in s.pipe.db.orders && e !in s.pipe.db.outbox
    && forall d | 0 <= d < |s.drafts| :: s.drafts[d].order != o && s.drafts[d].event != e
  }

  /** The processor of call `a`, under its user's key, has not begun a transaction. */
  predicate MayCreate(s: State, a: nat, key: string, user: nat) {
    && a < |s.requests.calls| && s.requests.calls[a].phase.Running?
    && ValidKey(key) && s.requests.calls[a].key == RedisKey(SCOPE, UserText(user), key)
    && forall d | 0 <= d < |s.drafts| :: s.drafts[d].call != Some(a)
  }

  function Creation(x: Draft): OrderAudit.Step { OrderAudit.Create(x.order, x.user, x.startedAt) }

  function Publication(x: Draft): Pipeline.Step { Pipeline.Db(Outbox.CommitOrder(x.order, x.event, x.occurredAt)) }

  /** The response of a call is a 201 with the order its transaction committed and announced. */
  predicate MayReturn(s: State, a: nat, r: Idempotency.Response) {
    && a in s.made && s.made[a] < |s.drafts| && s.drafts[s.made[a]].phase.Announced?
    && r.status == 201 && r.body == OrderBody(s.drafts[s.made[a]].order)
  }

  predicate Enabled(c: Pipeline.Config, s: State, step: Step) {
    match step
    case Request(r) => Idempotency.Enabled(s.requests, r) && (r.ProcessorReturns? ==> MayReturn(s, r.call, r.response))
    case Audit(d) => !d.Create? && OrderAudit.Enabled(s.audit, d)
    case Pipe(p) => !(p.Db? && p.db.CommitOrder?) && Pipeline.Enabled(c, s.pipe, p)
    case BeginCreate(call, key, o, e, user, _, _) =>
      FreshIds(s, o, e) && (call.Some? ==> MayCreate(s, call.value, key, user))
    case InsertRow(d, row) => IsOpen(s, d) && MayWrite(s.drafts[d], row)
    case CommitCreate(d) =>
      && IsOpen(s, d) && s.drafts[d].written == ALL_ROWS
      && OrderAudit.Enabled(s.audit, Creation(s.drafts[d])) && Pipeline.Enabled(c, s.pipe, Publication(s.drafts[d]))
    case RollbackCreate(d) => IsOpen(s, d)
    case Announce(d, _) => d < |s.drafts| && s.drafts[d].phase.Committed?
  }

  // ---------------------------------------------------------------- effects

  function SetDraft(s: State, d: nat, x: Draft): State
    requires d < |s.drafts|
  {
    s.(drafts := s.drafts[d := x])
  }

  /** COMMIT: every row the transaction has inserted becomes visible. */
  function AfterCommit(c: Pipeline.Config, s: State, d: nat): State
    requires Enabled(c, s, CommitCreate(d))
  {
    var x := s.drafts[d];
    SetDraft(s, d, x.(phase := Committed))
      .(audit := if OrderRow in x.written && AuditRow in x.written then OrderAudit.Apply(s.audit, Creation(x))
        else s.audit,
        pipe := if OutboxRow in x.written then Pipeline.Apply(c, s.pipe, Publication(x)) else s.pipe,
        made := if x.call.Some? then s.made[x.call.value := d] else s.made)
  }

  function Apply(c: Pipeline.Config, s: State, step: Step): State
    requires Enabled(c, s, step)
  {
    match step
    case Request(r) => s.(requests := Idempotency.Apply(s.requests, r))
    case Audit(d) => s.(audit := OrderAudit.Apply(s.audit, d))
    case Pipe(p) => s.(pipe := Pipeline.Apply(c, s.pipe, p))
    case BeginCreate(call, key, o, e, user, total, at) =>
      s.(drafts := s.drafts + [Draft(call, key, o, e, user, total, at, s.audit.now, {}, Open)])
    case InsertRow(d, row) => SetDraft(s, d, s.drafts[d].(written := s.drafts[d].written + {row}))
    case CommitCreate(d) => AfterCommit(c, s, d)
    case RollbackCreate(d) => SetDraft(s, d, s.drafts[d].(phase := RolledBack))
    case Announce(d, bumps) =>
      SetDraft(s, d, s.drafts[d].(phase := Announced)).(version := if bumps then s.version + 1 else s.version)
  }

  // ---------------------------------------------------------------- runs

  ghost function Machine(c: Pipeline.Config): Runs.System<State, Step> {
    Runs.System(s => Init(s), (s, step) => Enabled(c, s, step),
                (s, step) => if Enabled(c, s, step) then Apply(c, s, step) else s)
  }

  ghost predicate Reachable(c: Pipeline.Config, s: State) { Runs.Reaches(Machine(c), s) }

  lemma ReachableInit(c: Pipeline.Config, s: State)
    requires Init(s)
    ensures Reachable(c, s)
  {
    Runs.Start(Machine(c), s);
  }

  lemma ReachableStep(c: Pipeline.Config, s: State, step: Step, s': State)
    requires Reachable(c, s) && Enabled(c, s, step) && Apply(c, s, step) == s'
    ensures Reachable(c, s')
  {
    Runs.Go(Machine(c), s, step, s');
  }
}
