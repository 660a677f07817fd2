/**
  What the whole of order creation keeps, and what a client can rely on.
*/
module EndToEndSafety {
  import opened Shared
  import opened Strings
  import opened IdempotencyKeys
  import Idempotency
  import OrderAudit
  import Outbox
  import Pipeline
  import PipelineSafety
  import DeliverySafety
  import Runs
  import opened EndToEnd

  // ---------------------------------------------------------------- invariant

  predicate Settled(x: Draft) { x.phase.Committed? || x.phase.Announced? }

  /** What anybody but the transaction itself can see of a draft: all of it. */
  ghost predicate Visible(s: State, x: Draft) {
    && x.order in s.audit.orders && s.audit.orders[x.order].user == x.user
    && OrderAudit.BeganAs(s.audit, x.order, OrderAudit.Event(None, Pending, x.user, x.startedAt))
    && Outbox.RowOf(s.pipe.db, x.order, x.event) && s.pipe.db.outbox[x.event].occurredAt == x.occurredAt
  }

  /** Nothing of it. */
  ghost predicate Hidden(s: State, x: Draft) {
    x.order !in s.audit.orders && x.order !in s.pipe.db.orders && x.event !in s.pipe.db.outbox
  }

  /** The rows are inserted in order. */
  predicate InOrder(written: set<Row>) {
    written == {} || written == {OrderRow} || written == {OrderRow, AuditRow} || written == ALL_ROWS
  }

  /** A settled transaction has all of its rows, and the column holds its total. */
  predicate Whole(x: Draft) {
    && InOrder(x.written) && (Settled(x) ==> x.written == ALL_ROWS)
         && (OrderRow in x.written ==> x.total <= 2_147_483_647)
  }

  ghost predicate DraftOk(s: State, d: nat)
    requires d < |s.drafts|
  {
    var x := s.drafts[d];
    Whole(x) && x.startedAt <= s.audit.now && (if Settled(x) then Visible(s, x) else Hidden(s, x))
  }

  /** The call of a transaction has got past its claim, and its key is its user's. */
  ghost predicate CallOk(s: State, d: nat)
    requires d < |s.drafts|
  {
    var x := s.drafts[d];
    x.call.Some? ==>
      && Idempotency.In(s.requests, x.call.value)
      && !s.requests.calls[x.call.value].phase.Claiming? && !s.requests.calls[x.call.value].phase.Reading?
      && ValidKey(x.key) && s.requests.calls[x.call.value].key == RedisKey(SCOPE, UserText(x.user), x.key)
      && (Settled(x) <==> x.call.value in s.made && s.made[x.call.value] == d)
  }

  ghost predicate Apart(s: State, d: nat, e: nat)
    requires d < |s.drafts| && e < |s.drafts|
  {
    var x, y := s.drafts[d], s.drafts[e];
    d != e ==> x.order != y.order && x.event != y.event && (x.call.Some? ==> x.call != y.call)
  }

  ghost predicate MadeOk(s: State, a: nat)
    requires a in s.made
  {
    s.made[a] < |s.drafts| && s.drafts[s.made[a]].call == Some(a)
  }

  ghost predicate Drafts(s: State) {
    && s.audit.orders.Keys == s.pipe.db.orders
    && (forall d | 0 <= d < |s.drafts| :: DraftOk(s, d))
    && (forall d | 0 <= d < |s.drafts| :: CallOk(s, d))
    && (forall d, e | 0 <= d < |s.drafts| && 0 <= e < |s.drafts| :: Apart(s, d, e))
    && (forall a | a in s.made :: MadeOk(s, a))
  }

  /** `r` is the 201 of the order that call `a` made. */
  ghost predicate Names(s: State, a: nat, r: Idempotency.Response) {
    && a in s.made && s.made[a] < |s.drafts|
    && r.status == 201 && r.body == OrderBody(s.drafts[s.made[a]].order)
  }

  /** A call with a result has made an order, and the result names it. */
  ghost predicate ResultOk(s: State, a: nat)
    requires Idempotency.In(s.requests, a)
  {
    var c := s.requests.calls[a];
    && (c.phase.Storing? ==> Names(s, a, c.phase.response))
    && (c.response.Some? ==> Names(s, a, c.response.value))
    && (c.storedAt.Some? ==> c.response.Some?)
    && (c.phase.Replied? && c.phase.reply.Own? ==> Names(s, a, c.phase.reply.response))
  }

  ghost predicate Results(s: State) { forall a | 0 <= a < |s.requests.calls| :: ResultOk(s, a) }

  ghost predicate Inv(c: Pipeline.Config, s: State) {
    && Idempotency.Reachable(s.requests) && OrderAudit.Reachable(s.audit) && Pipeline.Reachable(c, s.pipe)
    && Drafts(s) && Results(s)
  }

  // ---------------------------------------------------------------- one step keeps it

  /** Nothing about transactions changes, and calls only move forward. */
  lemma RequestDrafts(s: State, r: Idempotency.Step)
    requires Drafts(s) && Idempotency.Enabled(s.requests, r)
    ensures Drafts(s.(requests := Idempotency.Apply(s.requests, r)))
  {
    var s' := s.(requests := Idempotency.Apply(s.requests, r));
    forall d | 0 <= d < |s'.drafts| ensures DraftOk(s', d) { assert DraftOk(s, d); }
    forall d | 0 <= d < |s'.drafts| ensures CallOk(s', d) {
      assert CallOk(s, d);
      if s.drafts[d].call.Some? {
        Idempotency.NeverBack(s.requests, r, s.drafts[d].call.value);
        Idempotency.CallsStay(s.requests, r, s.drafts[d].call.value);
      }
    }
    forall d, e | 0 <= d < |s'.drafts| && 0 <= e < |s'.drafts| ensures Apart(s', d, e) { assert Apart(s, d, e); }
    forall a | a in s'.made ensures MadeOk(s', a) { assert MadeOk(s, a); }
  }

  /** What is visible stays so, and nothing new of an order or an outbox row appears. */
  ghost predicate SameView(s: State, s': State) {
    && s'.audit.orders.Keys == s.audit.orders.Keys && s'.pipe.db.orders == s.pipe.db.orders
    && s'.pipe.db.outbox.Keys == s.pipe.db.outbox.Keys && s.audit.now <= s'.audit.now
    && (forall o | o in s.audit.orders :: s'.audit.orders[o].user == s.audit.orders[o].user)
    && (forall o, e | OrderAudit.BeganAs(s.audit, o, e) :: OrderAudit.BeganAs(s'.audit, o, e))
    && (forall e | e in s.pipe.db.outbox :: SameRow(s, s', e))
  }

  ghost predicate SameRow(s: State, s': State, e: nat)
    requires e in s.pipe.db.outbox
  {
    && e in s'.pipe.db.outbox && s'.pipe.db.outbox[e].order == s.pipe.db.outbox[e].order
    && s'.pipe.db.outbox[e].occurredAt == s.pipe.db.outbox[e].occurredAt
  }

  lemma ViewStays(c: Pipeline.Config, s: State, step: Step)
    requires OrderAudit.Inv(s.audit) && Enabled(c, s, step) && (step.Audit? || step.Pipe?)
    ensures SameView(s, Apply(c, s, step))
  {
    if step.Audit? {
      OrderAudit.SameOrders(s.audit, step.audit);
      forall o | o in s.audit.orders ensures Apply(c, s, step).audit.orders[o].user == s.audit.orders[o].user {
        OrderAudit.OwnerStays(s.audit, step.audit, o);
      }
      forall o, e | OrderAudit.BeganAs(s.audit, o, e) ensures OrderAudit.BeganAs(Apply(c, s, step).audit, o, e) {
        OrderAudit.BeginningStays(s.audit, step.audit, o, e);
      }
    }
  }

  /** Drafts as they were, on a view as it was. */
  lemma ViewDrafts(s: State, s': State)
    requires Drafts(s) && SameView(s, s') && s'.drafts == s.drafts && s'.made == s.made && s'.requests == s.requests
    ensures Drafts(s')
  {
    forall d | 0 <= d < |s'.drafts| ensures DraftOk(s', d) { assert DraftOk(s, d); }
    forall d | 0 <= d < |s'.drafts| ensures CallOk(s', d) { assert CallOk(s, d); }
    forall d, e | 0 <= d < |s'.drafts| && 0 <= e < |s'.drafts| ensures Apart(s', d, e) { assert Apart(s, d, e); }
    forall a | a in s'.made ensures MadeOk(s', a) { assert MadeOk(s, a); }
  }

  /** A call without a transaction has made no order. */
  lemma NoOrderYet(s: State, a: nat)
    requires Drafts(s) && forall d | 0 <= d < |s.drafts| :: s.drafts[d].call != Some(a)
    ensures a !in s.made
  {
    forall b | b in s.made ensures b != a { assert MadeOk(s, b); }
  }

  lemma BeginDrafts(s: State, x: Draft)
    requires Drafts(s) && FreshIds(s, x.order, x.event) && (x.call.Some? ==> MayCreate(s, x.call.value, x.key, x.user))
    requires x.written == {} && x.phase.Open? && x.startedAt == s.audit.now
    ensures Drafts(s.(drafts := s.drafts + [x]))
  {
    var s' := s.(drafts := s.drafts + [x]);
    forall a | a in s'.made ensures MadeOk(s', a) { assert MadeOk(s, a); }
    forall d | 0 <= d < |s'.drafts| ensures DraftOk(s', d) { assert d < |s.drafts| ==> DraftOk(s, d); }
    forall d | 0 <= d < |s'.drafts| ensures CallOk(s', d) {
      if d < |s.drafts| { assert CallOk(s, d); } else if x.call.Some? { NoOrderYet(s, x.call.value); }
    }
    forall d, e | 0 <= d < |s'.drafts| && 0 <= e < |s'.drafts| ensures Apart(s', d, e) {
      if d < |s.drafts| && e < |s.drafts| { assert Apart(s, d, e); }
    }
  }

  /** One transaction moves on without becoming visible or ceasing to be. */
  lemma SetDrafts(s: State, d: nat, x: Draft)
    requires Drafts(s) && d < |s.drafts| && Whole(x) && (Settled(x) <==> Settled(s.drafts[d]))
    requires x == s.drafts[d].(written := x.written, phase := x.phase)
    ensures Drafts(SetDraft(s, d, x))
  {
    var s' := SetDraft(s, d, x);
    forall e | 0 <= e < |s'.drafts| ensures DraftOk(s', e) { assert DraftOk(s, e); }
    forall e | 0 <= e < |s'.drafts| ensures CallOk(s', e) { assert CallOk(s, e); }
    forall e, f | 0 <= e < |s'.drafts| && 0 <= f < |s'.drafts| ensures Apart(s', e, f) { assert Apart(s, e, f); }
    forall a | a in s'.made ensures MadeOk(s', a) { assert MadeOk(s, a); }
  }

  /** The view after a COMMIT: the rows of the transaction, all of them, and nothing else. */
  ghost predicate Shown(s: State, s': State, x: Draft) {
    && s'.audit.orders.Keys == s.audit.orders.Keys + {x.order} && s'.pipe.db.orders == s.pipe.db.orders + {x.order}
    && s'.pipe.db.outbox.Keys == s.pipe.db.outbox.Keys + {x.event} && s'.audit.now == s.audit.now
    && Visible(s', x)
    && (forall o | o in s.audit.orders && o != x.order :: s'.audit.orders[o].user == s.audit.orders[o].user)
    && (forall o, e | o != x.order && OrderAudit.BeganAs(s.audit, o, e) :: OrderAudit.BeganAs(s'.audit, o, e))
    && (forall e | e in s.pipe.db.outbox && e != x.event :: SameRow(s, s', e))
  }

  lemma CommitShows(c: Pipeline.Config, s: State, d: nat)
    requires Enabled(c, s, CommitCreate(d))
    ensures Shown(s, AfterCommit(c, s, d), s.drafts[d])
  {
  }

  lemma CommitDrafts(s: State, s': State, d: nat)
    requires Drafts(s) && IsOpen(s, d) && s.drafts[d].written == ALL_ROWS && Shown(s, s', s.drafts[d])
    requires s'.drafts == s.drafts[d := s.drafts[d].(phase := Committed)] && s'.requests == s.requests
    requires s'.made == if s.drafts[d].call.Some? then s.made[s.drafts[d].call.value := d] else s.made
    ensures Drafts(s')
  {
    assert DraftOk(s, d) && CallOk(s, d);
    forall e | 0 <= e < |s'.drafts| ensures DraftOk(s', e) { assert DraftOk(s, e) && Apart(s, d, e); }
    forall e | 0 <= e < |s'.drafts| ensures CallOk(s', e) { assert CallOk(s, e) && Apart(s, d, e); }
    forall e, f | 0 <= e < |s'.drafts| && 0 <= f < |s'.drafts| ensures Apart(s', e, f) { assert Apart(s, e, f); }
    forall a | a in s'.made ensures MadeOk(s', a) { if a in s.made { assert MadeOk(s, a); } }
  }

  lemma DraftsStep(c: Pipeline.Config, s: State, step: Step)
    requires Drafts(s) && OrderAudit.Inv(s.audit) && Enabled(c, s, step)
    ensures Drafts(Apply(c, s, step))
  {
    match step
    case Request(r) => RequestDrafts(s, r);
    case Audit(_) => ViewStays(c, s, step); ViewDrafts(s, Apply(c, s, step));
    case Pipe(_) => ViewStays(c, s, step); ViewDrafts(s, Apply(c, s, step));
    case BeginCreate(_, _, _, _, _, _, _) => BeginDrafts(s, Apply(c, s, step).drafts[|s.drafts|]);
    case CommitCreate(d) => CommitShows(c, s, d); CommitDrafts(s, AfterCommit(c, s, d), d);
    case _ => MoveDrafts(c, s, step);
  }

  lemma MoveDrafts(c: Pipeline.Config, s: State, step: Step)
    requires Drafts(s) && Enabled(c, s, step) && (step.InsertRow? || step.RollbackCreate? || step.Announce?)
    ensures Drafts(Apply(c, s, step))
  {
    assert DraftOk(s, step.draft);
    var x := Apply(c, s, step).drafts[step.draft];
    SetDrafts(s, step.draft, x);
    ViewDrafts(SetDraft(s, step.draft, x), Apply(c, s, step));
  }

  lemma RequestResults(s: State, r: Idempotency.Step)
    requires Results(s) && Idempotency.Enabled(s.requests, r)
      && (r.ProcessorReturns? ==> MayReturn(s, r.call, r.response))
    ensures Results(s.(requests := Idempotency.Apply(s.requests, r)))
  {
    var s' := s.(requests := Idempotency.Apply(s.requests, r));
    forall a | 0 <= a < |s'.requests.calls| ensures ResultOk(s', a) { ResultStep(s, r, a); }
  }

  lemma ResultStep(s: State, r: Idempotency.Step, a: nat)
    requires Results(s) && Idempotency.Enabled(s.requests, r)
      && (r.ProcessorReturns? ==> MayReturn(s, r.call, r.response))
    requires Idempotency.In(Idempotency.Apply(s.requests, r), a)
    ensures ResultOk(s.(requests := Idempotency.Apply(s.requests, r)), a)
  {
    if a < |s.requests.calls| { assert ResultOk(s, a); }
  }

  /** No other step takes an order from the call that made it. */
  lemma ResultsStay(s: State, s': State)
    requires Results(s) && Drafts(s) && s'.requests == s.requests && |s.drafts| <= |s'.drafts|
    requires forall a | a in s.made :: a in s'.made && s'.made[a] == s.made[a]
    requires forall d | 0 <= d < |s.drafts| :: s'.drafts[d].order == s.drafts[d].order
    ensures Results(s')
  {
    forall a | 0 <= a < |s'.requests.calls| ensures ResultOk(s', a) { assert ResultOk(s, a); }
  }

  /** The call of an open transaction has made nothing yet. */
  lemma NothingMadeYet(s: State, d: nat)
    requires Drafts(s) && IsOpen(s, d) && s.drafts[d].call.Some?
    ensures s.drafts[d].call.value !in s.made
  {
    forall a | a in s.made ensures a != s.drafts[d].call.value {
      assert MadeOk(s, a) && CallOk(s, d) && Apart(s, d, s.made[a]);
    }
  }

  lemma ResultsStep(c: Pipeline.Config, s: State, step: Step)
    requires Results(s) && Drafts(s) && Enabled(c, s, step)
    ensures Results(Apply(c, s, step))
  {
    if step.Request? {
      RequestResults(s, step.request);
    } else {
      if step.CommitCreate? && s.drafts[step.draft].call.Some? { NothingMadeYet(s, step.draft); }
      ResultsStay(s, Apply(c, s, step));
    }
  }

  lemma PartsStep(c: Pipeline.Config, s: State, step: Step)
    requires Inv(c, s) && Enabled(c, s, step)
    ensures var s' := Apply(c, s, step);
      Idempotency.Reachable(s'.requests) && OrderAudit.Reachable(s'.audit) && Pipeline.Reachable(c, s'.pipe)
  {
    match step
    case Request(r) => Idempotency.ReachableStep(s.requests, r, Idempotency.Apply(s.requests, r));
    case Audit(d) => OrderAudit.ReachableStep(s.audit, d, OrderAudit.Apply(s.audit, d));
    case Pipe(p) => Pipeline.ReachableStep(c, s.pipe, p, Pipeline.Apply(c, s.pipe, p));
    case CommitCreate(d) =>
      OrderAudit.ReachableStep(s.audit, Creation(s.drafts[d]), OrderAudit.Apply(s.audit, Creation(s.drafts[d])));
      Pipeline.ReachableStep(c, s.pipe, Publication(s.drafts[d]), Pipeline.Apply(c, s.pipe, Publication(s.drafts[d])));
    case _ =>
  }

  lemma InvStep(c: Pipeline.Config, s: State, step: Step)
    requires Inv(c, s) && Enabled(c, s, step)
    ensures Inv(c, Apply(c, s, step))
  {
    OrderAudit.InvReachable(s.audit);
    PartsStep(c, s, step);
    DraftsStep(c, s, step);
    ResultsStep(c, s, step);
  }

  lemma InvReachable(c: Pipeline.Config, s: State)
    requires Reachable(c, s)
    ensures Inv(c, s)
  {
    forall x | Init(x) ensures Inv(c, x) {
      Idempotency.ReachableInit();
      OrderAudit.ReachableInit();
      Pipeline.ReachableInit(c, x.pipe);
    }
    forall x, step | Inv(c, x) && Enabled(c, x, step) ensures Inv(c, Apply(c, x, step)) { InvStep(c, x, step); }
    Runs.Invariant(Machine(c), x => Inv(c, x), s);
  }

  // ---------------------------------------------------------------- theorems

  /**
    All or nothing: in every reachable state, whatever statement a creating transaction has
    reached, failed at or died at, its order, its audit trail and its outbox row are visible
    together, or none of them is; and they are exactly if it has committed.
  */
  lemma TogetherOrNotAtAll(c: Pipeline.Config, s: State, d: nat)
    requires Reachable(c, s) && d < |s.drafts|
    ensures var x := s.drafts[d];
      && (Settled(x) <==> x.order in s.audit.orders) && (Settled(x) <==> x.order in s.audit.trail)
      && (Settled(x) <==> x.order in s.pipe.db.orders) && (Settled(x) <==> x.event in s.pipe.db.outbox)
      && (Settled(x) ==> Visible(s, x) && x.total <= MAX_TOTAL)
  {
    InvReachable(c, s);
    assert DraftOk(s, d);
    OrderAudit.InvReachable(s.audit);
  }

  /** A transaction that has inserted all of its rows can always commit. */
  lemma CommitIsPossible(c: Pipeline.Config, s: State, d: nat)
    requires Reachable(c, s) && IsOpen(s, d) && s.drafts[d].written == ALL_ROWS
    ensures Enabled(c, s, CommitCreate(d))
  {
    InvReachable(c, s);
    assert DraftOk(s, d);
  }

  /** After its COMMIT the call neither crashed nor failed: it is still on its way, or its success is recorded. */
  ghost predicate Intact(s: State, k: Idempotency.Key) {
    forall a | a in s.made && a < |s.requests.calls| && s.requests.calls[a].key == k ::
      s.requests.calls[a].phase.Running? || s.requests.calls[a].phase.Storing? || s.requests.calls[a].storedAt.Some?
  }

  /** The assumptions about one key: no processor outlived its claim, lost its success, or died after its COMMIT. */
  ghost predicate Sound(s: State, k: Idempotency.Key) { Idempotency.Clean(s.requests, k) && Intact(s, k) }

  /**
    One order per key and record life: two orders made under one key were claimed more than 24 hours
    apart, the later one after the record of the earlier had expired.
  */
  lemma OneOrderPerKey(c: Pipeline.Config, s: State, a: nat, b: nat)
    requires Reachable(c, s) && a in s.made && b in s.made && a != b
    requires a < |s.requests.calls| && b < |s.requests.calls|
    requires s.requests.calls[a].key == s.requests.calls[b].key && Sound(s, s.requests.calls[a].key)
    ensures LifeApart(s.requests, a, b) || LifeApart(s.requests, b, a)
  {
    InvReachable(c, s);
    if s.requests.calls[a].storedAt.Some? {
      Idempotency.SuccessesApart(s.requests, a, b);
    } else {
      Idempotency.OneProcessorAtATime(s.requests, a, b);
      Idempotency.SuccessesApart(s.requests, b, a);
    }
    Idempotency.ClaimedBeforeStored(s.requests, a);
    Idempotency.ClaimedBeforeStored(s.requests, b);
  }

  ghost predicate LifeApart(s: Idempotency.State, a: nat, b: nat)
    requires Idempotency.In(s, a) && Idempotency.In(s, b)
  {
    && s.calls[a].storedAt.Some?
    && s.calls[a].claimedAt <= s.calls[a].storedAt.value
    && s.calls[a].storedAt.value + 86_400 <= s.calls[b].claimedAt
  }

  /**
    What a committed order amounts to, whatever clients, publishers, workers and the broker
    repeat, and whatever fails: exactly one "created" audit row, exactly one outbox row, and at
    most one activation that ever processed its event.
  */
  lemma OrderArtifacts(c: Pipeline.Config, s: State, d: nat)
    requires Reachable(c, s) && d < |s.drafts| && Settled(s.drafts[d])
    ensures s.drafts[d].order in s.audit.trail && s.drafts[d].event in s.pipe.db.outbox
    ensures OrderAudit.BeganAs(s.audit, s.drafts[d].order,
      OrderAudit.Event(None, Pending, s.drafts[d].user, s.drafts[d].startedAt))
    ensures s.pipe.db.outbox[s.drafts[d].event].occurredAt == s.drafts[d].occurredAt
    ensures forall i: nat :: OrderAudit.Creates(s.audit.trail[s.drafts[d].order], i) <==> i == 0
    ensures forall e :: Outbox.RowOf(s.pipe.db, s.drafts[d].order, e) <==> e == s.drafts[d].event
    ensures forall x: nat, y: nat ::
      (DeliverySafety.Completer(s.pipe.mq, x, s.drafts[d].event)
       && DeliverySafety.Completer(s.pipe.mq, y, s.drafts[d].event)) ==> x == y
  {
    InvReachable(c, s);
    assert DraftOk(s, d);
    var x := s.drafts[d];
    OrderAudit.CreatedOnce(s.audit, x.order);
    PipelineSafety.OneEventPerOrder(c, s.pipe, x.order);
    forall a: nat, b: nat | DeliverySafety.Completer(s.pipe.mq, a, x.event)
      && DeliverySafety.Completer(s.pipe.mq, b, x.event)
      ensures a == b
    {
      PipelineSafety.ProcessedAtMostOnce(c, s.pipe, a, b, x.event);
    }
  }

  /** The order a call made is the user's whose key it came under, and nobody else's. */
  lemma OrderIsTheUsers(c: Pipeline.Config, s: State, a: nat, user: string, key: string)
    requires Reachable(c, s) && a in s.made && a < |s.requests.calls|
    requires s.requests.calls[a].key == RedisKey(SCOPE, user, key) && ValidKey(key) && NoColon(user)
    ensures s.made[a] < |s.drafts| && s.drafts[s.made[a]].order in s.audit.orders
    ensures UserText(s.audit.orders[s.drafts[s.made[a]].order].user) == user
    ensures s.audit.orders[s.drafts[s.made[a]].order].user == Number10(user)
  {
    InvReachable(c, s);
    assert MadeOk(s, a) && CallOk(s, s.made[a]) && DraftOk(s, s.made[a]);
    var x := s.drafts[s.made[a]];
    DigitsRead(x.user);
    RedisKeysDistinct(SCOPE, user, key, SCOPE, UserText(x.user), x.key);
  }

  /**
    Every successful reply under a key, first or replayed, is a 201 that names the one order a
    call with this key and this request made.
  */
  lemma RepliesNameTheOrder(c: Pipeline.Config, s: State, b: nat)
    requires Reachable(c, s) && b < |s.requests.calls| && Sound(s, s.requests.calls[b].key) && Succeeded(s, b)
    ensures exists a: nat :: AnsweredBy(s, a, b)
  {
    InvReachable(c, s);
    assert ResultOk(s, b);
    if s.requests.calls[b].phase.reply.Own? {
      NamedOrder(s, b, s.requests.calls[b].phase.reply.response);
      assert AnsweredBy(s, b, b);
    } else {
      Idempotency.ReplaysAreRecorded(s.requests, b);
      var a: nat :| Idempotency.Source(s.requests, a, b);
      assert ResultOk(s, a);
      NamedOrder(s, a, s.requests.calls[b].phase.reply.response);
      assert AnsweredBy(s, a, b);
    }
  }

  ghost predicate Succeeded(s: State, b: nat)
    requires b < |s.requests.calls|
  {
    s.requests.calls[b].phase.Replied?
      && (s.requests.calls[b].phase.reply.Own? || s.requests.calls[b].phase.reply.Replay?)
  }

  lemma NamedOrder(s: State, a: nat, r: Idempotency.Response)
    requires Drafts(s) && Names(s, a, r)
    ensures Number10(r.body) == s.drafts[s.made[a]].order && s.drafts[s.made[a]].order in s.audit.orders
  {
    assert MadeOk(s, a) && CallOk(s, s.made[a]) && DraftOk(s, s.made[a]);
    DigitsRead(s.drafts[s.made[a]].order);
  }

  /** Reply `b` is a 201, and its body is the id of the order that call `a`, of the same key and hash, made. */
  ghost predicate AnsweredBy(s: State, a: nat, b: nat)
    requires b < |s.requests.calls| && Succeeded(s, b)
  {
    var r := s.requests.calls[b].phase.reply.response;
    && a < |s.requests.calls| && a in s.made && s.made[a] < |s.drafts|
    && r.status == 201 && Number10(r.body) == s.drafts[s.made[a]].order
    && s.drafts[s.made[a]].order in s.audit.orders
    && s.requests.calls[a].key == s.requests.calls[b].key && s.requests.calls[a].hash == s.requests.calls[b].hash
  }

  // ---------------------------------------------------------------- why `Intact` is needed

  /**
    If the process of `a` dies after its COMMIT, then once its claim has expired the next call `b`
    with the key runs its processor, and may begin a second transaction.
  */
  lemma DeathAfterCommit(c: Pipeline.Config, s: State, a: nat, b: nat) returns (s': State)
    requires Reachable(c, s) && a in s.made && a < |s.requests.calls| && b < |s.requests.calls|
    requires s.requests.calls[b].key == s.requests.calls[a].key
      && Idempotency.Clean(s.requests, s.requests.calls[a].key)
    requires s.requests.calls[a].phase.Running? && s.requests.calls[b].phase.Claiming?
    ensures Reachable(c, s') && s' == s.(requests := s'.requests) && s.made[a] < |s.drafts|
    ensures MayCreate(s', b, s.drafts[s.made[a]].key, s.drafts[s.made[a]].user)
  {
    InvReachable(c, s);
    assert MadeOk(s, a) && CallOk(s, s.made[a]);
    s' := Succession(c, s, a, b);
    forall d | 0 <= d < |s.drafts| ensures s.drafts[d].call != Some(b) { assert CallOk(s, d); }
  }

  /** The process of `a` dies, its claim expires, and `b` takes the claim. */
  lemma Succession(c: Pipeline.Config, s: State, a: nat, b: nat) returns (s': State)
    requires Reachable(c, s) && Idempotency.Reachable(s.requests) && a < |s.requests.calls| && b < |s.requests.calls|
    requires s.requests.calls[b].key == s.requests.calls[a].key
      && Idempotency.Clean(s.requests, s.requests.calls[a].key)
    requires s.requests.calls[a].phase.Running? && s.requests.calls[b].phase.Claiming?
    ensures Reachable(c, s') && s' == s.(requests := s'.requests)
    ensures b < |s'.requests.calls| && s'.requests.calls[b].phase.Running?
      && s'.requests.calls[b].key == s.requests.calls[a].key
  {
    var r := Idempotency.DeadHolderExpires(s.requests, a, b);
    var s1 := s.(requests := Idempotency.Apply(s.requests, Idempotency.Crash(a)));
    ReachableStep(c, s, Request(Idempotency.Crash(a)), s1);
    var s2 := s1.(requests := Idempotency.Apply(s1.requests, Idempotency.Tick(Idempotency.PROCESSING_TTL)));
    ReachableStep(c, s1, Request(Idempotency.Tick(Idempotency.PROCESSING_TTL)), s2);
    s' := s2.(requests := Idempotency.Apply(s2.requests, Idempotency.SetNx(b)));
    ReachableStep(c, s2, Request(Idempotency.SetNx(b)), s');
    assert s'.requests == r;
  }
}
