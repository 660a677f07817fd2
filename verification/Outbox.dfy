/**
  The outbox table and the publishers that poll it, as a transition system over the
  operations Postgres makes atomic. A poll transaction keeps its place in `txns` when it
  is over, so a statement about a state covers the whole run that led to it.
*/
module Outbox {
  import opened Shared
  import Runs

  type EventId = nat
  type OrderId = nat

  /** One row of `outbox_events`; times in seconds. */
  datatype Row = Row(order: OrderId, occurredAt: nat, attempts: nat, nextAttemptAt: nat, published: bool)

  /** What an open poll transaction has written, and nobody else can see yet. */
  datatype Mark = MarkPublished | MarkBackedOff

  datatype Status = Open | Committed | RolledBack

  /** One run of `pollOnce`: the rows it locked, how far it got, and what the broker confirmed to it. */
  datatype Txn = Txn(
    startedAt: nat,
    rows: seq<EventId>,
    cursor: nat,
    confirmed: set<EventId>,
    marks: map<EventId, Mark>,
    status: Status)

  datatype State = State(now: nat, orders: set<OrderId>, outbox: map<EventId, Row>, txns: seq<Txn>)

  const EMPTY := State(0, {}, map[], [])

  datatype Step =
    | Tick
    | CommitOrder(order: OrderId, event: EventId, occurredAt: nat)
    | PollBegin(rows: seq<EventId>)
    | PublishConfirmed(txn: nat)
    | PublishFailed(txn: nat, delivered: bool)
    | RecordPublished(txn: nat)
    | Commit(txn: nat)
    | Rollback(txn: nat)

  // ---------------------------------------------------------------- backoff

  function Pow2(n: nat): nat { if n == 0 then 1 else 2 * Pow2(n - 1) }

  /** Seconds to wait before the attempt after `attempts` failures. */
  function BackoffSeconds(attempts: nat): nat {
    Min(60, Max(1, Pow2(Min(attempts, 6))))
  }

  // ---------------------------------------------------------------- guards

  predicate Distinct(rows: seq<EventId>) {
    forall i, j | 0 <= i < j < |rows| :: rows[i] != rows[j]
  }

  predicate Locked(s: State, e: EventId) {
    exists t | 0 <= t < |s.txns| :: s.txns[t].status.Open? && e in s.txns[t].rows
  }

  predicate Due(s: State, e: EventId) {
    e in s.outbox && !s.outbox[e].published && s.outbox[e].nextAttemptAt <= s.now
  }

  /** Due and not locked: what `FOR UPDATE SKIP LOCKED` may return. */
  predicate Available(s: State, e: EventId) { Due(s, e) && !Locked(s, e) }

  /** `e` may stand before `f` in the answer. */
  predicate NoLater(s: State, e: EventId, f: EventId) {
    e in s.outbox && f in s.outbox && s.outbox[e].occurredAt <= s.outbox[f].occurredAt
  }

  /** The answer of the polling SELECT: available rows, oldest first, at most a batch, none skipped. */
  predicate Selected(batchSize: nat, s: State, rows: seq<EventId>) {
    && Distinct(rows)
    && |rows| <= batchSize
    && (forall i | 0 <= i < |rows| :: Available(s, rows[i]))
    && (forall i, j | 0 <= i < j < |rows| :: NoLater(s, rows[i], rows[j]))
    && (forall e | e in s.outbox && Available(s, e) && e !in rows ::
          |rows| == batchSize && forall i | 0 <= i < |rows| :: NoLater(s, rows[i], e))
  }

  predicate IsOpen(s: State, t: nat) { t < |s.txns| && s.txns[t].status.Open? }

  /** The transaction is about to handle the row under its cursor. */
  predicate AtRow(s: State, t: nat) { IsOpen(s, t) && s.txns[t].cursor < |s.txns[t].rows| }

  function CurrentRow(s: State, t: nat): EventId
    requires AtRow(s, t)
  {
    s.txns[t].rows[s.txns[t].cursor]
  }

  predicate Enabled(batchSize: nat, s: State, step: Step) {
    match step
    case Tick => true
    case CommitOrder(o, e, _) => o !in s.orders && e !in s.outbox
    case PollBegin(rows) => Selected(batchSize, s, rows)
    case PublishConfirmed(t) => AtRow(s, t) && CurrentRow(s, t) !in s.txns[t].confirmed
    case PublishFailed(t, _) => AtRow(s, t) && CurrentRow(s, t) !in s.txns[t].confirmed
    case RecordPublished(t) => AtRow(s, t) && CurrentRow(s, t) in s.txns[t].confirmed
    case Commit(t) => IsOpen(s, t) && s.txns[t].cursor == |s.txns[t].rows|
    case Rollback(t) => IsOpen(s, t)
  }

  // ---------------------------------------------------------------- effects

  /** What a committed mark does to its row; `now()` is the start of the transaction. */
  function Marked(r: Row, m: Mark, startedAt: nat): Row {
    match m
    case MarkPublished => r.(published := true)
    case MarkBackedOff =>
      r.(attempts := r.attempts + 1, nextAttemptAt := startedAt + BackoffSeconds(r.attempts + 1))
  }

  function WithTxn(s: State, t: nat, x: Txn): State
    requires t < |s.txns|
  {
    s.(txns := s.txns[t := x])
  }

  function Confirming(x: Txn, e: EventId): Txn { x.(confirmed := x.confirmed + {e}) }

  function Marking(x: Txn, e: EventId, m: Mark): Txn { x.(cursor := x.cursor + 1, marks := x.marks[e := m]) }

  function Committing(outbox: map<EventId, Row>, x: Txn): map<EventId, Row> {
    map e | e in outbox :: if e in x.marks then Marked(outbox[e], x.marks[e], x.startedAt) else outbox[e]
  }

  function Begun(s: State, rows: seq<EventId>): State {
    s.(txns := s.txns + [Txn(s.now, rows, 0, {}, map[], Open)])
  }

  function AfterCommit(s: State, t: nat): State
    requires t < |s.txns|
  {
    s.(txns := s.txns[t := s.txns[t].(status := Committed)], outbox := Committing(s.outbox, s.txns[t]))
  }

  function Apply(batchSize: nat, s: State, step: Step): State
    requires Enabled(batchSize, s, step)
  {
    match step
    case Tick => s.(now := s.now + 1)
    case CommitOrder(o, e, at) =>
      s.(orders := s.orders + {o}, outbox := s.outbox[e := Row(o, at, 0, s.now, false)])
    case PollBegin(rows) => Begun(s, rows)
    case PublishConfirmed(t) => WithTxn(s, t, Confirming(s.txns[t], CurrentRow(s, t)))
    case PublishFailed(t, _) => WithTxn(s, t, Marking(s.txns[t], CurrentRow(s, t), MarkBackedOff))
    case RecordPublished(t) => WithTxn(s, t, Marking(s.txns[t], CurrentRow(s, t), MarkPublished))
    case Commit(t) => AfterCommit(s, t)
    case Rollback(t) => WithTxn(s, t, s.txns[t].(status := RolledBack))
  }

  // ---------------------------------------------------------------- invariants

  /** Orders and outbox rows correspond one to one. */
  ghost predicate OneRowPerOrder(s: State) {
    && (forall e | e in s.outbox :: s.outbox[e].order in s.orders)
    && (forall e, f | e in s.outbox && f in s.outbox && s.outbox[e].order == s.outbox[f].order :: e == f)
    && (forall o | o in s.orders :: exists e :: RowOf(s, o, e))
  }

  ghost predicate RowOf(s: State, o: OrderId, e: EventId) { e in s.outbox && s.outbox[e].order == o }

  /** The marks are those of the rows before the cursor; "published" is marked exactly on a confirm. */
  ghost predicate Shape(x: Txn) {
    && Distinct(x.rows)
    && x.cursor <= |x.rows|
    && (forall e :: e in x.marks <==> e in x.rows[..x.cursor])
    && (forall e | e in x.confirmed :: e in x.marks || (x.cursor < |x.rows| && e == x.rows[x.cursor]))
    && (forall e | e in x.marks :: x.marks[e].MarkPublished? <==> e in x.confirmed)
    && (x.status.Committed? ==> x.cursor == |x.rows|)
  }

  ghost predicate Shapes(s: State) {
    forall t | 0 <= t < |s.txns| :: Shape(s.txns[t])
  }

  /** Rows of a transaction exist; while it is open they are unpublished and nobody else's. */
  ghost predicate Exclusive(s: State) {
    && (forall t, e | 0 <= t < |s.txns| && e in s.txns[t].rows :: e in s.outbox)
    && (forall t: nat, e | IsOpen(s, t) && e in s.txns[t].rows :: e in s.outbox && !s.outbox[e].published)
    && (forall t: nat, u: nat, e | IsOpen(s, t) && IsOpen(s, u) && e in s.txns[t].rows && e in s.txns[u].rows :: t == u)
  }

  ghost predicate Confirmer(s: State, t: nat, e: EventId) {
    t < |s.txns| && e in s.txns[t].confirmed
  }

  ghost predicate CommittedConfirmer(s: State, t: nat, e: EventId) {
    Confirmer(s, t, e) && s.txns[t].status.Committed?
  }

  /** A row is published by exactly one committed transaction, which had its confirm. */
  ghost predicate PublishedOnce(s: State) {
    && (forall t: nat, e | CommittedConfirmer(s, t, e) :: e in s.outbox && s.outbox[e].published)
    && (forall t: nat, u: nat, e | CommittedConfirmer(s, t, e) && CommittedConfirmer(s, u, e) :: t == u)
    && (forall e | e in s.outbox && s.outbox[e].published :: exists t :: CommittedConfirmer(s, t, e))
  }

  ghost predicate Inv(s: State) {
    OneRowPerOrder(s) && Shapes(s) && Exclusive(s) && PublishedOnce(s)
  }

  // ---------------------------------------------------------------- one step keeps them

  lemma OneRowPerOrderStep(batchSize: nat, s: State, step: Step)
    requires OneRowPerOrder(s) && Enabled(batchSize, s, step)
    ensures OneRowPerOrder(Apply(batchSize, s, step))
  {
    var s' := Apply(batchSize, s, step);
    assert step.Commit? ==> forall e | e in s.outbox :: s'.outbox[e].order == s.outbox[e].order;
    forall o | o in s'.orders ensures exists e :: RowOf(s', o, e) {
      if step.CommitOrder? && o == step.order {
        assert RowOf(s', o, step.event);
      } else {
        var e :| RowOf(s, o, e);
        assert RowOf(s', o, e);
      }
    }
  }

  lemma ShapeMarking(x: Txn, m: Mark)
    requires Shape(x) && x.status.Open? && x.cursor < |x.rows|
    requires m.MarkPublished? <==> x.rows[x.cursor] in x.confirmed
    ensures Shape(Marking(x, x.rows[x.cursor], m))
  {
    var y := Marking(x, x.rows[x.cursor], m);
    assert x.rows[..y.cursor] == x.rows[..x.cursor] + [x.rows[x.cursor]];
  }

  lemma ShapeConfirming(x: Txn)
    requires Shape(x) && x.status.Open? && x.cursor < |x.rows|
    ensures Shape(Confirming(x, x.rows[x.cursor]))
  {
    assert x.rows[x.cursor] !in x.rows[..x.cursor];
  }

  lemma ShapesStep(batchSize: nat, s: State, step: Step)
    requires Shapes(s) && Enabled(batchSize, s, step)
    ensures Shapes(Apply(batchSize, s, step))
  {
    match step
    case PublishConfirmed(t) => ShapeConfirming(s.txns[t]);
    case PublishFailed(t, _) => ShapeMarking(s.txns[t], MarkBackedOff);
    case RecordPublished(t) => ShapeMarking(s.txns[t], MarkPublished);
    case _ =>
  }

  /** Nothing the row locks depend on changed, except that transactions may have closed. */
  ghost predicate LocksKept(s: State, s': State) {
    && |s'.txns| == |s.txns|
    && (forall t | 0 <= t < |s.txns| ::
          s'.txns[t].rows == s.txns[t].rows && (s'.txns[t].status.Open? ==> s.txns[t].status.Open?))
    && (forall e | e in s.outbox :: e in s'.outbox && s'.outbox[e].published == s.outbox[e].published)
  }

  lemma ExclusiveFrame(s: State, s': State)
    requires Exclusive(s) && LocksKept(s, s')
    ensures Exclusive(s')
  {
    forall t: nat, u: nat, e | IsOpen(s', t) && IsOpen(s', u) && e in s'.txns[t].rows && e in s'.txns[u].rows
      ensures t == u
    {
      assert IsOpen(s, t) && IsOpen(s, u);
    }
    forall t: nat, e | IsOpen(s', t) && e in s'.txns[t].rows
      ensures e in s'.outbox && !s'.outbox[e].published
    {
      assert IsOpen(s, t) && e in s.txns[t].rows;
    }
  }

  lemma ReplaceKeepsLocks(s: State, t: nat, x: Txn)
    requires IsOpen(s, t) && x.rows == s.txns[t].rows
    ensures LocksKept(s, WithTxn(s, t, x))
  {
  }

  lemma ExclusiveStep(batchSize: nat, s: State, step: Step)
    requires Exclusive(s) && Shapes(s) && Enabled(batchSize, s, step)
    ensures Exclusive(Apply(batchSize, s, step))
  {
    var s' := Apply(batchSize, s, step);
    match step
    case PollBegin(rows) => BeginExclusive(batchSize, s, rows);
    case Commit(t) => CommitExclusive(s, t);
    case Tick => ExclusiveFrame(s, s');
    case CommitOrder(_, _, _) => ExclusiveFrame(s, s');
    case _ =>
      ReplaceKeepsLocks(s, step.txn, s'.txns[step.txn]);
      ExclusiveFrame(s, s');
  }

  lemma BeginExclusive(batchSize: nat, s: State, rows: seq<EventId>)
    requires Exclusive(s) && Selected(batchSize, s, rows)
    ensures Exclusive(Begun(s, rows))
  {
    var s' := Begun(s, rows);
    var n := |s.txns|;
    forall e | e in rows ensures Available(s, e) {
      var i :| 0 <= i < |rows| && rows[i] == e;
    }
    forall t: nat, e | t < n && IsOpen(s', t) && e in s'.txns[t].rows ensures IsOpen(s, t) && e !in rows {
      assert s'.txns[t] == s.txns[t];
    }
  }

  lemma CommitExclusive(s: State, t: nat)
    requires Exclusive(s) && Shapes(s) && IsOpen(s, t) && s.txns[t].cursor == |s.txns[t].rows|
    ensures Exclusive(AfterCommit(s, t))
  {
    var x := s.txns[t];
    var s' := AfterCommit(s, t);
    assert Shape(x) && x.rows[..x.cursor] == x.rows;
    forall u: nat, e | IsOpen(s', u) && e in s'.txns[u].rows
      ensures IsOpen(s, u) && e in s.txns[u].rows && e in s'.outbox && !s'.outbox[e].published
    {
      assert IsOpen(s, u) && e in s.txns[u].rows && e !in x.rows;
    }
  }

  /** What committed transactions confirmed, and which rows are published, is as before. */
  ghost predicate CommittedKept(s: State, s': State) {
    && (forall t: nat, e :: CommittedConfirmer(s', t, e) <==> CommittedConfirmer(s, t, e))
    && (forall e | e in s.outbox :: e in s'.outbox && s'.outbox[e].published == s.outbox[e].published)
    && (forall e | e in s'.outbox && s'.outbox[e].published :: e in s.outbox)
  }

  lemma PublishedOnceFrame(s: State, s': State)
    requires PublishedOnce(s) && CommittedKept(s, s')
    ensures PublishedOnce(s')
  {
    forall e | e in s'.outbox && s'.outbox[e].published ensures exists t :: CommittedConfirmer(s', t, e) {
      var t :| CommittedConfirmer(s, t, e);
      assert CommittedConfirmer(s', t, e);
    }
  }

  /** Replacing an open transaction by one that is not committed either. */
  lemma ReplaceKeepsCommitted(s: State, t: nat, x: Txn)
    requires IsOpen(s, t) && !x.status.Committed?
    ensures CommittedKept(s, WithTxn(s, t, x))
  {
  }

  lemma BeginKeepsCommitted(s: State, rows: seq<EventId>)
    ensures CommittedKept(s, Begun(s, rows))
  {
    var s' := Begun(s, rows);
    forall t: nat, e ensures CommittedConfirmer(s', t, e) <==> CommittedConfirmer(s, t, e) {
      if t < |s.txns| {
        assert s'.txns[t] == s.txns[t];
      }
    }
  }

  lemma PublishedOnceStep(batchSize: nat, s: State, step: Step)
    requires PublishedOnce(s) && Exclusive(s) && Shapes(s) && Enabled(batchSize, s, step)
    ensures PublishedOnce(Apply(batchSize, s, step))
  {
    var s' := Apply(batchSize, s, step);
    match step
    case Commit(t) => CommitPublishes(s, t);
    case PollBegin(rows) =>
      BeginKeepsCommitted(s, rows);
      PublishedOnceFrame(s, s');
    case Tick => PublishedOnceFrame(s, s');
    case CommitOrder(_, _, _) => PublishedOnceFrame(s, s');
    case _ =>
      ReplaceKeepsCommitted(s, step.txn, s'.txns[step.txn]);
      PublishedOnceFrame(s, s');
  }

  lemma CommitPublishes(s: State, t: nat)
    requires PublishedOnce(s) && Exclusive(s) && Shapes(s) && IsOpen(s, t) && s.txns[t].cursor == |s.txns[t].rows|
    ensures PublishedOnce(AfterCommit(s, t))
  {
    var x := s.txns[t];
    var s' := AfterCommit(s, t);
    assert Shape(x) && x.rows[..x.cursor] == x.rows;
    assert forall e | e in x.rows :: e in s.outbox && !s.outbox[e].published;
    forall u: nat, e
      ensures CommittedConfirmer(s', u, e) <==> CommittedConfirmer(s, u, e) || (u == t && e in x.confirmed)
    {
    }
    forall e | e in s'.outbox && s'.outbox[e].published ensures exists u :: CommittedConfirmer(s', u, e) {
      if e in x.marks && x.marks[e].MarkPublished? {
        assert CommittedConfirmer(s', t, e);
      } else {
        var u :| CommittedConfirmer(s, u, e);
        assert CommittedConfirmer(s', u, e);
      }
    }
  }

  lemma InvStep(batchSize: nat, s: State, step: Step)
    requires Inv(s) && Enabled(batchSize, s, step)
    ensures Inv(Apply(batchSize, s, step))
  {
    OneRowPerOrderStep(batchSize, s, step);
    ShapesStep(batchSize, s, step);
    ExclusiveStep(batchSize, s, step);
    PublishedOnceStep(batchSize, s, step);
  }

  // ---------------------------------------------------------------- duplicate accounting

  ghost function Confirmers(s: State, e: EventId): set<nat> {
    set t | 0 <= t < |s.txns| && e in s.txns[t].confirmed
  }

  ghost function ConfirmersIn(s: State, e: EventId, status: Status): set<nat> {
    set t | 0 <= t < |s.txns| && e in s.txns[t].confirmed && s.txns[t].status == status
  }

  /**
    Every confirmed publish of a row is accounted for: one if the row is marked
    published, one for each rolled-back transaction that had confirmed it, and at most
    one that is still open.
  */
  lemma DuplicateAccounting(s: State, e: EventId)
    requires Inv(s) && e in s.outbox
    ensures |Confirmers(s, e)|
         == (if s.outbox[e].published then 1 else 0) + |ConfirmersIn(s, e, RolledBack)| + |ConfirmersIn(s, e, Open)|
    ensures |ConfirmersIn(s, e, Open)| <= 1
    ensures s.outbox[e].published ==> ConfirmersIn(s, e, Open) == {}
  {
    CommittedCount(s, e);
    OpenCount(s, e);
    ByStatus(s, e);
  }

  lemma ByStatus(s: State, e: EventId)
    ensures |Confirmers(s, e)|
         == |ConfirmersIn(s, e, Committed)| + |ConfirmersIn(s, e, RolledBack)| + |ConfirmersIn(s, e, Open)|
  {
    var c, r, o := ConfirmersIn(s, e, Committed), ConfirmersIn(s, e, RolledBack), ConfirmersIn(s, e, Open);
    assert Confirmers(s, e) == c + (r + o);
    assert c !! (r + o) && r !! o;
  }

  lemma CommittedCount(s: State, e: EventId)
    requires PublishedOnce(s) && e in s.outbox
    ensures |ConfirmersIn(s, e, Committed)| == if s.outbox[e].published then 1 else 0
  {
    var c := ConfirmersIn(s, e, Committed);
    forall t | t in c ensures CommittedConfirmer(s, t, e) {
      assert 0 <= t < |s.txns|;
    }
    if s.outbox[e].published {
      var t: nat :| CommittedConfirmer(s, t, e);
      assert c == {t};
    } else {
      assert c == {};
    }
  }

  lemma OpenCount(s: State, e: EventId)
    requires Exclusive(s) && Shapes(s)
    ensures |ConfirmersIn(s, e, Open)| <= 1
    ensures e in s.outbox && s.outbox[e].published ==> ConfirmersIn(s, e, Open) == {}
  {
    var o := ConfirmersIn(s, e, Open);
    forall t: nat | t in o ensures IsOpen(s, t) && e in s.txns[t].rows {
      assert Shape(s.txns[t]);
    }
    if o != {} {
      var t: nat :| t in o;
      assert o == {t};
    }
  }

  // ---------------------------------------------------------------- runs

  ghost function Machine(batchSize: nat): Runs.System<State, Step> {
    Runs.System(s => s == EMPTY, (s, step) => Enabled(batchSize, s, step),
                (s, step) => if Enabled(batchSize, s, step) then Apply(batchSize, s, step) else s)
  }

  ghost predicate Reachable(batchSize: nat, s: State) { Runs.Reaches(Machine(batchSize), s) }
}
