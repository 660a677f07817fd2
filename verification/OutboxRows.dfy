/**
  What a row of the outbox keeps for life, and how it may change.
*/
module OutboxRows {
  import opened Shared
  import Runs
  import opened Outbox

  /** What the INSERT puts into the outbox: unpublished, never tried, due at once. */
  lemma RowIsNew(batchSize: nat, s: State, o: OrderId, e: EventId, at: nat)
    requires Enabled(batchSize, s, CommitOrder(o, e, at))
    ensures var s' := Apply(batchSize, s, CommitOrder(o, e, at));
      && s'.outbox.Keys == s.outbox.Keys + {e} && s'.orders == s.orders + {o}
      && s'.outbox[e].order == o && s'.outbox[e].occurredAt == at
      && !s'.outbox[e].published && s'.outbox[e].attempts == 0 && s'.outbox[e].nextAttemptAt == s.now
      && Due(s', e)
  {
  }

  /**
    No step removes a row, changes its order or when it occurred, unpublishes it, or takes back an
    attempt; and only the COMMIT of a poll that locked the row changes it at all.
  */
  lemma RowKeeps(batchSize: nat, s: State, step: Step, e: EventId)
    requires Enabled(batchSize, s, step) && Shapes(s) && e in s.outbox
    ensures var s' := Apply(batchSize, s, step);
      && e in s'.outbox
      && s'.outbox[e].order == s.outbox[e].order && s'.outbox[e].occurredAt == s.outbox[e].occurredAt
      && (s.outbox[e].published ==> s'.outbox[e].published)
      && s.outbox[e].attempts <= s'.outbox[e].attempts <= s.outbox[e].attempts + 1
      && (s'.outbox[e] != s.outbox[e] ==> step.Commit? && e in s.txns[step.txn].rows)
  {
    if step.Commit? { assert Shape(s.txns[step.txn]); }
  }

  ghost predicate CommittedAs(steps: seq<Step>, i: int, e: EventId, r: Row) {
    0 <= i < |steps| && steps[i] == CommitOrder(r.order, e, r.occurredAt)
  }

  /** In every run, the order of a row and the time it occurred are those its one commit gave it. */
  lemma {:induction false} RowAsCommitted(batchSize: nat, s: State, steps: seq<Step>, e: EventId)
    requires Outbox.Inv(s) && Runs.Valid(Machine(batchSize), s, steps)
    requires e in Runs.After(Machine(batchSize), s, steps).outbox
    ensures var end := Runs.After(Machine(batchSize), s, steps);
      if e in s.outbox then
        && end.outbox[e].order == s.outbox[e].order && end.outbox[e].occurredAt == s.outbox[e].occurredAt
        && forall i | 0 <= i < |steps| && steps[i].CommitOrder? :: steps[i].event != e
      else
        && (exists i :: CommittedAs(steps, i, e, end.outbox[e]))
        && forall i, j | 0 <= i < |steps| && 0 <= j < |steps| && steps[i].CommitOrder? && steps[j].CommitOrder?
                         && steps[i].event == e && steps[j].event == e :: i == j
    decreases |steps|
  {
    if steps != [] {
      var s' := Apply(batchSize, s, steps[0]);
      Outbox.InvStep(batchSize, s, steps[0]);
      RowAsCommitted(batchSize, s', steps[1..], e);
      assert forall i | 0 < i < |steps| :: steps[i] == steps[1..][i - 1];
      if e in s.outbox {
        RowKeeps(batchSize, s, steps[0], e);
      } else if e in s'.outbox {
        assert CommittedAs(steps, 0, e, Runs.After(Machine(batchSize), s, steps).outbox[e]);
      } else {
        var i :| CommittedAs(steps[1..], i, e, Runs.After(Machine(batchSize), s, steps).outbox[e]);
        assert CommittedAs(steps, i + 1, e, Runs.After(Machine(batchSize), s, steps).outbox[e]);
      }
    }
  }

  /** From the empty outbox on: every row is as its one commit made it. */
  lemma RowsAreAsCommitted(batchSize: nat, steps: seq<Step>, s: State, e: EventId)
    requires Runs.Arrives(Machine(batchSize), EMPTY, steps, s) && e in s.outbox
    ensures exists i :: CommittedAs(steps, i, e, s.outbox[e])
  {
    RowAsCommitted(batchSize, EMPTY, steps, e);
  }

  /** Unpublished, due, and in no open poll. */
  ghost predicate MayBeTaken(s: State, e: EventId) {
    && e in s.outbox && !s.outbox[e].published && s.outbox[e].nextAttemptAt <= s.now
    && forall t | 0 <= t < |s.txns| && s.txns[t].status.Open? :: e !in s.txns[t].rows
  }

  /** The `batchSize` oldest rows that may be taken, or all of them if they are fewer, oldest first and each once. */
  ghost predicate OldestDue(batchSize: nat, s: State, rows: seq<EventId>) {
    && |rows| <= batchSize
    && (forall i | 0 <= i < |rows| :: MayBeTaken(s, rows[i]))
    && (forall i, j | 0 <= i < j < |rows| ::
          rows[i] != rows[j] && s.outbox[rows[i]].occurredAt <= s.outbox[rows[j]].occurredAt)
    && (forall e | MayBeTaken(s, e) && e !in rows ::
          |rows| == batchSize && forall i | 0 <= i < |rows| :: s.outbox[rows[i]].occurredAt <= s.outbox[e].occurredAt)
  }

  /** Just these are the answers the polling SELECT may give. */
  lemma SelectedExactly(batchSize: nat, s: State, rows: seq<EventId>)
    ensures Selected(batchSize, s, rows) <==> OldestDue(batchSize, s, rows)
  {
    forall e ensures MayBeTaken(s, e) <==> Available(s, e) {
      if e in s.outbox && !Locked(s, e) {
        assert forall t | 0 <= t < |s.txns| && s.txns[t].status.Open? :: e !in s.txns[t].rows;
      }
    }
    if OldestDue(batchSize, s, rows) {
      assert Distinct(rows);
    }
  }

  /** `e` became an event of the outbox before `f` did, as their times go. */
  lemma OrderOfRowsStays(batchSize: nat, s: State, step: Step, e: EventId, f: EventId)
    requires Enabled(batchSize, s, step) && Shapes(s) && e in s.outbox && f in s.outbox
    ensures NoLater(Apply(batchSize, s, step), e, f) <==> NoLater(s, e, f)
  {
    RowKeeps(batchSize, s, step, e);
    RowKeeps(batchSize, s, step, f);
  }
}
