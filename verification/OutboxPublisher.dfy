/**
  `pollOnce` as the program it is: a loop over the locked rows, one publish and one UPDATE
  each, with everybody else running at every `await`.
*/
module OutboxPublisher {
  import opened World
  import opened Pipeline
  import opened PipelineSafety
  import Outbox
  import OutboxRows

  /** What an attempt to publish and record one row meets. */
  datatype Answer =
    | Confirmed(recorded: bool)
    | Refused(delivered: bool, recorded: bool)

  /** The polling SELECT. */
  method SelectDue(batchSize: nat, s: Outbox.State) returns (rows: seq<Outbox.EventId>)
    ensures Outbox.Selected(batchSize, s, rows) && OutboxRows.OldestDue(batchSize, s, rows)
  {
    rows := [];
    var rest := set e | e in s.outbox && Outbox.Available(s, e);
    while rest != {} && |rows| < batchSize
      invariant Outbox.Distinct(rows) && |rows| <= batchSize
      invariant forall e | e in rest :: Outbox.Available(s, e) && e !in rows
      invariant forall i | 0 <= i < |rows| :: Outbox.Available(s, rows[i])
      invariant forall i, j | 0 <= i < j < |rows| :: Outbox.NoLater(s, rows[i], rows[j])
      invariant forall i, e | 0 <= i < |rows| && e in rest :: Outbox.NoLater(s, rows[i], e)
      invariant forall e | e in s.outbox && Outbox.Available(s, e) :: e in rest || e in rows
      decreases rest
    {
      Oldest(s, rest);
      var e :| e in rest && IsOldest(s, rest, e);
      rows, rest := rows + [e], rest - {e};
    }
    OutboxRows.SelectedExactly(batchSize, s, rows);
  }

  /** Some row is the oldest. */
  lemma {:induction false} Oldest(s: Outbox.State, rest: set<Outbox.EventId>)
    requires rest != {} && forall e | e in rest :: e in s.outbox
    ensures exists e :: IsOldest(s, rest, e)
    decreases rest
  {
    var x :| x in rest;
    if rest == {x} {
      assert IsOldest(s, rest, x);
    } else {
      Oldest(s, rest - {x});
      var e :| IsOldest(s, rest - {x}, e);
      assert rest == (rest - {x}) + {x};
      assert IsOldest(s, rest, e) || IsOldest(s, rest, x);
    }
  }

  predicate IsOldest(s: Outbox.State, rest: set<Outbox.EventId>, e: Outbox.EventId) {
    e in rest && forall f | f in rest :: Outbox.NoLater(s, e, f)
  }

  function MarkOf(a: Answer): Outbox.Mark { if a.Confirmed? then Outbox.MarkPublished else Outbox.MarkBackedOff }

  /** The steps for one row: publish, then the UPDATE if it goes through. */
  function RowSteps(t: nat, a: Answer): seq<Step> {
    match a
    case Confirmed(recorded) =>
      [Db(Outbox.PublishConfirmed(t))] + (if recorded then [Db(Outbox.RecordPublished(t))] else [])
    case Refused(delivered, _) => [Db(Outbox.PublishFailed(t, delivered))]
  }

  /** The steps for the first `n` rows, in order. */
  ghost function Program(t: nat, answers: nat -> Answer, n: nat): seq<Step> {
    if n == 0 then [] else Program(t, answers, n - 1) + RowSteps(t, answers(n - 1))
  }

  /** `x` has handled `n` of `rows` as answered. */
  ghost predicate Handled(x: Outbox.Txn, rows: seq<Outbox.EventId>, answers: nat -> Answer, n: nat) {
    && n <= |rows| && x.rows == rows && x.cursor == n
    && (forall j | 0 <= j < n :: rows[j] in x.marks && x.marks[rows[j]] == MarkOf(answers(j)))
    && (n < |rows| ==> rows[n] !in x.confirmed)
  }

  /** The open transaction `t` has handled `n` rows, and its rows are as the SELECT found them in `seen`. */
  ghost predicate Midway(s: State, t: nat, seen: Outbox.State, rows: seq<Outbox.EventId>, answers: nat -> Answer,
                         n: nat) {
    && Outbox.IsOpen(s.db, t)
    && s.db.txns[t].startedAt == seen.now
    && Handled(s.db.txns[t], rows, answers, n)
    && AsSeen(s, seen, rows)
  }

  ghost predicate AsSeen(s: State, seen: Outbox.State, rows: seq<Outbox.EventId>) {
    forall i | 0 <= i < |rows| ::
      rows[i] in seen.outbox && rows[i] in s.db.outbox && s.db.outbox[rows[i]] == seen.outbox[rows[i]]
  }

  lemma HandledConfirmed(x: Outbox.Txn, rows: seq<Outbox.EventId>, answers: nat -> Answer, n: nat)
    requires Handled(x, rows, answers, n) && Outbox.Shape(x) && n < |rows| && answers(n).Confirmed?
    ensures Handled(Outbox.Marking(Outbox.Confirming(x, rows[n]), rows[n], Outbox.MarkPublished), rows, answers, n + 1)
  {
  }

  lemma HandledRefused(x: Outbox.Txn, rows: seq<Outbox.EventId>, answers: nat -> Answer, n: nat)
    requires Handled(x, rows, answers, n) && Outbox.Shape(x) && n < |rows| && answers(n).Refused?
    ensures Handled(Outbox.Marking(x, rows[n], Outbox.MarkBackedOff), rows, answers, n + 1)
  {
  }

  /** An await of the poll: others leave it its transaction and the rows it locked. */
  method Pause(w: World, t: nat, ghost seen: Outbox.State, ghost rows: seq<Outbox.EventId>, others: seq<Step>)
    requires w.Ok() && Outbox.IsOpen(w.st.db, t) && w.st.db.txns[t].rows == rows && AsSeen(w.st, seen, rows)
    modifies w
    ensures w.Ok() && Outbox.IsOpen(w.st.db, t) && w.st.db.txns[t] == old(w.st.db.txns[t]) && AsSeen(w.st, seen, rows)
    ensures Own(Poller(t), w.log) == Own(Poller(t), old(w.log))
  {
    w.Await(others, Poller(t));
  }

  /** One row: publish it and record the outcome; `ok` is false if the UPDATE threw. */
  method HandleRow(w: World, t: nat, ghost seen: Outbox.State, ghost rows: seq<Outbox.EventId>,
                   answers: nat -> Answer, n: nat, others: seq<Step>) returns (ok: bool)
    requires w.Ok() && Midway(w.st, t, seen, rows, answers, n) && n < |rows|
    modifies w
    ensures w.Ok() && ok == answers(n).recorded
    ensures Own(Poller(t), w.log) == Own(Poller(t), old(w.log)) + RowSteps(t, answers(n))
    ensures ok ==> Midway(w.st, t, seen, rows, answers, n + 1)
    ensures !ok ==> Outbox.IsOpen(w.st.db, t) && w.st.db.txns[t].rows == rows && AsSeen(w.st, seen, rows)
  {
    ok := answers(n).recorded;
    if answers(n).Confirmed? {
      HandleConfirmed(w, t, seen, rows, answers, n, others);
    } else {
      HandleRefused(w, t, seen, rows, answers, n);
    }
  }

  method HandleConfirmed(w: World, t: nat, ghost seen: Outbox.State, ghost rows: seq<Outbox.EventId>,
                         answers: nat -> Answer, n: nat, others: seq<Step>)
    requires w.Ok() && Midway(w.st, t, seen, rows, answers, n) && n < |rows| && answers(n).Confirmed?
    modifies w
    ensures w.Ok()
    ensures Own(Poller(t), w.log) == Own(Poller(t), old(w.log)) + RowSteps(t, answers(n))
    ensures answers(n).recorded ==> Midway(w.st, t, seen, rows, answers, n + 1)
    ensures Outbox.IsOpen(w.st.db, t) && w.st.db.txns[t].rows == rows && AsSeen(w.st, seen, rows)
  {
    ghost var x := w.st.db.txns[t];
    assert Outbox.Shape(x) by { w.Reached(); }
    OwnSnoc(Poller(t), w.log, Db(Outbox.PublishConfirmed(t)));
    w.Do(Db(Outbox.PublishConfirmed(t)));
    w.Await(others, Poller(t));
    assert w.st.db.txns[t] == Outbox.Confirming(x, rows[n]);
    if answers(n).recorded { RecordRow(w, t, seen, rows, answers, n, x); }
  }

  /** The UPDATE of a confirmed row; `x` is the transaction before the confirm. */
  method RecordRow(w: World, t: nat, ghost seen: Outbox.State, ghost rows: seq<Outbox.EventId>,
                   ghost answers: nat -> Answer, ghost n: nat, ghost x: Outbox.Txn)
    requires w.Ok() && Outbox.IsOpen(w.st.db, t) && AsSeen(w.st, seen, rows) && n < |rows| && answers(n).Confirmed?
    requires Handled(x, rows, answers, n) && Outbox.Shape(x) && x.status.Open? && x.startedAt == seen.now
    requires w.st.db.txns[t] == Outbox.Confirming(x, rows[n])
    modifies w
    ensures w.Ok() && Midway(w.st, t, seen, rows, answers, n + 1)
    ensures Own(Poller(t), w.log) == Own(Poller(t), old(w.log)) + [Db(Outbox.RecordPublished(t))]
  {
    HandledConfirmed(x, rows, answers, n);
    OwnSnoc(Poller(t), w.log, Db(Outbox.RecordPublished(t)));
    w.Do(Db(Outbox.RecordPublished(t)));
  }

  method HandleRefused(w: World, t: nat, ghost seen: Outbox.State, ghost rows: seq<Outbox.EventId>,
                       answers: nat -> Answer, n: nat)
    requires w.Ok() && Midway(w.st, t, seen, rows, answers, n) && n < |rows| && answers(n).Refused?
    modifies w
    ensures w.Ok()
    ensures Own(Poller(t), w.log) == Own(Poller(t), old(w.log)) + RowSteps(t, answers(n))
    ensures Midway(w.st, t, seen, rows, answers, n + 1)
  {
    assert Outbox.Shape(w.st.db.txns[t]) by { w.Reached(); }
    HandledRefused(w.st.db.txns[t], rows, answers, n);
    OwnSnoc(Poller(t), w.log, Db(Outbox.PublishFailed(t, answers(n).delivered)));
    w.Do(Db(Outbox.PublishFailed(t, answers(n).delivered)));
  }

  /** All of the first `n` rows were recorded. */
  predicate Recorded(answers: nat -> Answer, n: nat) {
    forall i | 0 <= i < n :: answers(i).recorded
  }

  /** The poll went through: every row was recorded and the COMMIT succeeded. */
  predicate GoesThrough(answers: nat -> Answer, rows: seq<Outbox.EventId>, commits: bool) {
    Recorded(answers, |rows|) && commits
  }

  /**
    What a committed poll leaves of a row, by what its publish met: sent, or one attempt more and due again
    after the backoff, counted from the start of the poll. Nothing else about it changes.
  */
  ghost predicate Leaves(was: Outbox.Row, startedAt: nat, a: Answer, r: Outbox.Row) {
    && r.order == was.order && r.occurredAt == was.occurredAt
    && if a.Confirmed? then r.published && r.attempts == was.attempts && r.nextAttemptAt == was.nextAttemptAt
       else
         && !r.published && r.attempts == was.attempts + 1
         && r.nextAttemptAt == startedAt + Outbox.BackoffSeconds(was.attempts + 1)
  }

  lemma CommitMarks(d: Outbox.State, t: nat, seen: Outbox.State, rows: seq<Outbox.EventId>, answers: nat -> Answer)
    requires Outbox.IsOpen(d, t) && Handled(d.txns[t], rows, answers, |rows|) && d.txns[t].startedAt == seen.now
    requires forall i | 0 <= i < |rows| ::
      rows[i] in seen.outbox && rows[i] in d.outbox && d.outbox[rows[i]] == seen.outbox[rows[i]]
    ensures forall i | 0 <= i < |rows| ::
      (rows[i] in Outbox.AfterCommit(d, t).outbox
       && Outbox.AfterCommit(d, t).outbox[rows[i]] == Outbox.Marked(seen.outbox[rows[i]], MarkOf(answers(i)), seen.now))
  {
  }

  lemma MarkLeaves(was: Outbox.Row, startedAt: nat, a: Answer)
    requires !was.published
    ensures Leaves(was, startedAt, a, Outbox.Marked(was, MarkOf(a), startedAt))
  {
  }

  /**
    One poll. `seen` is the database its SELECT read, `answers` what each publish and UPDATE
    met, `commits` whether the COMMIT succeeded, `others` what everybody else does at each await:
    before every publish, between it and its UPDATE, after the UPDATE, and before the end.
  */
  method PollOnce(w: World, answers: nat -> Answer, commits: bool, others: nat -> nat -> seq<Step>)
    returns (t: nat, rows: seq<Outbox.EventId>, n: nat, ghost seen: Outbox.State)
    requires w.Ok()
    modifies w
    ensures w.Ok()
    ensures OutboxRows.OldestDue(w.config.batchSize, seen, rows)
    ensures t < |w.st.db.txns| && w.st.db.txns[t].rows == rows && n <= |rows|
    ensures Recorded(answers, n) || (n > 0 && Recorded(answers, n - 1))
    ensures GoesThrough(answers, rows, commits) ==> n == |rows| && w.st.db.txns[t].status == Outbox.Committed
    ensures !GoesThrough(answers, rows, commits) ==> w.st.db.txns[t].status == Outbox.RolledBack
    ensures Own(Poller(t), w.log) == Program(t, answers, n)
      + [Db(if GoesThrough(answers, rows, commits) then Outbox.Commit(t) else Outbox.Rollback(t))]
    ensures GoesThrough(answers, rows, commits) ==> forall i | 0 <= i < |rows| ::
      rows[i] in seen.outbox && rows[i] in w.st.db.outbox
      && Leaves(seen.outbox[rows[i]], seen.now, answers(i), w.st.db.outbox[rows[i]])
    ensures !GoesThrough(answers, rows, commits) ==> AsSeen(w.st, seen, rows)
  {
    t, rows, seen := Begin(w, answers);
    var ok: bool;
    n, ok := HandleRows(w, t, seen, rows, answers, others);
    Pause(w, t, seen, rows, others(|rows|)(3));
    End(w, t, seen, rows, answers, ok && commits);
  }

  /** The loop over the rows: all of them, or up to the first whose UPDATE throws. */
  method HandleRows(w: World, t: nat, ghost seen: Outbox.State, rows: seq<Outbox.EventId>,
                    answers: nat -> Answer, others: nat -> nat -> seq<Step>) returns (n: nat, ok: bool)
    requires w.Ok() && Midway(w.st, t, seen, rows, answers, 0) && Own(Poller(t), w.log) == []
    modifies w
    ensures w.Ok() && n <= |rows| && ok == Recorded(answers, |rows|)
    ensures Recorded(answers, n) || (n > 0 && Recorded(answers, n - 1))
    ensures Outbox.IsOpen(w.st.db, t) && w.st.db.txns[t].rows == rows && AsSeen(w.st, seen, rows)
    ensures ok ==> n == |rows| && Midway(w.st, t, seen, rows, answers, n)
    ensures Own(Poller(t), w.log) == Program(t, answers, n)
  {
    n, ok := 0, true;
    while n < |rows| && ok
      invariant w.Ok() && n <= |rows|
      invariant if ok then Recorded(answers, n) else n > 0 && Recorded(answers, n - 1) && !answers(n - 1).recorded
      invariant Outbox.IsOpen(w.st.db, t) && w.st.db.txns[t].rows == rows && AsSeen(w.st, seen, rows)
      invariant ok ==> Midway(w.st, t, seen, rows, answers, n)
      invariant Own(Poller(t), w.log) == Program(t, answers, n)
      decreases |rows| - n
    {
      ok := Turn(w, t, seen, rows, answers, n, others(n));
      ProgramSnoc(t, answers, n);
      n := n + 1;
    }
  }

  lemma ProgramSnoc(t: nat, answers: nat -> Answer, n: nat)
    ensures Program(t, answers, n + 1) == Program(t, answers, n) + RowSteps(t, answers(n))
    ensures Recorded(answers, n + 1) <==> Recorded(answers, n) && answers(n).recorded
  {
  }

  /** One row, with the awaits before and after it. */
  method Turn(w: World, t: nat, ghost seen: Outbox.State, rows: seq<Outbox.EventId>,
              answers: nat -> Answer, n: nat, others: nat -> seq<Step>) returns (ok: bool)
    requires w.Ok() && Midway(w.st, t, seen, rows, answers, n) && n < |rows|
    modifies w
    ensures w.Ok() && ok == answers(n).recorded
    ensures Own(Poller(t), w.log) == Own(Poller(t), old(w.log)) + RowSteps(t, answers(n))
    ensures ok ==> Midway(w.st, t, seen, rows, answers, n + 1)
    ensures Outbox.IsOpen(w.st.db, t) && w.st.db.txns[t].rows == rows && AsSeen(w.st, seen, rows)
  {
    Pause(w, t, seen, rows, others(0));
    ok := HandleRow(w, t, seen, rows, answers, n, others(1));
    Pause(w, t, seen, rows, others(2));
  }

  /** BEGIN and the polling SELECT. */
  method Begin(w: World, ghost answers: nat -> Answer)
    returns (t: nat, rows: seq<Outbox.EventId>, ghost seen: Outbox.State)
    requires w.Ok()
    modifies w
    ensures w.Ok() && OutboxRows.OldestDue(w.config.batchSize, seen, rows)
    ensures Midway(w.st, t, seen, rows, answers, 0)
    ensures Own(Poller(t), w.log) == []
  {
    seen := w.st.db;
    rows := SelectDue(w.config.batchSize, w.st.db);
    t := |w.st.db.txns|;
    NothingYet(Poller(t), w.log, w.st);
    OwnSnoc(Poller(t), w.log, Db(Outbox.PollBegin(rows)));
    w.Do(Db(Outbox.PollBegin(rows)));
  }

  /** COMMIT, or ROLLBACK if something threw. */
  method End(w: World, t: nat, ghost seen: Outbox.State, ghost rows: seq<Outbox.EventId>,
             ghost answers: nat -> Answer, commit: bool)
    requires w.Ok() && Outbox.IsOpen(w.st.db, t) && w.st.db.txns[t].rows == rows && AsSeen(w.st, seen, rows)
    requires commit ==> Midway(w.st, t, seen, rows, answers, |rows|)
    modifies w
    ensures w.Ok() && t < |w.st.db.txns| && w.st.db.txns[t].rows == rows
    ensures w.st.db.txns[t].status == if commit then Outbox.Committed else Outbox.RolledBack
    ensures Own(Poller(t), w.log) ==
      Own(Poller(t), old(w.log)) + [Db(if commit then Outbox.Commit(t) else Outbox.Rollback(t))]
    ensures commit ==> forall i | 0 <= i < |rows| ::
      rows[i] in seen.outbox && rows[i] in w.st.db.outbox
      && Leaves(seen.outbox[rows[i]], seen.now, answers(i), w.st.db.outbox[rows[i]])
    ensures !commit ==> AsSeen(w.st, seen, rows)
  {
    var last := Db(if commit then Outbox.Commit(t) else Outbox.Rollback(t));
    OwnSnoc(Poller(t), w.log, last);
    if commit {
      CommitMarks(w.st.db, t, seen, rows, answers);
      w.Reached();
      forall i | 0 <= i < |rows|
        ensures Leaves(seen.outbox[rows[i]], seen.now, answers(i),
          Outbox.Marked(seen.outbox[rows[i]], MarkOf(answers(i)), seen.now))
      {
        MarkLeaves(seen.outbox[rows[i]], seen.now, answers(i));
      }
    }
    w.Do(last);
  }
}
