/**
  How long a row that keeps failing waits between its polls.
*/
module Backoff {
  import opened Shared
  import Runs
  import opened Outbox
  import Pipeline

  lemma {:induction false} Pow2Grows(a: nat, b: nat)
    requires a <= b
    ensures 1 <= Pow2(a) <= Pow2(b)
    decreases b
  {
    if a < b { Pow2Grows(a, b - 1); } else if a > 0 { Pow2Grows(a - 1, b - 1); }
  }

  lemma BackoffBounds(a: nat, b: nat)
    requires a <= b
    ensures 1 <= BackoffSeconds(a) <= BackoffSeconds(b) <= 60
  {
    Pow2Grows(Min(a, 6), Min(b, 6));
  }

  /** The waits after failures `attempts + 1` to `attempts + k`. */
  function TotalWait(attempts: nat, k: nat): nat {
    if k == 0 then 0 else TotalWait(attempts, k - 1) + BackoffSeconds(attempts + k)
  }

  /**
    A row that never succeeded waits 2^(k+1) - 2 seconds over its first k failures, and a minute more
    for each beyond the fifth.
  */
  lemma {:induction false} TotalWaitClosed(k: nat)
    ensures TotalWait(0, k) == if k <= 5 then Pow2(k + 1) - 2 else 62 + 60 * (k - 5)
  {
    if k > 0 {
      TotalWaitClosed(k - 1);
      assert Pow2(5) == 32 && Pow2(6) == 64;
      if k <= 5 { Pow2Grows(k, 5); }
      if k == 1 { assert Pow2(1) == 2; }
      if 0 < k <= 5 { Pow2Grows(1, k); }
    }
  }

  // ---------------------------------------------------------------- the failures of a run

  /** The poll committed that it backed `e` off. */
  ghost predicate BackedOff(x: Txn, e: EventId) { x.status.Committed? && e in x.marks && x.marks[e].MarkBackedOff? }

  /** When the polls began that backed `e` off, in order. */
  ghost function Failures(txns: seq<Txn>, e: EventId): seq<nat> {
    if txns == [] then []
    else
      var x := txns[|txns| - 1];
      Failures(txns[..|txns| - 1], e) + if BackedOff(x, e) then [x.startedAt] else []
  }

  /** Each failure came no earlier than the backoff after the one before. */
  ghost predicate Waited(starts: seq<nat>) {
    forall i | 0 < i < |starts| :: WaitedAt(starts, i)
  }

  ghost predicate WaitedAt(starts: seq<nat>, i: nat)
    requires 0 < i < |starts|
  {
    starts[i] >= starts[i - 1] + BackoffSeconds(i)
  }

  ghost predicate RowHistory(s: State, e: EventId)
    requires e in s.outbox
  {
    var starts := Failures(s.txns, e);
    && s.outbox[e].attempts == |starts| && Waited(starts)
    && (starts != [] ==> s.outbox[e].nextAttemptAt == starts[|starts| - 1] + BackoffSeconds(|starts|))
  }

  /** An open poll took its rows when they were due, and no later poll has them. */
  ghost predicate Newest(s: State, t: nat, e: EventId) {
    IsOpen(s, t) && e in s.txns[t].rows ==>
      && e in s.outbox && s.outbox[e].nextAttemptAt <= s.txns[t].startedAt
      && forall u: nat | t < u < |s.txns| :: e !in s.txns[u].rows
  }

  ghost predicate Histories(s: State) {
    && (forall e | e in s.outbox :: RowHistory(s, e))
    && (forall t: nat, e :: Newest(s, t, e))
    && (forall e | e !in s.outbox :: Failures(s.txns, e) == [])
  }

  lemma {:induction false} FailuresSame(txns: seq<Txn>, txns': seq<Txn>, e: EventId)
    requires |txns| == |txns'|
    requires forall t | 0 <= t < |txns| ::
      BackedOff(txns'[t], e) == BackedOff(txns[t], e) && txns'[t].startedAt == txns[t].startedAt
    ensures Failures(txns', e) == Failures(txns, e)
    decreases |txns|
  {
    if txns != [] { FailuresSame(txns[..|txns| - 1], txns'[..|txns| - 1], e); }
  }

  /** One poll more, the last that has the row, backs it off. */
  lemma {:induction false} OneFailureMore(txns: seq<Txn>, t: nat, x: Txn, e: EventId)
    requires t < |txns| && !BackedOff(txns[t], e) && BackedOff(x, e)
    requires forall u | t < u < |txns| :: !BackedOff(txns[u], e)
    ensures Failures(txns[t := x], e) == Failures(txns, e) + [x.startedAt]
    decreases |txns|
  {
    var last := |txns| - 1;
    if t == last {
      assert txns[t := x][..last] == txns[..last];
    } else {
      OneFailureMore(txns[..last], t, x, e);
      assert txns[t := x][..last] == txns[..last][t := x];
    }
  }

  lemma FailuresAppend(txns: seq<Txn>, x: Txn, e: EventId)
    requires !BackedOff(x, e)
    ensures Failures(txns + [x], e) == Failures(txns, e)
  {
    assert (txns + [x])[..|txns|] == txns;
  }

  /** Steps other than COMMIT fail nothing. */
  lemma FailuresStay(batchSize: nat, s: State, step: Step, e: EventId)
    requires Enabled(batchSize, s, step) && !step.Commit?
    ensures Failures(Apply(batchSize, s, step).txns, e) == Failures(s.txns, e)
  {
    var s' := Apply(batchSize, s, step);
    if step.PollBegin? {
      FailuresAppend(s.txns, s'.txns[|s.txns|], e);
    } else {
      FailuresSame(s.txns, s'.txns, e);
    }
  }

  lemma WaitedMore(starts: seq<nat>, next: nat)
    requires Waited(starts) && (starts != [] ==> next >= starts[|starts| - 1] + BackoffSeconds(|starts|))
    ensures Waited(starts + [next])
  {
    forall i | 0 < i < |starts + [next]| ensures WaitedAt(starts + [next], i) {
      if i < |starts| { assert WaitedAt(starts, i); }
    }
  }

  lemma CommitHistory(s: State, t: nat, e: EventId)
    requires Histories(s) && Shapes(s) && Exclusive(s) && IsOpen(s, t) && s.txns[t].cursor == |s.txns[t].rows|
      && e in s.outbox
    ensures RowHistory(AfterCommit(s, t), e)
  {
    var x := s.txns[t];
    assert RowHistory(s, e) && Shape(x) && Newest(s, t, e);
    if e in x.marks && x.marks[e].MarkBackedOff? {
      assert e in x.rows;
      forall u | t < u < |s.txns| ensures !BackedOff(s.txns[u], e) { assert Shape(s.txns[u]); }
      OneFailureMore(s.txns, t, x.(status := Committed), e);
      WaitedMore(Failures(s.txns, e), x.startedAt);
    } else {
      FailuresSame(s.txns, AfterCommit(s, t).txns, e);
    }
  }

  lemma NewestStep(batchSize: nat, s: State, step: Step, t: nat, e: EventId)
    requires Histories(s) && Outbox.Inv(s) && Enabled(batchSize, s, step)
    ensures Newest(Apply(batchSize, s, step), t, e)
  {
    var s' := Apply(batchSize, s, step);
    assert Newest(s, t, e);
    if IsOpen(s', t) && e in s'.txns[t].rows {
      if step.PollBegin? {
        if t < |s.txns| {
          assert Locked(s, e);
          assert forall i | 0 <= i < |step.rows| :: Available(s, step.rows[i]);
        } else {
          var i :| 0 <= i < |step.rows| && step.rows[i] == e;
          assert Available(s, step.rows[i]);
        }
      } else if step.Commit? && step.txn != t {
        assert Shape(s.txns[step.txn]);
        assert e !in s.txns[step.txn].rows;
      }
    }
  }

  lemma HistoriesStep(batchSize: nat, s: State, step: Step)
    requires Histories(s) && Outbox.Inv(s) && Enabled(batchSize, s, step)
    ensures Histories(Apply(batchSize, s, step))
  {
    var s' := Apply(batchSize, s, step);
    forall t: nat, e ensures Newest(s', t, e) { NewestStep(batchSize, s, step, t, e); }
    forall e | e in s'.outbox ensures RowHistory(s', e) {
      if step.Commit? {
        CommitHistory(s, step.txn, e);
      } else {
        FailuresStay(batchSize, s, step, e);
        assert e in s.outbox ==> RowHistory(s, e);
      }
    }
    forall e | e !in s'.outbox ensures Failures(s'.txns, e) == [] { NoHistory(batchSize, s, step, e); }
  }

  lemma NoHistory(batchSize: nat, s: State, step: Step, e: EventId)
    requires Histories(s) && Outbox.Inv(s) && Enabled(batchSize, s, step) && e !in Apply(batchSize, s, step).outbox
    ensures Failures(Apply(batchSize, s, step).txns, e) == []
  {
    if step.Commit? {
      assert Shape(s.txns[step.txn]);
      FailuresSame(s.txns, Apply(batchSize, s, step).txns, e);
    } else {
      FailuresStay(batchSize, s, step, e);
    }
  }

  lemma {:induction false} WaitsAddUp(starts: seq<nat>, i: nat, j: nat)
    requires Waited(starts) && i <= j < |starts|
    ensures starts[j] >= starts[i] + TotalWait(i, j - i)
    decreases j - i
  {
    if i < j {
      WaitsAddUp(starts, i, j - 1);
      assert WaitedAt(starts, j);
    }
  }

  /**
    In any run, the polls that backed a row off are as many as its attempts count, and between
    the i-th and the j-th of them lie all the backoffs from one to the other.
  */
  lemma FailuresSpreadOut(batchSize: nat, s: State, e: EventId, i: nat, j: nat)
    requires Reachable(batchSize, s) && e in s.outbox && i <= j < |Failures(s.txns, e)|
    ensures s.outbox[e].attempts == |Failures(s.txns, e)|
    ensures Failures(s.txns, e)[j] >= Failures(s.txns, e)[i] + TotalWait(i, j - i)
  {
    forall x, step | Outbox.Inv(x) && Histories(x) && Enabled(batchSize, x, step)
      ensures Outbox.Inv(Apply(batchSize, x, step)) && Histories(Apply(batchSize, x, step))
    {
      Outbox.InvStep(batchSize, x, step);
      HistoriesStep(batchSize, x, step);
    }
    Runs.Invariant(Machine(batchSize), x => Outbox.Inv(x) && Histories(x), s);
    assert RowHistory(s, e);
    WaitsAddUp(Failures(s.txns, e), i, j);
  }

  /** The database of a reachable pipeline state is one of a run of its own. */
  lemma DbReachable(c: Pipeline.Config, s: Pipeline.State)
    requires Pipeline.Reachable(c, s)
    ensures Reachable(c.batchSize, s.db)
  {
    forall x: Pipeline.State | Pipeline.Init(x)
      ensures Reachable(c.batchSize, x.db)
    {
      Runs.Start(Machine(c.batchSize), EMPTY);
    }
    forall x: Pipeline.State, step | Reachable(c.batchSize, x.db) && Pipeline.Enabled(c, x, step)
      ensures Reachable(c.batchSize, Pipeline.Apply(c, x, step).db)
    {
      if step.Db? { Runs.Go(Machine(c.batchSize), x.db, step.db, Apply(c.batchSize, x.db, step.db)); }
    }
    Runs.Invariant(Pipeline.Machine(c), (x: Pipeline.State) => Reachable(c.batchSize, x.db), s);
  }
}
