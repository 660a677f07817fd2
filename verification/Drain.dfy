/**
  How a publisher works off a backlog.
*/
module Drain {
  import opened Shared
  import Runs
  import opened Outbox

  // ---------------------------------------------------------------- one successful poll

  /** A poll with `k` of its rows confirmed and recorded. */
  ghost function Partway(s: State, rows: seq<EventId>, k: nat): State
    requires k <= |rows|
  {
    s.(txns := s.txns + [Txn(s.now, rows, k, Elements(rows[..k]), map e | e in Elements(rows[..k]) :: MarkPublished,
      Open)])
  }

  function Elements(rows: seq<EventId>): set<EventId> { set e | e in rows }

  /** The poll committed, all of its rows published. */
  ghost function Polled(s: State, rows: seq<EventId>): State {
    s.(txns := s.txns + [Txn(s.now, rows, |rows|, Elements(rows), map e | e in Elements(rows) :: MarkPublished,
      Committed)],
       outbox := map e | e in s.outbox :: if e in rows then s.outbox[e].(published := true) else s.outbox[e])
  }

  /** The row under the cursor is confirmed, and not yet recorded. */
  ghost function AtConfirm(s: State, rows: seq<EventId>, k: nat): State
    requires k < |rows|
  {
    s.(txns := s.txns + [Txn(s.now, rows, k, Elements(rows[..k + 1]),
      map e | e in Elements(rows[..k]) :: MarkPublished, Open)])
  }

  lemma OneElementMore(rows: seq<EventId>, k: nat)
    requires k < |rows|
    ensures Elements(rows[..k + 1]) == Elements(rows[..k]) + {rows[k]}
  {
    assert rows[..k + 1] == rows[..k] + [rows[k]];
  }

  lemma RowConfirmed(batchSize: nat, s: State, rows: seq<EventId>, k: nat)
    requires k < |rows| && Distinct(rows)
    ensures Enabled(batchSize, Partway(s, rows, k), PublishConfirmed(|s.txns|))
    ensures Apply(batchSize, Partway(s, rows, k), PublishConfirmed(|s.txns|)) == AtConfirm(s, rows, k)
  {
    OneElementMore(rows, k);
    var x := Partway(s, rows, k).txns[|s.txns|];
    assert Confirming(x, rows[k]) == AtConfirm(s, rows, k).txns[|s.txns|];
  }

  lemma RowRecorded(batchSize: nat, s: State, rows: seq<EventId>, k: nat)
    requires k < |rows|
    ensures Enabled(batchSize, AtConfirm(s, rows, k), RecordPublished(|s.txns|))
    ensures Apply(batchSize, AtConfirm(s, rows, k), RecordPublished(|s.txns|)) == Partway(s, rows, k + 1)
  {
    OneElementMore(rows, k);
    var x := AtConfirm(s, rows, k).txns[|s.txns|];
    assert Marking(x, rows[k], MarkPublished) == Partway(s, rows, k + 1).txns[|s.txns|];
  }

  ghost predicate Leads(batchSize: nat, s: State, steps: seq<Step>, end: State) {
    Runs.Leads(Machine(batchSize), s, steps, end)
  }

  /** Publish, confirm, record, for `n` rows. */
  function RowsSteps(t: nat, n: nat): seq<Step> {
    if n == 0 then [] else RowsSteps(t, n - 1) + [PublishConfirmed(t), RecordPublished(t)]
  }

  /** The steps of a poll whose publishes all succeed. */
  function PollSteps(t: nat, rows: seq<EventId>): seq<Step> {
    [PollBegin(rows)] + RowsSteps(t, |rows|) + [Commit(t)]
  }

  lemma LeadsOne(batchSize: nat, s: State, step: Step, end: State)
    requires Enabled(batchSize, s, step) && Apply(batchSize, s, step) == end
    ensures Leads(batchSize, s, [step], end)
  {
    Runs.LeadsOne(Machine(batchSize), s, step, end);
  }

  lemma LeadsOn(batchSize: nat, s: State, xs: seq<Step>, middle: State, ys: seq<Step>, end: State)
    requires Leads(batchSize, s, xs, middle) && Leads(batchSize, middle, ys, end)
    ensures Leads(batchSize, s, xs + ys, end)
  {
    Runs.LeadsOn(Machine(batchSize), s, xs, middle, ys, end);
  }

  lemma {:induction false} RowsGoThrough(batchSize: nat, s: State, rows: seq<EventId>, k: nat)
    requires k <= |rows| && Distinct(rows)
    ensures Leads(batchSize, Partway(s, rows, 0), RowsSteps(|s.txns|, k), Partway(s, rows, k))
    decreases k
  {
    if k > 0 {
      var t := |s.txns|;
      RowsGoThrough(batchSize, s, rows, k - 1);
      RowGoesThrough(batchSize, s, rows, k - 1);
      LeadsOn(batchSize, Partway(s, rows, 0), RowsSteps(t, k - 1), Partway(s, rows, k - 1),
        [PublishConfirmed(t), RecordPublished(t)], Partway(s, rows, k));
    }
  }

  lemma RowGoesThrough(batchSize: nat, s: State, rows: seq<EventId>, k: nat)
    requires k < |rows| && Distinct(rows)
    ensures var t := |s.txns|;
      Leads(batchSize, Partway(s, rows, k), [PublishConfirmed(t), RecordPublished(t)], Partway(s, rows, k + 1))
  {
    var t := |s.txns|;
    RowConfirmed(batchSize, s, rows, k);
    RowRecorded(batchSize, s, rows, k);
    var p, q := Partway(s, rows, k), AtConfirm(s, rows, k);
    LeadsOne(batchSize, p, PublishConfirmed(t), q);
    LeadsOne(batchSize, q, RecordPublished(t), Partway(s, rows, k + 1));
    LeadsOn(batchSize, p, [PublishConfirmed(t)], q, [RecordPublished(t)], Partway(s, rows, k + 1));
    assert [PublishConfirmed(t)] + [RecordPublished(t)] == [PublishConfirmed(t), RecordPublished(t)];
  }

  lemma BeginAndCommit(batchSize: nat, s: State, rows: seq<EventId>)
    requires Selected(batchSize, s, rows)
    ensures Leads(batchSize, s, [PollBegin(rows)], Partway(s, rows, 0))
    ensures Leads(batchSize, Partway(s, rows, |rows|), [Commit(|s.txns|)], Polled(s, rows))
  {
    var t := |s.txns|;
    assert rows[..|rows|] == rows && rows[..0] == [];
    var x := Partway(s, rows, 0).txns[t];
    assert x == Txn(s.now, rows, 0, {}, map[], Open);
    LeadsOne(batchSize, s, PollBegin(rows), Partway(s, rows, 0));
    var p := Partway(s, rows, |rows|);
    assert Committing(p.outbox, p.txns[t]) == Polled(s, rows).outbox;
    LeadsOne(batchSize, p, Commit(t), Polled(s, rows));
  }

  /** The steps of a poll whose publishes all succeed lead to all of its rows published and nothing else changed. */
  lemma PollGoesThrough(batchSize: nat, s: State, rows: seq<EventId>)
    requires Selected(batchSize, s, rows)
    ensures Leads(batchSize, s, PollSteps(|s.txns|, rows), Polled(s, rows))
  {
    var t := |s.txns|;
    BeginAndCommit(batchSize, s, rows);
    RowsGoThrough(batchSize, s, rows, |rows|);
    LeadsOn(batchSize, s, [PollBegin(rows)], Partway(s, rows, 0), RowsSteps(t, |rows|), Partway(s, rows, |rows|));
    LeadsOn(batchSize, s, [PollBegin(rows)] + RowsSteps(t, |rows|), Partway(s, rows, |rows|), [Commit(t)],
      Polled(s, rows));
  }

  /** And nowhere else. */
  lemma PollEnds(batchSize: nat, s: State, rows: seq<EventId>, end: State)
    requires Leads(batchSize, s, PollSteps(|s.txns|, rows), end)
    ensures Selected(batchSize, s, rows) && end == Polled(s, rows)
  {
    assert PollSteps(|s.txns|, rows)[0] == PollBegin(rows);
    assert Enabled(batchSize, s, PollBegin(rows));
    PollGoesThrough(batchSize, s, rows);
    Runs.LeadsUnique(Machine(batchSize), s, PollSteps(|s.txns|, rows), end, Polled(s, rows));
  }

  // ---------------------------------------------------------------- a backlog

  /** Nobody else polls, and every unpublished row is due. */
  ghost predicate Ready(s: State) {
    && (forall t | 0 <= t < |s.txns| :: !s.txns[t].status.Open?)
    && forall e | e in s.outbox && !s.outbox[e].published :: s.outbox[e].nextAttemptAt <= s.now
  }

  ghost function Backlog(s: State): set<EventId> { set e | e in s.outbox && !s.outbox[e].published }

  lemma {:induction false} DistinctSize(rows: seq<EventId>)
    requires Distinct(rows)
    ensures |Elements(rows)| == |rows|
  {
    if rows != [] {
      var last := |rows| - 1;
      DistinctSize(rows[..last]);
      assert rows == rows[..last] + [rows[last]];
      assert Elements(rows) == Elements(rows[..last]) + {rows[last]};
    }
  }

  lemma {:induction false} SubsetSize(a: set<EventId>, b: set<EventId>)
    requires a <= b
    ensures |b - a| == |b| - |a|
  {
    assert b == a + (b - a);
  }

  /** A poll takes a full batch, or everything there is. */
  lemma PollTakes(batchSize: nat, s: State, rows: seq<EventId>)
    requires Ready(s) && Selected(batchSize, s, rows)
    ensures Elements(rows) <= Backlog(s) && |rows| == Min(batchSize, |Backlog(s)|)
    ensures Backlog(Polled(s, rows)) == Backlog(s) - Elements(rows) && Ready(Polled(s, rows))
    ensures forall e, f | e in rows && f in Backlog(s) - Elements(rows) :: NoLater(s, e, f)
  {
    forall e | e in Backlog(s) ensures Available(s, e) { }
    forall e | e in Elements(rows) ensures e in Backlog(s) {
      var i :| 0 <= i < |rows| && rows[i] == e;
      assert Available(s, rows[i]);
    }
    DistinctSize(rows);
    SubsetSize(Elements(rows), Backlog(s));
    if |rows| < batchSize {
      forall e | e in Backlog(s) ensures e in Elements(rows) { assert Available(s, e); }
      assert Backlog(s) == Elements(rows);
    }
    forall e, f | e in rows && f in Backlog(s) - Elements(rows) ensures NoLater(s, e, f) {
      assert Available(s, f) && f !in rows;
      var i :| 0 <= i < |rows| && rows[i] == e;
    }
  }

  /** Successful polls, one after another, each of its rows in `polls`, lead from `s` to `end`. */
  ghost predicate Drains(batchSize: nat, s: State, polls: seq<seq<EventId>>, end: State)
    decreases |polls|
  {
    if polls == [] then s == end
    else exists middle ::
      Leads(batchSize, s, PollSteps(|s.txns|, polls[0]), middle) && Drains(batchSize, middle, polls[1..], end)
  }

  lemma FirstPoll(batchSize: nat, s: State, polls: seq<seq<EventId>>, end: State)
    requires polls != [] && Drains(batchSize, s, polls, end)
    ensures Selected(batchSize, s, polls[0]) && Drains(batchSize, Polled(s, polls[0]), polls[1..], end)
  {
    var middle :| Leads(batchSize, s, PollSteps(|s.txns|, polls[0]), middle)
      && Drains(batchSize, middle, polls[1..], end);
    PollEnds(batchSize, s, polls[0], middle);
  }

  /** The rows in the order they were published. */
  function Published(polls: seq<seq<EventId>>): seq<EventId> {
    if polls == [] then [] else polls[0] + Published(polls[1..])
  }

  lemma {:induction false} BacklogShrinks(batchSize: nat, s: State, polls: seq<seq<EventId>>, end: State)
    requires Ready(s) && Drains(batchSize, s, polls, end)
    ensures |Backlog(end)| == Max(0, |Backlog(s)| - |polls| * batchSize)
    decreases |polls|
  {
    if polls != [] {
      FirstPoll(batchSize, s, polls, end);
      PollTakes(batchSize, s, polls[0]);
      DistinctSize(polls[0]);
      SubsetSize(Elements(polls[0]), Backlog(s));
      BacklogShrinks(batchSize, Polled(s, polls[0]), polls[1..], end);
      OneBatchLess(|Backlog(s)|, batchSize, |polls|);
    }
  }

  lemma OneBatchLess(n: nat, batchSize: nat, k: nat)
    requires k > 0
    ensures Max(0, n - Min(batchSize, n) - (k - 1) * batchSize) == Max(0, n - k * batchSize)
  {
    assert k * batchSize == (k - 1) * batchSize + batchSize;
    MulMonotone(0, k - 1, batchSize);
  }

  /** A backlog of `n` rows is gone after exactly as many polls as there are batches in it. */
  lemma DrainsInBatches(batchSize: nat, s: State, polls: seq<seq<EventId>>, end: State)
    requires Ready(s) && Drains(batchSize, s, polls, end) && batchSize > 0
    ensures Backlog(end) == {} <==> |polls| >= (|Backlog(s)| + batchSize - 1) / batchSize
  {
    BacklogShrinks(batchSize, s, polls, end);
    Batches(|Backlog(s)|, batchSize, |polls|);
    assert |Backlog(end)| == 0 <==> Backlog(end) == {};
  }

  lemma Batches(n: nat, d: nat, k: nat)
    requires d > 0
    ensures n <= k * d <==> (n + d - 1) / d <= k
  {
    var q := (n + d - 1) / d;
    assert q * d <= n + d - 1 < q * d + d;
    if k <= q - 1 { MulMonotone(k, q - 1, d); }
    if q <= k { MulMonotone(q, k, d); }
  }

  /** `e` may be published before `f`, as the rows are in `s`. */
  ghost predicate InOrder(s: State, published: seq<EventId>) {
    forall i, j | 0 <= i < j < |published| :: published[i] != published[j] && NoLater(s, published[i], published[j])
  }

  lemma PollInOrder(batchSize: nat, s: State, rows: seq<EventId>)
    requires Selected(batchSize, s, rows)
    ensures InOrder(s, rows)
    ensures forall e, f | NoLater(Polled(s, rows), e, f) :: NoLater(s, e, f)
  {
  }

  /** The first poll and what the others publish. */
  lemma FirstAndRest(s: State, s': State, first: seq<EventId>, rest: seq<EventId>, end: set<EventId>)
    requires InOrder(s, first) && InOrder(s', rest)
    requires forall e, f | NoLater(s', e, f) :: NoLater(s, e, f)
    requires Elements(first) <= Backlog(s) && Backlog(s') == Backlog(s) - Elements(first)
    requires Elements(rest) == Backlog(s') - end && end <= Backlog(s')
    requires forall e, f | e in first && f in Backlog(s) - Elements(first) :: NoLater(s, e, f)
    ensures InOrder(s, first + rest) && Elements(first + rest) == Backlog(s) - end
  {
    assert Elements(first + rest) == Elements(first) + Elements(rest);
    forall e, f | e in first && f in rest ensures e != f && NoLater(s, e, f) {
      assert f in Elements(rest) && e in Elements(first);
    }
  }

  lemma {:induction false} DrainOrder(batchSize: nat, s: State, polls: seq<seq<EventId>>, end: State)
    requires Ready(s) && Drains(batchSize, s, polls, end)
    ensures InOrder(s, Published(polls))
    ensures Elements(Published(polls)) == Backlog(s) - Backlog(end) && Backlog(end) <= Backlog(s)
    decreases |polls|
  {
    if polls == [] {
      assert Elements([]) == {};
    } else {
      var s' := Polled(s, polls[0]);
      FirstPoll(batchSize, s, polls, end);
      PollTakes(batchSize, s, polls[0]);
      PollInOrder(batchSize, s, polls[0]);
      DrainOrder(batchSize, s', polls[1..], end);
      FirstAndRest(s, s', polls[0], Published(polls[1..]), Backlog(end));
    }
  }

  /** The rows come out once each and oldest first, across all polls; with the backlog gone, all of them have. */
  lemma DrainsInOrder(batchSize: nat, s: State, polls: seq<seq<EventId>>, end: State)
    requires Ready(s) && Drains(batchSize, s, polls, end)
    ensures var p := Published(polls); forall i, j | 0 <= i < j < |p| :: Before(s, p[i], p[j])
    ensures Elements(Published(polls)) == Backlog(s) - Backlog(end) && Backlog(end) <= Backlog(s)
  {
    DrainOrder(batchSize, s, polls, end);
    OldestFirst(s, Published(polls));
  }

  /** `e` is another row than `f`, and occurred no later. */
  ghost predicate Before(s: State, e: EventId, f: EventId) {
    e != f && e in s.outbox && f in s.outbox && s.outbox[e].occurredAt <= s.outbox[f].occurredAt
  }

  lemma OldestFirst(s: State, p: seq<EventId>)
    requires InOrder(s, p)
    ensures forall i, j | 0 <= i < j < |p| :: Before(s, p[i], p[j])
  {
    forall i, j | 0 <= i < j < |p| ensures Before(s, p[i], p[j]) {
      assert p[i] != p[j] && NoLater(s, p[i], p[j]);
    }
  }
}
