/**
  Every kind of trouble can lose an event: for each, a run that meets no other kind, after which
  the event is published, nobody is at it any more, and it was not processed.
*/
module PipelineLimits {
  import Shared
  import opened Pipeline
  import opened PipelineSafety
  import Outbox
  import Delivery
  import opened DeliverySafety
  import opened Conservation
  import opened Troubles

  const CONFIG := Config(100, 3)

  ghost predicate Meets(ts: set<Trouble>, s: State) { ReachableMeeting(CONFIG, ts, s) }

  lemma Start(ts: set<Trouble>, s: State)
    requires Init(s)
    ensures Meets(ts, s)
  {
    MeetingInit(CONFIG, ts, s);
  }

  lemma Step(ts: set<Trouble>, s: State, step: Pipeline.Step, s': State)
    requires Meets(ts, s) && Enabled(CONFIG, s, step) && Permitted(ts, s, step) && Apply(CONFIG, s, step) == s'
    ensures Meets(ts, s')
  {
    MeetingStep(CONFIG, ts, s, step, s');
  }

  const UP := Delivery.Worker(true, 1, 1)
  const COPY := Delivery.Copy(0, 0, Shared.None, Delivery.Primary)

  /** The poll transaction that publishes event 0, from its SELECT to its COMMIT. */
  function Poll(confirmed: bool, recorded: bool, status: Outbox.Status): Outbox.Txn {
    Outbox.Txn(0, [0], if recorded then 1 else 0, if confirmed then {0} else {},
               if recorded then map[0 := Outbox.MarkPublished] else map[], status)
  }

  function Db1(published: bool, txns: seq<Outbox.Txn>): Outbox.State {
    Outbox.State(0, {0}, map[0 := Outbox.Row(0, 0, 0, 0, published)], txns)
  }

  /** After the publish of event 0 with `workers`, its copy queued if the queue was bound. */
  function Mq1(bound: bool, workers: seq<Delivery.Worker>): Delivery.State {
    Delivery.State(bound, {0}, if bound then {0} else {}, if bound then [COPY] else [], workers, map[], [])
  }

  /** Any reachable broker state without messages: one order is committed, polled and published. */
  lemma PublishOne(ts: set<Trouble>, m: Delivery.State, bound: bool, workers: seq<Delivery.Worker>)
    requires bound || UnboundPublish in ts
    requires m == Delivery.State(bound, {}, {}, [], workers, map[], [])
    requires Meets(ts, State(Outbox.EMPTY, m))
    ensures Meets(ts, State(Db1(true, [Poll(true, true, Outbox.Committed)]), Mq1(bound, workers)))
  {
    var s1 := State(Db1(false, []), m);
    Step(ts, State(Outbox.EMPTY, m), Db(Outbox.CommitOrder(0, 0, 0)), s1);
    assert Outbox.Selected(100, s1.db, [0]);
    var s2 := State(Db1(false, [Poll(false, false, Outbox.Open)]), m);
    Step(ts, s1, Db(Outbox.PollBegin([0])), s2);
    PublishOpen(ts, s2, bound, workers);
  }

  lemma PublishOpen(ts: set<Trouble>, s2: State, bound: bool, workers: seq<Delivery.Worker>)
    requires bound || UnboundPublish in ts
    requires Meets(ts, s2)
    requires s2 == State(Db1(false, [Poll(false, false, Outbox.Open)]),
      Delivery.State(bound, {}, {}, [], workers, map[], []))
    ensures Meets(ts, State(Db1(true, [Poll(true, true, Outbox.Committed)]), Mq1(bound, workers)))
  {
    var s3 := State(Db1(false, [Poll(true, false, Outbox.Open)]), Mq1(bound, workers));
    assert Outbox.Confirming(s2.db.txns[0], 0) == Poll(true, false, Outbox.Open);
    assert Delivery.Arrived(s2.mq, 0, true) == Mq1(bound, workers);
    Step(ts, s2, Db(Outbox.PublishConfirmed(0)), s3);
    RecordAndCommit(ts, Mq1(bound, workers));
  }

  lemma RecordAndCommit(ts: set<Trouble>, m: Delivery.State)
    requires Meets(ts, State(Db1(false, [Poll(true, false, Outbox.Open)]), m))
    ensures Meets(ts, State(Db1(true, [Poll(true, true, Outbox.Committed)]), m))
  {
    var s3 := State(Db1(false, [Poll(true, false, Outbox.Open)]), m);
    var s4 := State(Db1(false, [Poll(true, true, Outbox.Open)]), m);
    var s5 := State(Db1(true, [Poll(true, true, Outbox.Committed)]), m);
    assert Outbox.WithTxn(s3.db, 0, Poll(true, true, Outbox.Open)) == s4.db;
    Step(ts, s3, Db(Outbox.RecordPublished(0)), s4);
    assert Outbox.AfterCommit(s4.db, 0).outbox == s5.db.outbox;
    Step(ts, s4, Db(Outbox.Commit(0)), s5);
  }

  const PUBLISHED := Db1(true, [Poll(true, true, Outbox.Committed)])

  // ---------------------------------------------------------------- no queue bound

  /** The publisher only asserts the exchange: confirmed before any worker bound the queue, the message is gone. */
  lemma UnboundPublishIsLost() returns (s: State)
    ensures ReachableMeeting(CONFIG, {UnboundPublish}, s) && Lost(s, 0)
    ensures Clean(s.mq, 0) && 0 !in s.mq.routed
  {
    var ts := {UnboundPublish};
    var m := Delivery.State(false, {}, {}, [], [], map[], []);
    Start(ts, State(Outbox.EMPTY, m));
    PublishOne(ts, m, false, []);
    s := State(PUBLISHED, Mq1(false, []));
  }

  // ---------------------------------------------------------------- one delivered message

  /** The message of event 0 (copies), one connected worker, its claim row and its activations. */
  function M(gen: nat, tag: nat, copies: seq<Delivery.Copy>, claims: map<nat, Delivery.Claim>,
             acts: seq<Delivery.Activation>): State {
    State(PUBLISHED,
      Delivery.State(true, {0}, {0}, copies, [Delivery.Worker(true, gen, tag)], claims, acts))
  }

  /** The claim of activation 0. */
  const HELD := map[0 := Delivery.Claim(0, false)]

  function K(retry: nat, sentBy: Shared.Option<nat>, p: Delivery.Place): Delivery.Copy {
    Delivery.Copy(0, retry, sentBy, p)
  }

  function A(gen: nat, tag: nat, copy: nat, p: Delivery.Phase, h: Delivery.Handler,
             strayed: bool): Delivery.Activation {
    Delivery.Activation(0, gen, tag, copy, 0, p, h, strayed)
  }

  const FIRST := [K(0, Shared.None, Delivery.Unacked(0))]
  const STARTED := A(1, 1, 0, Delivery.Claiming, Delivery.Waiting, false)

  lemma DeliveredOnce(ts: set<Trouble>)
    ensures Meets(ts, M(1, 2, FIRST, map[], [STARTED]))
  {
    var m0 := Delivery.State(false, {}, {}, [], [Delivery.Worker(false, 0, 0)], map[], []);
    Start(ts, State(Outbox.EMPTY, m0));
    var m1 := m0.(bound := true);
    Step(ts, State(Outbox.EMPTY, m0), Mq(Delivery.BindQueue), State(Outbox.EMPTY, m1));
    var m2 := m1.(workers := [UP]);
    Step(ts, State(Outbox.EMPTY, m1), Mq(Delivery.Connect(0)), State(Outbox.EMPTY, m2));
    PublishOne(ts, m2, true, [UP]);
    var s := State(PUBLISHED, Mq1(true, [UP]));
    assert s == M(1, 1, [COPY], map[], []);
    Step(ts, s, Mq(Delivery.Deliver(0, 0)), M(1, 2, FIRST, map[], [STARTED]));
  }

  /** The message is delivered and its activation has inserted the claim. */
  lemma ClaimedOnce(ts: set<Trouble>)
    ensures Meets(ts, M(1, 2, FIRST, HELD, [STARTED.(phase := Delivery.Working)]))
  {
    DeliveredOnce(ts);
    Step(ts, M(1, 2, FIRST, map[], [STARTED]), Mq(Delivery.InsertClaim(0)),
      M(1, 2, FIRST, HELD, [STARTED.(phase := Delivery.Working)]));
  }

  // ---------------------------------------------------------------- crash between claim and completion

  /** The worker dies while working: the redelivered message finds the claim and is acknowledged as a duplicate. */
  lemma CrashWhileHolding() returns (s: State)
    ensures ReachableMeeting(CONFIG, {ProcessDeath}, s) && Lost(s, 0)
    ensures StrayedOn(s.mq, 0, 0) && 0 in s.mq.routed && forall k: nat :: !MisackedCopy(s.mq, k, 0)
  {
    var ts := {ProcessDeath};
    ClaimedOnce(ts);
    var s0 := M(1, 2, FIRST, HELD,
                [STARTED.(phase := Delivery.Working)]);
    var dead := A(1, 1, 0, Delivery.Crashed, Delivery.Finished, true);
    var s2 := M(2, 1, [K(0, Shared.None, Delivery.Primary)], HELD, [dead]);
    var s1 := s2.(mq := s2.mq.(workers := [Delivery.Worker(false, 1, 2)]));
    Step(ts, s0, Mq(Delivery.Crash(0)), s1);
    Step(ts, s1, Mq(Delivery.Connect(0)), s2);
    assert [] + [K(0, Shared.None, Delivery.Primary)] == [K(0, Shared.None, Delivery.Primary)];
    s := SettledAsDuplicate(ts, 2, 1, [], 0, Shared.None, [dead]);
  }

  /** A primary copy whose event is claimed by somebody is delivered, found to be a duplicate and acknowledged. */
  lemma SettledAsDuplicate(ts: set<Trouble>, gen: nat, tag: nat, before: seq<Delivery.Copy>, retry: nat,
                           sentBy: Shared.Option<nat>,
                           acts: seq<Delivery.Activation>) returns (s: State)
    requires Meets(ts, M(gen, tag, before + [K(retry, sentBy, Delivery.Primary)], HELD, acts))
    ensures s == M(gen, tag + 1, before + [K(retry, sentBy, Delivery.Settled(Delivery.AsDuplicate))], HELD,
                   acts + [A(gen, tag, |before|, Delivery.Returned(Delivery.Duplicate), Delivery.Finished, false)])
    ensures Meets(ts, s)
  {
    var a := |acts|;
    var s0 := M(gen, tag, before + [K(retry, sentBy, Delivery.Primary)], HELD, acts);
    var s1 := M(gen, tag + 1, before + [K(retry, sentBy, Delivery.Unacked(a))], HELD,
                acts + [A(gen, tag, |before|, Delivery.Claiming, Delivery.Waiting, false)]);
    Step(ts, s0, Mq(Delivery.Deliver(0, |before|)), s1);
    var s2 := M(gen, tag + 1, before + [K(retry, sentBy, Delivery.Unacked(a))], HELD,
                acts + [A(gen, tag, |before|, Delivery.Returned(Delivery.Duplicate),
                  Delivery.Acking(Delivery.Duplicate), false)]);
    Step(ts, s1, Mq(Delivery.InsertClaim(a)), s2);
    s := AckedAsDuplicate(ts, gen, tag, before, retry, sentBy, acts);
  }

  lemma AckedAsDuplicate(ts: set<Trouble>, gen: nat, tag: nat, before: seq<Delivery.Copy>, retry: nat,
                         sentBy: Shared.Option<nat>,
                         acts: seq<Delivery.Activation>) returns (s: State)
    requires Meets(ts, M(gen, tag + 1, before + [K(retry, sentBy, Delivery.Unacked(|acts|))], HELD,
      acts + [A(gen, tag, |before|, Delivery.Returned(Delivery.Duplicate), Delivery.Acking(Delivery.Duplicate),
        false)]))
    ensures s == M(gen, tag + 1, before + [K(retry, sentBy, Delivery.Settled(Delivery.AsDuplicate))], HELD,
                   acts + [A(gen, tag, |before|, Delivery.Returned(Delivery.Duplicate), Delivery.Finished, false)])
    ensures Meets(ts, s)
  {
    var a := |acts|;
    var s2 := M(gen, tag + 1, before + [K(retry, sentBy, Delivery.Unacked(a))], HELD,
                acts + [A(gen, tag, |before|, Delivery.Returned(Delivery.Duplicate),
                  Delivery.Acking(Delivery.Duplicate), false)]);
    s := M(gen, tag + 1, before + [K(retry, sentBy, Delivery.Settled(Delivery.AsDuplicate))], HELD,
           acts + [A(gen, tag, |before|, Delivery.Returned(Delivery.Duplicate), Delivery.Finished, false)]);
    assert Delivery.AckedOwn(s2.mq, a).copies == s.mq.copies;
    assert Delivery.AckedOwn(s2.mq, a).acts == s.mq.acts;
    Step(ts, s2, Mq(Delivery.AckOwn(a)), s);
  }

  // ---------------------------------------------------------------- timeout, then failure

  const GONE := [K(0, Shared.None, Delivery.Settled(Delivery.Replaced))]
  const SECOND_COPY := K(1, Shared.Some(0), Delivery.Settled(Delivery.AsDuplicate))
  const SECOND := A(1, 2, 1, Delivery.Returned(Delivery.Duplicate), Delivery.Finished, false)

  /**
    The processing timeout fires while the original works on. The retry copy finds the claim
    and is acknowledged as a duplicate; then the original fails and deletes its claim.
  */
  lemma TimedOutHolderFails() returns (s: State)
    ensures ReachableMeeting(CONFIG, {Timeout}, s) && Lost(s, 0)
    ensures StrayedOn(s.mq, 0, 0) && 0 in s.mq.routed && forall k: nat :: !MisackedCopy(s.mq, k, 0)
  {
    var ts := {Timeout};
    ClaimedOnce(ts);
    var late := A(1, 1, 0, Delivery.Working, Delivery.Finished, true);
    var s0 := M(1, 2, FIRST, HELD,
                [STARTED.(phase := Delivery.Working)]);
    var s1 := M(1, 2, FIRST, HELD,
                [late.(handler := Delivery.Requeueing)]);
    Step(ts, s0, Mq(Delivery.TimerFires(0)), s1);
    RetriedAndSettled(ts, late);
    s := LateFailure(ts, late);
  }

  lemma LateFailure(ts: set<Trouble>, late: Delivery.Activation) returns (s: State)
    requires late == A(1, 1, 0, Delivery.Working, Delivery.Finished, true)
    requires Meets(ts, M(1, 3, GONE + [SECOND_COPY], HELD, [late, SECOND]))
    ensures Meets(ts, s) && Lost(s, 0)
    ensures StrayedOn(s.mq, 0, 0) && 0 in s.mq.routed && forall k: nat :: !MisackedCopy(s.mq, k, 0)
  {
    var s2 := M(1, 3, GONE + [SECOND_COPY], HELD, [late, SECOND]);
    var s3 := M(1, 3, GONE + [SECOND_COPY], HELD, [late.(phase := Delivery.Deleting), SECOND]);
    Step(ts, s2, Mq(Delivery.WorkEnds(0, false)), s3);
    s := M(1, 3, GONE + [SECOND_COPY], map[], [late.(phase := Delivery.Threw), SECOND]);
    Step(ts, s3, Mq(Delivery.DeleteEnds(0, true)), s);
  }

  /** A handler that gives its message to the retry queue while the claim row stays: the retry ends as a duplicate. */
  lemma RetriedAndSettled(ts: set<Trouble>, x: Delivery.Activation)
    requires x == A(1, 1, 0, x.phase, Delivery.Finished, true)
    requires Meets(ts, M(1, 2, FIRST, HELD,
                                 [x.(handler := Delivery.Requeueing)]))
    ensures Meets(ts, M(1, 3,
      GONE + [SECOND_COPY], HELD, [x, SECOND]))
  {
    var s1 := M(1, 2, FIRST, HELD, [x.(handler := Delivery.Requeueing)]);
    var s2 := M(1, 2, FIRST + [K(1, Shared.Some(0), Delivery.RetryQueue)], HELD,
                [x.(handler := Delivery.Republished(1))]);
    Step(ts, s1, Mq(Delivery.Republish(0)), s2);
    var s3 := M(1, 2, GONE + [K(1, Shared.Some(0), Delivery.RetryQueue)], HELD, [x]);
    Step(ts, s2, Mq(Delivery.AckOwn(0)), s3);
    Step(ts, s3, Mq(Delivery.RetryExpires(1)), M(1, 2, GONE + [K(1, Shared.Some(0), Delivery.Primary)], HELD, [x]));
    var s := SettledAsDuplicate(ts, 1, 2, GONE, 1, Shared.Some(0), [x]);
    assert [x] + [SECOND] == [x, SECOND];
  }

  // ---------------------------------------------------------------- failed DELETE

  lemma WorkFailedOnce(ts: set<Trouble>)
    ensures Meets(ts, M(1, 2, FIRST, HELD, [STARTED.(phase := Delivery.Deleting)]))
  {
    ClaimedOnce(ts);
    Step(ts, M(1, 2, FIRST, HELD, [STARTED.(phase := Delivery.Working)]), Mq(Delivery.WorkEnds(0, false)),
      M(1, 2, FIRST, HELD, [STARTED.(phase := Delivery.Deleting)]));
  }

  /** The work fails and so does the DELETE: the claim row stays, and the retry copy ends as a duplicate. */
  lemma FailedDelete() returns (s: State)
    ensures ReachableMeeting(CONFIG, {DeleteFails}, s) && Lost(s, 0)
    ensures StrayedOn(s.mq, 0, 0) && 0 in s.mq.routed && forall k: nat :: !MisackedCopy(s.mq, k, 0)
  {
    var ts := {DeleteFails};
    WorkFailedOnce(ts);
    var s1 := M(1, 2, FIRST, HELD, [STARTED.(phase := Delivery.Deleting)]);
    var x := A(1, 1, 0, Delivery.Threw, Delivery.Finished, true);
    Step(ts, s1, Mq(Delivery.DeleteEnds(0, false)), M(1, 2, FIRST, HELD, [x.(handler := Delivery.Requeueing)]));
    RetriedAndSettled(ts, x);
    s := M(1, 3, GONE + [SECOND_COPY], HELD, [x, SECOND]);
  }

  // ---------------------------------------------------------------- misreported INSERT

  /** The INSERT takes effect but is reported failed: the claim row stays, and the retry copy ends as a duplicate. */
  lemma MisreportedInsert() returns (s: State)
    ensures ReachableMeeting(CONFIG, {InsertMisreported}, s) && Lost(s, 0)
    ensures StrayedOn(s.mq, 0, 0) && 0 in s.mq.routed && forall k: nat :: !MisackedCopy(s.mq, k, 0)
  {
    var ts := {InsertMisreported};
    DeliveredOnce(ts);
    var x := A(1, 1, 0, Delivery.Threw, Delivery.Finished, true);
    Step(ts, M(1, 2, FIRST, map[], [STARTED]), Mq(Delivery.InsertThrows(0, true)),
         M(1, 2, FIRST, HELD, [x.(handler := Delivery.Requeueing)]));
    RetriedAndSettled(ts, x);
    s := M(1, 3, GONE + [SECOND_COPY], HELD, [x, SECOND]);
  }

  // ---------------------------------------------------------------- lost connections

  const ONCE_DUPLICATE := [K(0, Shared.None, Delivery.Settled(Delivery.AsDuplicate))]
  const REDELIVERED := A(2, 1, 0, Delivery.Returned(Delivery.Duplicate), Delivery.Finished, false)

  /**
    The connection is lost while a holder works on. The redelivered message finds the claim and is
    acknowledged as a duplicate; then the holder fails and deletes its claim, and a second lost
    connection keeps it from sending the message to the retry queue.
  */
  lemma LostConnections() returns (s: State)
    ensures ReachableMeeting(CONFIG, {LostConnection}, s) && Lost(s, 0)
    ensures StrayedOn(s.mq, 0, 0) && 0 in s.mq.routed && forall k: nat :: !MisackedCopy(s.mq, k, 0)
  {
    var ts := {LostConnection};
    ClaimedOnce(ts);
    var busy := A(1, 1, 0, Delivery.Working, Delivery.Waiting, true);
    var up := M(2, 1, [K(0, Shared.None, Delivery.Primary)], HELD, [busy]);
    var down := up.(mq := up.mq.(workers := [Delivery.Worker(false, 1, 2)]));
    Step(ts, M(1, 2, FIRST, HELD, [STARTED.(phase := Delivery.Working)]), Mq(Delivery.Disconnect(0)), down);
    Step(ts, down, Mq(Delivery.Connect(0)), up);
    assert [] + [K(0, Shared.None, Delivery.Primary)] == [K(0, Shared.None, Delivery.Primary)];
    var settled := SettledAsDuplicate(ts, 2, 1, [], 0, Shared.None, [busy]);
    assert settled == M(2, 2, ONCE_DUPLICATE, HELD, [busy, REDELIVERED]);
    s := FailsWithoutChannel(ts, busy);
  }

  lemma FailsWithoutChannel(ts: set<Trouble>, busy: Delivery.Activation) returns (s: State)
    requires LostConnection in ts && busy == A(1, 1, 0, Delivery.Working, Delivery.Waiting, true)
    requires Meets(ts, M(2, 2, ONCE_DUPLICATE, HELD, [busy, REDELIVERED]))
    ensures Meets(ts, s) && Lost(s, 0)
    ensures StrayedOn(s.mq, 0, 0) && 0 in s.mq.routed && forall k: nat :: !MisackedCopy(s.mq, k, 0)
  {
    var s1 := M(2, 2, ONCE_DUPLICATE, HELD, [busy.(phase := Delivery.Deleting), REDELIVERED]);
    Step(ts, M(2, 2, ONCE_DUPLICATE, HELD, [busy, REDELIVERED]), Mq(Delivery.WorkEnds(0, false)), s1);
    var failed := A(1, 1, 0, Delivery.Threw, Delivery.Requeueing, true);
    var s2 := M(2, 2, ONCE_DUPLICATE, map[], [failed, REDELIVERED]);
    Step(ts, s1, Mq(Delivery.DeleteEnds(0, true)), s2);
    s := GivenUp(ts, failed);
  }

  lemma GivenUp(ts: set<Trouble>, failed: Delivery.Activation) returns (s: State)
    requires LostConnection in ts && failed == A(1, 1, 0, Delivery.Threw, Delivery.Requeueing, true)
    requires Meets(ts, M(2, 2, ONCE_DUPLICATE, map[], [failed, REDELIVERED]))
    ensures Meets(ts, s) && Lost(s, 0)
    ensures StrayedOn(s.mq, 0, 0) && 0 in s.mq.routed && forall k: nat :: !MisackedCopy(s.mq, k, 0)
  {
    var s2 := M(2, 2, ONCE_DUPLICATE, map[], [failed, REDELIVERED]);
    var s3 := s2.(mq := s2.mq.(workers := [Delivery.Worker(false, 2, 2)]));
    Step(ts, s2, Mq(Delivery.Disconnect(0)), s3);
    s := s3.(mq := s3.mq.(acts := [failed.(handler := Delivery.Finished), REDELIVERED]));
    Step(ts, s3, Mq(Delivery.GiveUp(0)), s);
  }

  // ---------------------------------------------------------------- ack on a newer channel

  /**
    The connection is replaced while a handler is busy. It acknowledges through the
    module-level `channel`, where its tag now means the redelivery another handler works on;
    when the process then dies, that delivery is not given back.
  */
  lemma MisackedDelivery() returns (s: State)
    ensures ReachableMeeting(CONFIG, {LostConnection, ProcessDeath}, s) && Lost(s, 0)
    ensures 0 in s.mq.routed && MisackedCopy(s.mq, 0, 0) && forall k: nat :: !AckedAs(s.mq, k, 0)
  {
    var ts := {LostConnection, ProcessDeath};
    DeliveredOnce(ts);
    var queued := [K(0, Shared.None, Delivery.Primary)];
    var s1 := M(2, 1, queued, map[], [STARTED]);
    var down := s1.(mq := s1.mq.(workers := [Delivery.Worker(false, 1, 2)]));
    Step(ts, M(1, 2, FIRST, map[], [STARTED]), Mq(Delivery.Disconnect(0)), down);
    Step(ts, down, Mq(Delivery.Connect(0)), s1);
    var redelivered := A(2, 1, 0, Delivery.Claiming, Delivery.Waiting, false);
    var s2 := M(2, 2, [K(0, Shared.None, Delivery.Unacked(1))], map[], [STARTED, redelivered]);
    Step(ts, s1, Mq(Delivery.Deliver(0, 0)), s2);
    s := WrongTag(ts, s2);
  }

  lemma WrongTag(ts: set<Trouble>, s2: State) returns (s: State)
    requires ProcessDeath in ts
    requires Meets(ts, s2)
    requires s2 == M(2, 2, [K(0, Shared.None, Delivery.Unacked(1))], map[],
                     [STARTED, A(2, 1, 0, Delivery.Claiming, Delivery.Waiting, false)])
    ensures Meets(ts, s) && Lost(s, 0)
    ensures 0 in s.mq.routed && MisackedCopy(s.mq, 0, 0) && forall k: nat :: !AckedAs(s.mq, k, 0)
  {
    var claims := map[0 := Delivery.Claim(1, false)];
    var copies := [K(0, Shared.None, Delivery.Unacked(1))];
    var busy := A(2, 1, 0, Delivery.Working, Delivery.Waiting, false);
    var s3 := M(2, 2, copies, claims, [STARTED, busy]);
    Step(ts, s2, Mq(Delivery.InsertClaim(1)), s3);
    var early := STARTED.(phase := Delivery.Returned(Delivery.Duplicate));
    var s4 := M(2, 2, copies, claims, [early.(handler := Delivery.Acking(Delivery.Duplicate)), busy]);
    Step(ts, s3, Mq(Delivery.InsertClaim(0)), s4);
    s := WrongAck(ts, s4);
  }

  lemma WrongAck(ts: set<Trouble>, s4: State) returns (s: State)
    requires ProcessDeath in ts
    requires Meets(ts, s4)
    requires s4 == M(2, 2, [K(0, Shared.None, Delivery.Unacked(1))], map[0 := Delivery.Claim(1, false)],
      [A(1, 1, 0, Delivery.Returned(Delivery.Duplicate), Delivery.Acking(Delivery.Duplicate), false),
       A(2, 1, 0, Delivery.Working, Delivery.Waiting, false)])
    ensures Meets(ts, s) && Lost(s, 0)
    ensures 0 in s.mq.routed && MisackedCopy(s.mq, 0, 0) && forall k: nat :: !AckedAs(s.mq, k, 0)
  {
    var claims := map[0 := Delivery.Claim(1, false)];
    var misacked := [K(0, Shared.None, Delivery.Settled(Delivery.Misacked))];
    var early := A(1, 1, 0, Delivery.Returned(Delivery.Duplicate), Delivery.Finished, false);
    var s5 := M(2, 2, misacked, claims, [early, A(2, 1, 0, Delivery.Working, Delivery.Waiting, true)]);
    Step(ts, s4, Mq(Delivery.AckOther(0, 1)), s5);
    s := CrashAfterWrongAck(ts, s5);
  }

  lemma CrashAfterWrongAck(ts: set<Trouble>, s5: State) returns (s: State)
    requires ProcessDeath in ts
    requires Meets(ts, s5)
    requires s5 == M(2, 2, [K(0, Shared.None, Delivery.Settled(Delivery.Misacked))], map[0 := Delivery.Claim(1, false)],
      [A(1, 1, 0, Delivery.Returned(Delivery.Duplicate), Delivery.Finished, false),
       A(2, 1, 0, Delivery.Working, Delivery.Waiting, true)])
    ensures Meets(ts, s) && Lost(s, 0)
    ensures 0 in s.mq.routed && MisackedCopy(s.mq, 0, 0) && forall k: nat :: !AckedAs(s.mq, k, 0)
  {
    var claims := map[0 := Delivery.Claim(1, false)];
    var misacked := [K(0, Shared.None, Delivery.Settled(Delivery.Misacked))];
    var early := A(1, 1, 0, Delivery.Returned(Delivery.Duplicate), Delivery.Finished, false);
    var s6 := M(2, 2, misacked, claims, [early, A(2, 1, 0, Delivery.Crashed, Delivery.Finished, true)]);
    s := s6.(mq := s6.mq.(workers := [Delivery.Worker(false, 2, 2)]));
    Step(ts, s5, Mq(Delivery.Crash(0)), s);
  }

  // ---------------------------------------------------------------- every kind of trouble counts

  lemma EachTroubleLoses(x: Trouble) returns (s: State)
    ensures ReachableMeeting(CONFIG, {x}, s) && Lost(s, 0)
  {
    match x
    case UnboundPublish => s := UnboundPublishIsLost();
    case ProcessDeath => s := CrashWhileHolding();
    case LostConnection => s := LostConnections();
    case Timeout => s := TimedOutHolderFails();
    case DeleteFails => s := FailedDelete();
    case InsertMisreported => s := MisreportedInsert();
  }

  /** Some run loses an event to troubles of the kinds `ts`. */
  ghost predicate CanLose(ts: set<Trouble>) {
    exists s, e :: ReachableMeeting(CONFIG, ts, s) && Lost(s, e)
  }

  /** Any kind of trouble on its own can lose an event for good, and nothing else can. */
  lemma LosesExactlyIfTroubled(ts: set<Trouble>)
    ensures CanLose(ts) <==> ts != {}
  {
    if ts == {} {
      forall s, e | ReachableMeeting(CONFIG, ts, s) ensures !Lost(s, e) {
        if Lost(s, e) {
          LostUnprocessed(s, e);
          NothingLost(CONFIG, s, e);
        }
      }
    } else {
      var x :| x in ts;
      var s := EachTroubleLoses(x);
      MeetingMore(CONFIG, {x}, ts, s);
      assert ReachableMeeting(CONFIG, ts, s) && Lost(s, 0);
    }
  }
}
