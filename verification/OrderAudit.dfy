/**
  Orders, their status machine and their audit trail, under any number of interleaved PATCH
  transactions that lock the row they change.
*/
module OrderAudit {
  import opened Shared
  import Runs

  // ---------------------------------------------------------------- orders and transactions

  datatype Order = Order(user: nat, status: Status)

  /** One row of `order_events`; `from` is NULL for the creation; `at` is the start of its transaction. */
  datatype Event = Event(from: Option<Status>, to: Status, actor: nat, at: nat)

  datatype Phase = Begun | Locked(found: Option<Order>) | Wrote(before: Order) | Committed(changed: bool) | RolledBack

  /** One PATCH transaction; `known` is the length of the trail when it began. */
  datatype Patch = Patch(order: nat, user: nat, target: Status, startedAt: nat, known: nat, phase: Phase)

  /** `contended`: orders written by a PATCH that began before an earlier writer had committed. */
  datatype State = State(now: nat, orders: map<nat, Order>, trail: map<nat, seq<Event>>, patches: seq<Patch>,
                         contended: set<nat>)

  const EMPTY := State(0, map[], map[], [], {})

  datatype Step =
    | Tick
    | Create(order: nat, user: nat, startedAt: nat)
    | Begin(order: nat, user: nat, target: Status)
    | Lock(patch: nat)
    | Write(patch: nat)
    | Commit(patch: nat)
    | Rollback(patch: nat)

  /** The lock `SELECT ... FOR UPDATE` takes on an existing row. */
  predicate HoldsLock(p: Patch) { (p.phase.Locked? && p.phase.found.Some?) || p.phase.Wrote? }

  predicate LockedBy(s: State, p: nat, o: nat) { p < |s.patches| && s.patches[p].order == o && HoldsLock(s.patches[p]) }

  predicate Free(s: State, o: nat) { forall p | 0 <= p < |s.patches| :: !LockedBy(s, p, o) }

  function Lookup(s: State, o: nat): Option<Order> { if o in s.orders then Some(s.orders[o]) else None }

  function TrailLength(s: State, o: nat): nat { if o in s.trail then |s.trail[o]| else 0 }

  /** The handler goes on to the UPDATE: the order is the user's, and the change is allowed and real. */
  predicate MayWrite(p: Patch) {
    && p.phase.Locked? && p.phase.found.Some? && p.phase.found.value.user == p.user
    && IsAllowed(p.phase.found.value.status, p.target) && p.phase.found.value.status != p.target
  }

  /** Nothing to write: the order is the user's and already has the target status. */
  predicate IsNoop(p: Patch) {
    p.phase.Locked? && p.phase.found.Some? && p.phase.found.value.user == p.user
      && p.phase.found.value.status == p.target
  }

  predicate Enabled(s: State, step: Step) {
    match step
    case Tick => true
    case Create(o, _, at) => o !in s.orders && at <= s.now
    case Begin(_, _, _) => true
    case Lock(p) =>
      p < |s.patches| && s.patches[p].phase.Begun? && (s.patches[p].order in s.orders ==> Free(s, s.patches[p].order))
    case Write(p) => p < |s.patches| && MayWrite(s.patches[p])
    case Commit(p) => p < |s.patches| && (s.patches[p].phase.Wrote? || IsNoop(s.patches[p]))
    case Rollback(p) =>
      p < |s.patches| && (s.patches[p].phase.Begun? || s.patches[p].phase.Locked? || s.patches[p].phase.Wrote?)
  }

  function SetPhase(s: State, p: nat, x: Phase): State
    requires p < |s.patches|
  {
    s.(patches := s.patches[p := s.patches[p].(phase := x)])
  }

  /** COMMIT of a creating transaction: the order and the first row of its trail. */
  function Created(s: State, o: nat, user: nat, startedAt: nat): State {
    s.(orders := s.orders[o := Order(user, Pending)], trail := s.trail[o := [Event(None, Pending, user, startedAt)]])
  }

  /** COMMIT: the new status and its audit row appear together. */
  function Applied(s: State, p: nat): State
    requires p < |s.patches|
  {
    var x := s.patches[p];
    if x.phase.Wrote? then
      SetPhase(s, p, Committed(true))
        .(orders := s.orders[x.order := x.phase.before.(status := x.target)],
          trail := s.trail[x.order := (if x.order in s.trail then s.trail[x.order] else [])
                                      + [Event(Some(x.phase.before.status), x.target, x.user, x.startedAt)]],
          contended := if TrailLength(s, x.order) == x.known then s.contended else s.contended + {x.order})
    else SetPhase(s, p, Committed(false))
  }

  function Apply(s: State, step: Step): State
    requires Enabled(s, step)
  {
    match step
    case Tick => s.(now := s.now + 1)
    case Create(o, user, at) => Created(s, o, user, at)
    case Begin(o, user, target) => s.(patches := s.patches + [Patch(o, user, target, s.now, TrailLength(s, o), Begun)])
    case Lock(p) => SetPhase(s, p, Locked(Lookup(s, s.patches[p].order)))
    case Write(p) => SetPhase(s, p, Wrote(s.patches[p].phase.found.value))
    case Commit(p) => Applied(s, p)
    case Rollback(p) => SetPhase(s, p, RolledBack)
  }

  // ---------------------------------------------------------------- trails

  /** One audit row after another: each starts where the one before ended, and is an allowed, real change. */
  ghost predicate Path(es: seq<Event>) {
    && |es| > 0 && es[0].from == None && es[0].to == Pending
    && forall i | 0 < i < |es| :: Follows(es, i)
  }

  ghost predicate Follows(es: seq<Event>, i: nat)
    requires 0 < i < |es|
  {
    es[i].from == Some(es[i - 1].to) && es[i].to in Transitions(es[i - 1].to)
  }

  /** What somebody who only reads the trail concludes; `None` if it makes no sense. */
  ghost function Replay(es: seq<Event>): Option<Status> {
    if es == [] then None
    else if |es| == 1 then (if es[0].from.None? then Some(es[0].to) else None)
    else
      var before := Replay(es[..|es| - 1]);
      if before.Some? && es[|es| - 1].from == before then Some(es[|es| - 1].to) else None
  }

  ghost predicate InTimeOrder(es: seq<Event>) {
    forall i, j | 0 <= i < j < |es| :: es[i].at <= es[j].at
  }

  ghost predicate TrailOk(s: State, o: nat) {
    && o in s.orders && o in s.trail
    && Path(s.trail[o]) && s.trail[o][|s.trail[o]| - 1].to == s.orders[o].status
    && s.trail[o][0].actor == s.orders[o].user
    && (forall i | 0 <= i < |s.trail[o]| :: s.trail[o][i].actor == s.orders[o].user && s.trail[o][i].at <= s.now)
    && (o !in s.contended ==> InTimeOrder(s.trail[o]))
  }

  ghost predicate Trails(s: State) {
    && s.trail.Keys == s.orders.Keys
    && forall o | o in s.orders :: TrailOk(s, o)
  }

  /** A transaction that holds the lock saw what is still there, and knows only part of the trail. */
  ghost predicate PatchOk(s: State, p: nat)
    requires p < |s.patches|
  {
    var x := s.patches[p];
    && x.startedAt <= s.now
    && x.known <= TrailLength(s, x.order)
    && (x.order in s.trail ==> forall i | 0 <= i < x.known :: s.trail[x.order][i].at <= x.startedAt)
    && (x.phase.Locked? && x.phase.found.Some? ==> Lookup(s, x.order) == x.phase.found)
    && (x.phase.Wrote? ==>
          (Lookup(s, x.order) == Some(x.phase.before)
           && x.phase.before.user == x.user && x.target in Transitions(x.phase.before.status)))
  }

  ghost predicate Locks(s: State) {
    && (forall p | 0 <= p < |s.patches| :: PatchOk(s, p))
    && (forall p: nat, q: nat, o | LockedBy(s, p, o) && LockedBy(s, q, o) :: p == q)
  }

  ghost predicate Inv(s: State) { Trails(s) && Locks(s) }

  // ---------------------------------------------------------------- one step keeps them

  lemma PathGrows(es: seq<Event>, e: Event)
    requires Path(es) && e.from == Some(es[|es| - 1].to) && e.to in Transitions(es[|es| - 1].to)
    ensures Path(es + [e])
  {
    forall i | 0 < i < |es + [e]| ensures Follows(es + [e], i) {
      if i < |es| { assert Follows(es, i); }
    }
  }

  lemma CommitTrail(s: State, p: nat)
    requires Inv(s) && Enabled(s, Commit(p)) && s.patches[p].phase.Wrote?
    ensures TrailOk(Applied(s, p), s.patches[p].order)
  {
    var x := s.patches[p];
    assert PatchOk(s, p) && TrailOk(s, x.order);
    var es := s.trail[x.order];
    PathGrows(es, Event(Some(x.phase.before.status), x.target, x.user, x.startedAt));
  }

  lemma TrailsStep(s: State, step: Step)
    requires Inv(s) && Enabled(s, step)
    ensures Trails(Apply(s, step))
  {
    var s' := Apply(s, step);
    if step.Commit? { assert PatchOk(s, step.patch); }
    forall o | o in s'.orders ensures TrailOk(s', o) {
      if step.Commit? && s.patches[step.patch].phase.Wrote? && o == s.patches[step.patch].order {
        CommitTrail(s, step.patch);
      } else if o in s.orders {
        assert TrailOk(s, o);
      }
    }
  }

  lemma PatchStep(s: State, step: Step, p: nat)
    requires Inv(s) && Enabled(s, step) && p < |s.patches|
    ensures p < |Apply(s, step).patches| && PatchOk(Apply(s, step), p)
  {
    assert PatchOk(s, p);
    var o := s.patches[p].order;
    if o in s.orders { assert TrailOk(s, o); }
    if step.Commit? && step.patch != p && s.patches[step.patch].order == o {
      assert PatchOk(s, step.patch);
      assert LockedBy(s, p, o) ==> !LockedBy(s, step.patch, o);
    }
  }

  lemma LocksStep(s: State, step: Step)
    requires Inv(s) && Enabled(s, step)
    ensures Locks(Apply(s, step))
  {
    var s' := Apply(s, step);
    forall p | 0 <= p < |s'.patches| ensures PatchOk(s', p) {
      if p < |s.patches| { PatchStep(s, step, p); } else if step.order in s.trail { assert TrailOk(s, step.order); }
    }
    forall p: nat, q: nat, o | LockedBy(s', p, o) && LockedBy(s', q, o) ensures p == q {
      LockOrigin(s, step, p, o);
      LockOrigin(s, step, q, o);
    }
  }

  /** Where a lock comes from: it was held before, or it has just been taken on a free row. */
  lemma LockOrigin(s: State, step: Step, p: nat, o: nat)
    requires Enabled(s, step) && LockedBy(Apply(s, step), p, o)
    ensures LockedBy(s, p, o) || (step == Lock(p) && s.patches[p].order == o && Free(s, o))
  {
  }

  lemma InvStep(s: State, step: Step)
    requires Inv(s) && Enabled(s, step)
    ensures Inv(Apply(s, step))
  {
    TrailsStep(s, step);
    LocksStep(s, step);
  }

  // ---------------------------------------------------------------- runs

  ghost function Machine(): Runs.System<State, Step> {
    Runs.System(s => s == EMPTY, (s, step) => Enabled(s, step),
                (s, step) => if Enabled(s, step) then Apply(s, step) else s)
  }

  ghost predicate Reachable(s: State) { Runs.Reaches(Machine(), s) }

  lemma ReachableInit()
    ensures Reachable(EMPTY)
  {
    Runs.Start(Machine(), EMPTY);
  }

  lemma ReachableStep(s: State, step: Step, s': State)
    requires Reachable(s) && Enabled(s, step) && Apply(s, step) == s'
    ensures Reachable(s')
  {
    Runs.Go(Machine(), s, step, s');
  }

  lemma InvReachable(s: State)
    requires Reachable(s)
    ensures Inv(s)
  {
    forall x, step | Inv(x) && Enabled(x, step) ensures Inv(Apply(x, step)) { InvStep(x, step); }
    Runs.Invariant(Machine(), Inv, s);
  }

  // ---------------------------------------------------------------- theorems

  lemma {:induction false} PathReplays(es: seq<Event>)
    requires Path(es)
    ensures Replay(es) == Some(es[|es| - 1].to)
    decreases |es|
  {
    if |es| > 1 {
      var prefix := es[..|es| - 1];
      forall i | 0 < i < |prefix| ensures Follows(prefix, i) { assert Follows(es, i); }
      PathReplays(prefix);
      assert Follows(es, |es| - 1);
    }
  }

  lemma {:induction false} PathClimbs(es: seq<Event>, i: nat)
    requires Path(es) && i < |es|
    ensures i <= Rank(es[i].to) && (i < |es| - 1 ==> !Terminal(es[i].to))
    decreases i
  {
    if i > 0 {
      PathClimbs(es, i - 1);
      assert Follows(es, i);
    }
    if i < |es| - 1 { assert Follows(es, i + 1); }
  }

  /**
    The audit trail is a path: from NULL to pending, along allowed edges, to the current
    status; replaying it rebuilds that status; it holds at most three changes, and nothing
    follows a terminal status. Only the owner ever acted.
  */
  lemma AuditTrail(s: State, o: nat)
    requires Reachable(s) && o in s.orders
    ensures o in s.trail && Path(s.trail[o])
    ensures Replay(s.trail[o]) == Some(s.orders[o].status)
    ensures 1 <= |s.trail[o]| <= 4
    ensures forall i | 0 <= i < |s.trail[o]| - 1 :: !Terminal(s.trail[o][i].to)
    ensures forall i | 0 <= i < |s.trail[o]| :: s.trail[o][i].actor == s.orders[o].user
  {
    InvReachable(s);
    assert TrailOk(s, o);
    PathReplays(s.trail[o]);
    forall i | 0 <= i < |s.trail[o]|
      ensures i <= Rank(s.trail[o][i].to) && (i < |s.trail[o]| - 1 ==> !Terminal(s.trail[o][i].to))
    {
      PathClimbs(s.trail[o], i);
    }
  }

  /** A writer under the lock always acts on the current status. */
  lemma LockedReadIsCurrent(s: State, p: nat)
    requires Reachable(s) && p < |s.patches| && HoldsLock(s.patches[p])
    ensures Lookup(s, s.patches[p].order) ==
      Some(if s.patches[p].phase.Wrote? then s.patches[p].phase.before else s.patches[p].phase.found.value)
    ensures forall q: nat :: LockedBy(s, q, s.patches[p].order) ==> p == q
  {
    InvReachable(s);
    assert PatchOk(s, p) && LockedBy(s, p, s.patches[p].order);
  }

  lemma OwnerStays(s: State, step: Step, o: nat)
    requires Inv(s) && Enabled(s, step) && o in s.orders
    ensures o in Apply(s, step).orders && Apply(s, step).orders[o].user == s.orders[o].user
  {
    if step.Commit? { assert PatchOk(s, step.patch); }
  }

  /** Only a creation adds an order, and none goes. */
  lemma SameOrders(s: State, step: Step)
    requires Inv(s) && Enabled(s, step) && !step.Create?
    ensures Apply(s, step).orders.Keys == s.orders.Keys
  {
    if step.Commit? { assert PatchOk(s, step.patch); }
  }

  /** The trail of `o` begins with `e`. */
  ghost predicate BeganAs(s: State, o: nat, e: Event) { o in s.trail && s.trail[o] != [] && s.trail[o][0] == e }

  lemma BeginningStays(s: State, step: Step, o: nat, e: Event)
    requires Enabled(s, step) && BeganAs(s, o, e) && !step.Create?
    ensures BeganAs(Apply(s, step), o, e)
  {
  }

  /** What a creation shows: a pending order of its user, and the one row of its trail. */
  lemma CreatedAs(s: State, o: nat, user: nat, startedAt: nat)
    requires Enabled(s, Create(o, user, startedAt))
    ensures var s' := Apply(s, Create(o, user, startedAt));
      && o in s'.orders && s'.orders[o] == Order(user, Pending)
      && o in s'.trail && s'.trail[o] == [Event(None, Pending, user, startedAt)]
      && s'.contended == s.contended
  {
  }

  /** Only its own steps change a transaction, and none of them who asked for what, and when. */
  lemma {:induction false} PatchStays(s: State, steps: seq<Step>, p: nat)
    requires p < |s.patches|
    ensures var end := Runs.After(Machine(), s, steps);
      p < |end.patches| && end.patches[p] == s.patches[p].(phase := end.patches[p].phase)
    decreases |steps|
  {
    if steps != [] { PatchStays(if Enabled(s, steps[0]) then Apply(s, steps[0]) else s, steps[1..], p); }
  }

  /**
    When an order counts as contended: a PATCH commits a change of it, and since it began another change
    or the creation has been committed.
  */
  lemma ContendedExactly(s: State, o: nat, user: nat, target: Status, steps: seq<Step>)
    requires Reachable(s)
    ensures var p := |s.patches|;
      var end := Runs.After(Machine(), Apply(s, Begin(o, user, target)), steps);
      p < |end.patches| && (end.patches[p].phase.Wrote? ==>
        Apply(end, Commit(p)).contended == end.contended
          + if (if o in end.trail then |end.trail[o]| else 0) != (if o in s.trail then |s.trail[o]| else 0) then {o}
            else {})
  {
    PatchStays(Apply(s, Begin(o, user, target)), steps, |s.patches|);
  }

  /** Nothing but a COMMIT makes an order contended. */
  lemma ContendedStays(s: State, step: Step)
    requires Enabled(s, step) && !step.Commit?
    ensures Apply(s, step).contended == s.contended
  {
  }

  /** Row `i` of a trail records the creation. */
  predicate Creates(es: seq<Event>, i: nat) { i < |es| && es[i].from.None? }

  /** The first row of a trail, and no other, records the creation. */
  lemma CreatedOnce(s: State, o: nat)
    requires Reachable(s) && o in s.orders
    ensures o in s.trail && forall i: nat :: Creates(s.trail[o], i) <==> i == 0
  {
    AuditTrail(s, o);
    forall i: nat ensures Creates(s.trail[o], i) <==> i == 0 {
      if 0 < i < |s.trail[o]| { assert Follows(s.trail[o], i); }
    }
  }

  /** No step changes the owner of an order, or removes an order. */
  lemma OwnerNeverChanges(s: State, step: Step, o: nat)
    requires Reachable(s) && Enabled(s, step) && o in s.orders
    ensures o in Apply(s, step).orders && Apply(s, step).orders[o].user == s.orders[o].user
  {
    InvReachable(s);
    OwnerStays(s, step, o);
  }

  /**
    Read by `occurred_at`, which is the start of the writing transaction, the trail is in order
    as long as no PATCH on the order began before an earlier writer had committed.
  */
  lemma TrailInTimeOrder(s: State, o: nat)
    requires Reachable(s) && o in s.orders && o !in s.contended
    ensures o in s.trail && InTimeOrder(s.trail[o])
  {
    InvReachable(s);
    assert TrailOk(s, o);
  }

  /** Otherwise `occurred_at` can contradict the trail: "shipped" appears to be older than "confirmed". */
  lemma ContendedOutOfOrder() returns (s: State)
    ensures Reachable(s) && 0 in s.trail && 0 in s.contended && !InTimeOrder(s.trail[0])
    ensures Path(s.trail[0])
  {
    ReachableInit();
    var e0 := Event(None, Pending, 7, 0);
    var s1 := State(0, map[0 := Order(7, Pending)], map[0 := [e0]], [], {});
    ReachableStep(EMPTY, Create(0, 7, 0), s1);
    var early := Patch(0, 7, Shipped, 0, 1, Begun);
    var s2 := s1.(patches := [early]);
    ReachableStep(s1, Begin(0, 7, Shipped), s2);
    var s3 := s2.(now := 1);
    ReachableStep(s2, Tick, s3);
    var late := Patch(0, 7, Confirmed, 1, 1, Begun);
    var s4 := s3.(patches := [early, late]);
    ReachableStep(s3, Begin(0, 7, Confirmed), s4);
    s := LateFirst(s4);
  }

  lemma LateFirst(s4: State) returns (s: State)
    requires Reachable(s4)
    requires s4 == State(1, map[0 := Order(7, Pending)], map[0 := [Event(None, Pending, 7, 0)]],
                         [Patch(0, 7, Shipped, 0, 1, Begun), Patch(0, 7, Confirmed, 1, 1, Begun)], {})
    ensures Reachable(s) && 0 in s.trail && 0 in s.contended && !InTimeOrder(s.trail[0])
    ensures Path(s.trail[0])
  {
    var early := Patch(0, 7, Shipped, 0, 1, Begun);
    var late := Patch(0, 7, Confirmed, 1, 1, Begun);
    var s5 := s4.(patches := [early, late.(phase := Locked(Some(Order(7, Pending))))]);
    ReachableStep(s4, Lock(1), s5);
    var s6 := s4.(patches := [early, late.(phase := Wrote(Order(7, Pending)))]);
    ReachableStep(s5, Write(1), s6);
    var done := late.(phase := Committed(true));
    var trail := [Event(None, Pending, 7, 0), Event(Some(Pending), Confirmed, 7, 1)];
    var s7 := State(1, map[0 := Order(7, Confirmed)], map[0 := trail], [early, done], {});
    assert Applied(s6, 1).trail[0] == trail;
    assert Applied(s6, 1) == s7;
    ReachableStep(s6, Commit(1), s7);
    s := EarlySecond(s7, done);
  }

  lemma EarlySecond(s7: State, done: Patch) returns (s: State)
    requires Reachable(s7) && done.phase == Committed(true)
    requires s7 == State(1, map[0 := Order(7, Confirmed)],
                         map[0 := [Event(None, Pending, 7, 0), Event(Some(Pending), Confirmed, 7, 1)]],
                         [Patch(0, 7, Shipped, 0, 1, Begun), done], {})
    ensures Reachable(s) && 0 in s.trail && 0 in s.contended && !InTimeOrder(s.trail[0])
    ensures Path(s.trail[0])
  {
    var early := Patch(0, 7, Shipped, 0, 1, Begun);
    var s8 := s7.(patches := [early.(phase := Locked(Some(Order(7, Confirmed)))), done]);
    ReachableStep(s7, Lock(0), s8);
    var s9 := s7.(patches := [early.(phase := Wrote(Order(7, Confirmed))), done]);
    ReachableStep(s8, Write(0), s9);
    var trail := [Event(None, Pending, 7, 0), Event(Some(Pending), Confirmed, 7, 1),
      Event(Some(Confirmed), Shipped, 7, 0)];
    s := State(1, map[0 := Order(7, Shipped)], map[0 := trail], [early.(phase := Committed(true)), done], {0});
    assert Applied(s9, 0).trail[0] == trail;
    assert Applied(s9, 0).contended == {0};
    assert Applied(s9, 0) == s;
    ReachableStep(s9, Commit(0), s);
    assert trail[1].at > trail[2].at;
    InvReachable(s);
    assert TrailOk(s, 0);
  }
}
