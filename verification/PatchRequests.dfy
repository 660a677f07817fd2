/**
  PATCH /v1/orders/:id as the program it is, with every other transaction moving at each `await`.
*/
module PatchRequests {
  import opened Shared
  import Runs
  import opened OrderAudit

  type Moment = Runs.Taken<State, Step>

  /** The database call that fails, if any; the handler then rolls back and throws. */
  datatype Failure = NoFailure | SelectFails | WriteFails | CommitFails

  /** `Waiting`: other transactions kept the row locked as long as the schedule went. */
  datatype Response =
    | Updated(order: Order)
    | NotFound
    | InvalidTransition(from: Status, to: Status, allowed: seq<Status>)
    | InternalError
    | Waiting

  // ---------------------------------------------------------------- the program

  /** What the locked row calls for. */
  function Reply(found: Option<Order>, user: nat, target: Status, fail: Failure): Response {
    if found.None? || found.value.user != user then NotFound
    else if !IsAllowed(found.value.status, target) then
      InvalidTransition(found.value.status, target, Transitions(found.value.status))
    else if fail.WriteFails? || fail.CommitFails? then InternalError
    else Updated(found.value.(status := target))
  }

  /** The steps after the lock: refused and failed requests roll back, the status it has is committed unwritten. */
  function StepsAfterLock(p: nat, found: Option<Order>, user: nat, target: Status, fail: Failure): seq<Step> {
    if found.None? || found.value.user != user || !IsAllowed(found.value.status, target) || fail.WriteFails? then
      [Rollback(p)]
    else
      (if found.value.status == target then [] else [Write(p)])
      + [if fail.CommitFails? then Rollback(p) else Commit(p)]
  }

  function StepsOf(es: seq<Moment>): seq<Step> { seq(|es|, i requires 0 <= i < |es| => es[i].step) }

  /** What the handler does, the lock with the state it met, and what it answers. */
  ghost predicate Handles(p: nat, o: nat, user: nat, target: Status, fail: Failure, es: seq<Moment>, r: Response,
                          end: State) {
    if fail.SelectFails? then StepsOf(es) == [Rollback(p)] && r == InternalError
    else if es == [] then r == Waiting && !Enabled(end, Lock(p))
    else
      && es[0].step == Lock(p)
      && var found := Lookup(es[0].before, o);
         StepsOf(es[1..]) == StepsAfterLock(p, found, user, target, fail) && r == Reply(found, user, target, fail)
  }

  ghost predicate OwnedBy(s: State, o: nat, user: nat) { o in s.orders && s.orders[o].user == user }

  /** The owner's order may go from its status to `target`, or is there already. */
  ghost predicate MayBecome(s: State, o: nat, target: Status)
    requires o in s.orders
  {
    s.orders[o].status == target || (s.orders[o].status, target) in CHANGES
  }

  /**
    The answer for the row the lock showed in `s`: 404 for everybody but the owner, whatever the status;
    422 for a change that does not exist, with the present status and the changes that do; the order
    with the status asked for otherwise, unless a statement failed.
  */
  ghost predicate Answers(s: State, o: nat, user: nat, target: Status, fail: Failure, r: Response) {
    && (r.NotFound? <==> !OwnedBy(s, o, user))
    && (r.InvalidTransition? <==> OwnedBy(s, o, user) && !MayBecome(s, o, target))
    && (r.InvalidTransition? ==>
          && r.from == s.orders[o].status && r.to == target
          && forall x :: x in r.allowed <==> (s.orders[o].status, x) in CHANGES)
    && (r.Updated? <==> OwnedBy(s, o, user) && MayBecome(s, o, target) && !fail.WriteFails? && !fail.CommitFails?)
    && (r.Updated? ==> r.order.user == user && r.order.status == target)
    && !r.Waiting?
  }

  lemma ReplyAnswers(s: State, o: nat, user: nat, target: Status, fail: Failure)
    ensures Answers(s, o, user, target, fail, Reply(Lookup(s, o), user, target, fail))
  {
    if OwnedBy(s, o, user) {
      forall x ensures x in Transitions(s.orders[o].status) <==> (s.orders[o].status, x) in CHANGES {
        AllowedPairs(s.orders[o].status, x);
      }
      AllowedPairs(s.orders[o].status, target);
    }
  }

  predicate Mine(p: nat, step: Step) {
    (step.Lock? || step.Write? || step.Commit? || step.Rollback?) && step.patch == p
  }

  function By(p: nat): Step -> bool { step => Mine(p, step) }

  // ---------------------------------------------------------------- the methods

  /** What others leave to an open transaction, and to a row it has locked. */
  ghost predicate Kept(p: nat, s: State, s': State) {
    p < |s.patches| ==>
      && p < |s'.patches|
      && s'.patches[p] == s.patches[p]
      && (HoldsLock(s.patches[p]) ==>
            Lookup(s', s.patches[p].order) == Lookup(s, s.patches[p].order)
            && TrailOf(s', s.patches[p].order) == TrailOf(s, s.patches[p].order))
  }

  ghost function TrailOf(s: State, o: nat): seq<Event> { if o in s.trail then s.trail[o] else [] }

  lemma KeptStep(p: nat, s: State, step: Step)
    requires Inv(s) && Enabled(s, step) && !Mine(p, step)
    ensures Kept(p, s, Apply(s, step))
  {
    if p < |s.patches| && HoldsLock(s.patches[p]) {
      assert PatchOk(s, p) && LockedBy(s, p, s.patches[p].order);
      if step.Commit? { assert LockedBy(s, step.patch, s.patches[step.patch].order) || IsNoop(s.patches[step.patch]); }
    }
  }

  lemma CommitRecords(s: State, p: nat)
    requires Inv(s) && p < |s.patches| && s.patches[p].phase.Wrote?
    ensures Same(s.patches[p], Apply(s, Commit(p)).patches[p])
      && Recorded(Apply(s, Commit(p)), p, s.patches[p].phase.before.status)
  {
    assert PatchOk(s, p) && TrailOk(s, s.patches[p].order);
  }

  class Orders {
    var st: State
    ghost var log: seq<Moment>

    ghost predicate Ok()
      reads this
    {
      Runs.Traced(Machine(), log, st)
    }

    /** The steps transaction `p` has taken, each with the state it met. */
    ghost function Own(p: nat): seq<Moment>
      reads this
    {
      Runs.Own(By(p), log)
    }

    constructor ()
      ensures Ok() && st == EMPTY && log == []
    {
      st := EMPTY;
      log := [];
    }

    lemma Reached()
      requires Ok()
      ensures Reachable(st) && Inv(st)
    {
      Runs.TracedReaches(Machine(), log, st, |log|);
      InvReachable(st);
    }

    method Do(step: Step)
      requires Ok() && Enabled(st, step)
      modifies this
      ensures Ok() && st == Apply(old(st), step)
      ensures forall p :: Own(p) == if Mine(p, step) then old(Own(p)) + [Runs.Taken(old(st), step)] else old(Own(p))
    {
      ghost var x := Runs.Taken(st, step);
      Runs.TracedSnoc(Machine(), log, st, step, Apply(st, step));
      forall p ensures Runs.Own(By(p), log + [x]) == if Mine(p, step) then Own(p) + [x] else Own(p) {
        Runs.OwnSnoc(By(p), log, x);
      }
      st := Apply(st, step);
      log := log + [x];
    }

    /** Whatever of `schedule` is possible happens, except steps of transaction `p`. */
    method Await(schedule: seq<Step>, p: nat)
      requires Ok()
      modifies this
      ensures Ok() && Kept(p, old(st), st) && Own(p) == old(Own(p))
    {
      for i := 0 to |schedule|
        invariant Ok() && Kept(p, old(st), st) && Own(p) == old(Own(p))
      {
        if !Mine(p, schedule[i]) && Enabled(st, schedule[i]) {
          Reached();
          KeptStep(p, st, schedule[i]);
          Do(schedule[i]);
        }
      }
    }

    /** BEGIN and `SELECT ... FOR UPDATE`; it waits as long as the row is locked. */
    method Acquire(o: nat, user: nat, target: Status, fails: bool, others: seq<Step>)
      returns (p: nat, granted: bool, ghost es: seq<Moment>)
      requires Ok()
      modifies this
      ensures Ok() && p == old(|st.patches|) < |st.patches| && Asked(st.patches[p], o, user, target)
      ensures Own(p) == old(Own(p)) + es
      ensures granted ==> |es| == 1 && es[0].step == Lock(p) && st.patches[p].phase == Locked(Lookup(es[0].before, o))
      ensures granted ==> !fails
      ensures !granted ==> es == [] && st.patches[p].phase.Begun? && (fails || !Enabled(st, Lock(p)))
    {
      p := |st.patches|;
      Do(Begin(o, user, target));
      Await(others, p);
      granted := !fails && Enabled(st, Lock(p));
      es := if granted then [Runs.Taken(st, Lock(p))] else [];
      if granted { Do(Lock(p)); }
    }

    /** COMMIT of what was written. */
    method CommitWritten(p: nat, ghost was: Patch) returns (r: Response, ghost e: Moment)
      requires Ok() && p < |st.patches| && st.patches[p].phase.Wrote? && Same(was, st.patches[p])
      requires was.phase.Locked? && was.phase.found == Some(st.patches[p].phase.before)
      modifies this
      ensures Ok() && p < |st.patches| && Same(was, st.patches[p])
      ensures Own(p) == old(Own(p)) + [e] && e.step == Commit(p)
      ensures r == Updated(was.phase.found.value.(status := was.target))
        && Recorded(st, p, was.phase.found.value.status)
    {
      Reached();
      CommitRecords(st, p);
      r := Updated(st.patches[p].phase.before.(status := st.patches[p].target));
      e := Runs.Taken(st, Commit(p));
      Do(Commit(p));
    }

    /** ROLLBACK. */
    method RollBack(p: nat) returns (ghost e: Moment)
      requires Ok() && Enabled(st, Rollback(p))
      modifies this
      ensures Ok() && p < |st.patches| && Same(old(st.patches[p]), st.patches[p]) && st.patches[p].phase.RolledBack?
      ensures Own(p) == old(Own(p)) + [e] && e.step == Rollback(p)
      ensures st.orders == old(st.orders) && st.trail == old(st.trail)
    {
      e := Runs.Taken(st, Rollback(p));
      Do(Rollback(p));
    }

    /** The UPDATE and its audit row, then COMMIT. */
    method WriteAndCommit(p: nat, commits: bool, others: seq<Step>) returns (r: Response, ghost es: seq<Moment>)
      requires Ok() && p < |st.patches| && MayWrite(st.patches[p])
      modifies this
      ensures Ok() && p < |st.patches| && Same(old(st.patches[p]), st.patches[p]) && Own(p) == old(Own(p)) + es
      ensures StepsOf(es) == [Write(p), if commits then Commit(p) else Rollback(p)]
      ensures !commits ==> r == InternalError && st.patches[p].phase.RolledBack?
      ensures commits ==>
        (r == Updated(old(st.patches[p]).phase.found.value.(status := st.patches[p].target))
         && Recorded(st, p, old(st.patches[p]).phase.found.value.status))
    {
      ghost var was := st.patches[p];
      es := [Runs.Taken(st, Write(p))];
      Do(Write(p));
      Await(others, p);
      ghost var e: Moment;
      if commits {
        r, e := CommitWritten(p, was);
      } else {
        e := RollBack(p);
        r := InternalError;
      }
      es := es + [e];
    }

    /** The order has the status already: COMMIT with nothing written. */
    method CommitUnchanged(p: nat) returns (r: Response, ghost e: Moment)
      requires Ok() && p < |st.patches| && IsNoop(st.patches[p])
      modifies this
      ensures Ok() && p < |st.patches| && Same(old(st.patches[p]), st.patches[p])
        && st.patches[p].phase == Committed(false)
      ensures Own(p) == old(Own(p)) + [e] && e.step == Commit(p)
      ensures st.orders == old(st.orders) && st.trail == old(st.trail)
        && r == Updated(old(st.patches[p]).phase.found.value)
    {
      r := Updated(st.patches[p].phase.found.value);
      e := Runs.Taken(st, Commit(p));
      Do(Commit(p));
    }

    /** The handler once it has the lock. */
    method Decide(p: nat, fail: Failure, others: seq<Step>) returns (r: Response, ghost es: seq<Moment>)
      requires Ok() && p < |st.patches| && st.patches[p].phase.Locked? && !fail.SelectFails?
      modifies this
      ensures Ok() && p < |st.patches| && Same(old(st.patches[p]), st.patches[p]) && Own(p) == old(Own(p)) + es
      ensures var x := old(st.patches[p]); var found := x.phase.found;
        && StepsOf(es) == StepsAfterLock(p, found, x.user, x.target, fail) && r == Reply(found, x.user, x.target, fail)
        && (r.Updated? && found.value.status != x.target ==> Recorded(st, p, found.value.status))
        && (!r.Updated? ==> st.patches[p].phase.RolledBack?)
    {
      var x := st.patches[p];
      var found := x.phase.found;
      if found.None? || found.value.user != x.user {
        ghost var e := RollBack(p);
        return NotFound, [e];
      }
      if !IsAllowed(found.value.status, x.target) {
        ghost var e := RollBack(p);
        return InvalidTransition(found.value.status, x.target, Transitions(found.value.status)), [e];
      }
      if fail.WriteFails? {
        ghost var e := RollBack(p);
        return InternalError, [e];
      }
      if found.value.status == x.target {
        r, es := CommitOrFail(p, fail.CommitFails?);
      } else {
        r, es := WriteAndCommit(p, !fail.CommitFails?, others);
      }
    }

    method CommitOrFail(p: nat, fails: bool) returns (r: Response, ghost es: seq<Moment>)
      requires Ok() && p < |st.patches| && IsNoop(st.patches[p])
      modifies this
      ensures Ok() && p < |st.patches| && Same(old(st.patches[p]), st.patches[p]) && Own(p) == old(Own(p)) + es
      ensures StepsOf(es) == [if fails then Rollback(p) else Commit(p)]
      ensures r == if fails then InternalError else Updated(old(st.patches[p]).phase.found.value)
      ensures fails ==> st.patches[p].phase.RolledBack?
    {
      ghost var e: Moment;
      if fails {
        e := RollBack(p);
        r := InternalError;
      } else {
        r, e := CommitUnchanged(p);
      }
      es := [e];
    }

    /**
      The handler, among everybody else's steps. What it does is exactly the program for the row its lock
      showed; a failed or refused request leaves nothing behind, and a change commits the new
      status and its audit row together. The caches are invalidated exactly on a change.
    */
    method PatchOrder(o: nat, user: nat, target: Status, fail: Failure, others: nat -> seq<Step>)
      returns (p: nat, r: Response, invalidates: bool, ghost es: seq<Moment>)
      requires Ok()
      modifies this
      ensures Ok() && p == old(|st.patches|) < |st.patches| && Asked(st.patches[p], o, user, target)
      ensures Own(p) == old(Own(p)) + es && Handles(p, o, user, target, fail, es, r, st)
      ensures fail.SelectFails? ==> r == InternalError
      ensures !fail.SelectFails? && es != [] ==> Answers(es[0].before, o, user, target, fail, r)
      ensures r.Updated? ==> es != [] && o in es[0].before.orders
      ensures r.Updated? && es[0].before.orders[o].status == target ==> StepsOf(es) == [Lock(p), Commit(p)]
      ensures r.Updated? && es[0].before.orders[o].status != target ==> StepsOf(es) == [Lock(p), Write(p), Commit(p)]
      ensures r.NotFound? || r.InvalidTransition? || r.InternalError? ==> st.patches[p].phase.RolledBack?
      ensures invalidates <==> r.Updated? && Lookup(es[0].before, o).value.status != target
      ensures invalidates ==> Recorded(st, p, Lookup(es[0].before, o).value.status)
    {
      var granted: bool;
      p, granted, es := Acquire(o, user, target, fail.SelectFails?, others(0));
      invalidates := false;
      if granted {
        ghost var more: seq<Moment>;
        r, invalidates, more := Proceed(p, fail, others);
        es := es + more;
        assert es[1..] == more;
        ReplyAnswers(es[0].before, o, user, target, fail);
        assert StepsOf(es) == [Lock(p)] + StepsOf(more);
      } else if fail.SelectFails? {
        ghost var e := RollBack(p);
        r, es := InternalError, [e];
      } else {
        r := Waiting;
      }
    }

    /** The handler from its lock on. */
    method Proceed(p: nat, fail: Failure, others: nat -> seq<Step>)
      returns (r: Response, invalidates: bool, ghost es: seq<Moment>)
      requires Ok() && p < |st.patches| && st.patches[p].phase.Locked? && !fail.SelectFails?
      modifies this
      ensures Ok() && p < |st.patches| && Same(old(st.patches[p]), st.patches[p]) && Own(p) == old(Own(p)) + es
      ensures var x := old(st.patches[p]); var found := x.phase.found;
        && StepsOf(es) == StepsAfterLock(p, found, x.user, x.target, fail) && r == Reply(found, x.user, x.target, fail)
        && (invalidates <==> r.Updated? && found.value.status != x.target)
        && (invalidates ==> Recorded(st, p, found.value.status))
        && (!r.Updated? ==> st.patches[p].phase.RolledBack?)
    {
      var target, found := st.patches[p].target, st.patches[p].phase.found;
      Await(others(1), p);
      r, es := Decide(p, fail, others(2));
      invalidates := r.Updated? && found.value.status != target;
    }
  }

  ghost predicate Asked(x: Patch, o: nat, user: nat, target: Status) {
    x.order == o && x.user == user && x.target == target
  }

  ghost predicate Same(x: Patch, y: Patch) { y.order == x.order && y.user == x.user && y.target == x.target }

  /**
    Right after its COMMIT: the order has the target status, and the last audit row says who took it
    there, and from where.
  */
  ghost predicate Recorded(s: State, p: nat, from: Status) {
    && p < |s.patches|
    && var x := s.patches[p];
       && x.phase == Committed(true)
       && x.order in s.orders && s.orders[x.order] == Order(x.user, x.target)
       && x.order in s.trail && |s.trail[x.order]| >= 2
       && s.trail[x.order][|s.trail[x.order]| - 2].to == from
       && s.trail[x.order][|s.trail[x.order]| - 1] == Event(Some(from), x.target, x.user, x.startedAt)
  }
}
