/**
  `createOrderTransactionally` as the program it is: one INSERT after another, then COMMIT and the
  bump of the list cache, with everybody else moving at each `await`.
*/
module CreateRequests {
  import opened Shared
  import Runs
  import Pipeline
  import opened EndToEnd
  import opened EndToEndSafety

  type Moment = Runs.Taken<State, Step>

  datatype Item = Item(quantity: nat, unitPriceCents: nat)

  /** What the request schema lets through. */
  predicate ValidItems(items: seq<Item>) {
    1 <= |items| <= 100 && forall i | 0 <= i < |items| ::
      1 <= items[i].quantity <= 1000 && items[i].unitPriceCents <= 100_000_000
  }

  function Sum(items: seq<Item>): nat {
    if items == [] then 0 else items[0].quantity * items[0].unitPriceCents + Sum(items[1..])
  }

  lemma {:induction false} SumSnoc(items: seq<Item>, i: nat)
    requires i < |items|
    ensures Sum(items[..i + 1]) == Sum(items[..i]) + items[i].quantity * items[i].unitPriceCents
    decreases i
  {
    if i > 0 {
      SumSnoc(items[1..], i - 1);
      assert items[..i + 1][1..] == items[1..][..i] && items[..i][1..] == items[1..][..i - 1];
    }
  }

  method TotalCents(items: seq<Item>) returns (total: nat)
    ensures total == Sum(items)
  {
    total := 0;
    for i := 0 to |items|
      invariant total == Sum(items[..i])
    {
      SumSnoc(items, i);
      total := total + items[i].quantity * items[i].unitPriceCents;
    }
    assert items[..|items|] == items;
  }

  /** A request the schema accepts can still exceed the column: one item is enough. */
  lemma SchemaAllowsOverflow() returns (items: seq<Item>)
    ensures ValidItems(items) && Sum(items) > 2_147_483_647
  {
    items := [Item(1000, 100_000_000)];
    assert Sum(items) == 1000 * 100_000_000 + Sum([]);
  }

  // ---------------------------------------------------------------- the program

  /** The statement that fails, if any, and whether the bump of the list cache works. */
  datatype Script = Script(failing: Option<Row>, commits: bool, bumps: bool)

  /** The INSERT of `row` goes through. */
  predicate Works(x: Script, total: nat, row: Row) { x.failing != Some(row) && (row.OrderRow? ==> total <= MAX_TOTAL) }

  predicate Succeeds(x: Script, total: nat) {
    Works(x, total, OrderRow) && Works(x, total, AuditRow) && Works(x, total, OutboxRow) && x.commits
  }

  /** After BEGIN: the INSERTs up to the first that fails, then ROLLBACK; or all of them, COMMIT and the bump. */
  function Program(d: nat, x: Script, total: nat): seq<Step> {
    if !Works(x, total, OrderRow) then [RollbackCreate(d)]
    else if !Works(x, total, AuditRow) then [InsertRow(d, OrderRow), RollbackCreate(d)]
    else [InsertRow(d, OrderRow), InsertRow(d, AuditRow)] + LastSteps(d, x, total)
  }

  function LastSteps(d: nat, x: Script, total: nat): seq<Step> {
    if !Works(x, total, OutboxRow) then [RollbackCreate(d)]
    else [InsertRow(d, OutboxRow)] + EndSteps(d, x)
  }

  function EndSteps(d: nat, x: Script): seq<Step> {
    if x.commits then [CommitCreate(d), Announce(d, x.bumps)] else [RollbackCreate(d)]
  }

  predicate Mine(d: nat, step: Step) {
    (step.InsertRow? || step.CommitCreate? || step.RollbackCreate? || step.Announce?) && step.draft == d
  }

  function By(d: nat): Step -> bool { step => Mine(d, step) }

  function StepsOf(es: seq<Moment>): seq<Step> { seq(|es|, i requires 0 <= i < |es| => es[i].step) }

  // ---------------------------------------------------------------- the methods

  lemma OthersLeaveDraft(c: Pipeline.Config, s: State, step: Step, d: nat)
    requires Enabled(c, s, step) && d < |s.drafts| && !Mine(d, step)
    ensures d < |Apply(c, s, step).drafts| && Apply(c, s, step).drafts[d] == s.drafts[d]
  {
  }

  /** The last thing done is the bump of the order list's version: one more, unless Redis failed. */
  ghost predicate Bumped(es: seq<Moment>, s: State, bumps: bool) {
    && es != [] && es[|es| - 1].step.Announce?
    && s.version == es[|es| - 1].before.version + if bumps then 1 else 0
  }

  /** Only such a bump changes the version of the order list. */
  lemma VersionMoves(c: Pipeline.Config, s: State, step: Step)
    requires Enabled(c, s, step)
    ensures Apply(c, s, step).version == s.version + if step.Announce? && step.bumps then 1 else 0
  {
  }

  class Shop {
    const config: Pipeline.Config
    var st: State
    ghost var log: seq<Moment>

    ghost predicate Ok()
      reads this
    {
      Runs.Traced(Machine(config), log, st)
    }

    /** The steps transaction `d` has taken, each with the state it met. */
    ghost function Own(d: nat): seq<Moment>
      reads this
    {
      Runs.Own(By(d), log)
    }

    constructor (config: Pipeline.Config, st: State)
      requires Init(st)
      ensures Ok() && this.config == config && this.st == st && log == []
    {
      this.config := config;
      this.st := st;
      log := [];
    }

    lemma Reached()
      requires Ok()
      ensures Reachable(config, st)
    {
      Runs.TracedReaches(Machine(config), log, st, |log|);
    }

    method Do(step: Step)
      requires Ok() && Enabled(config, st, step)
      modifies this
      ensures Ok() && st == Apply(config, old(st), step)
      ensures forall d :: Own(d) == if Mine(d, step) then old(Own(d)) + [Runs.Taken(old(st), step)] else old(Own(d))
    {
      ghost var x := Runs.Taken(st, step);
      Runs.TracedSnoc(Machine(config), log, st, step, Apply(config, st, step));
      forall d ensures Runs.Own(By(d), log + [x]) == if Mine(d, step) then Own(d) + [x] else Own(d) {
        Runs.OwnSnoc(By(d), log, x);
      }
      st := Apply(config, st, step);
      log := log + [x];
    }

    /** Whatever of `schedule` is possible happens, except steps of transaction `d`. */
    method Await(schedule: seq<Step>, d: nat)
      requires Ok() && d < |st.drafts|
      modifies this
      ensures Ok() && d < |st.drafts| && st.drafts[d] == old(st.drafts[d]) && Own(d) == old(Own(d))
    {
      for i := 0 to |schedule|
        invariant Ok() && d < |st.drafts| && st.drafts[d] == old(st.drafts[d]) && Own(d) == old(Own(d))
      {
        if !Mine(d, schedule[i]) && Enabled(config, st, schedule[i]) {
          OthersLeaveDraft(config, st, schedule[i], d);
          Do(schedule[i]);
        }
      }
    }

    /** An await, and then one INSERT. */
    method Insert(d: nat, row: Row, others: seq<Step>) returns (ghost e: Moment)
      requires Ok() && IsOpen(st, d) && MayWrite(st.drafts[d], row)
      modifies this
      ensures Ok() && d < |st.drafts| && Own(d) == old(Own(d)) + [e] && e.step == InsertRow(d, row)
      ensures st.drafts[d] == old(st.drafts[d]).(written := old(st.drafts[d]).written + {row})
    {
      Await(others, d);
      e := Runs.Taken(st, InsertRow(d, row));
      Do(InsertRow(d, row));
    }

    method RollBack(d: nat, others: seq<Step>) returns (ghost e: Moment)
      requires Ok() && IsOpen(st, d)
      modifies this
      ensures Ok() && d < |st.drafts| && Own(d) == old(Own(d)) + [e] && e.step == RollbackCreate(d)
      ensures st.drafts[d] == old(st.drafts[d]).(phase := RolledBack)
    {
      Await(others, d);
      e := Runs.Taken(st, RollbackCreate(d));
      Do(RollbackCreate(d));
    }

    /** COMMIT, and then the bump of the list cache. */
    method CommitAndAnnounce(d: nat, bumps: bool, others: nat -> seq<Step>) returns (ghost es: seq<Moment>)
      requires Ok() && IsOpen(st, d) && st.drafts[d].written == ALL_ROWS
      modifies this
      ensures Ok() && d < |st.drafts| && Own(d) == old(Own(d)) + es
        && StepsOf(es) == [CommitCreate(d), Announce(d, bumps)]
      ensures Bumped(es, st, bumps)
      ensures st.drafts[d] == old(st.drafts[d]).(phase := Announced)
    {
      Await(others(4), d);
      Reached();
      CommitIsPossible(config, st, d);
      ghost var e := Runs.Taken(st, CommitCreate(d));
      Do(CommitCreate(d));
      Await(others(5), d);
      ghost var e' := Runs.Taken(st, Announce(d, bumps));
      Do(Announce(d, bumps));
      es := [e] + [e'];
      Runs.Joined(old(Own(d)), [e], [e']);
    }

    /** All rows are in: COMMIT, or ROLLBACK if it fails. */
    method Finish(d: nat, x: Script, others: nat -> seq<Step>) returns (ghost es: seq<Moment>)
      requires Ok() && IsOpen(st, d) && st.drafts[d].written == ALL_ROWS
      modifies this
      ensures Ok() && d < |st.drafts| && Own(d) == old(Own(d)) + es
      ensures StepsOf(es) == EndSteps(d, x)
      ensures st.drafts[d] == old(st.drafts[d]).(phase := if x.commits then Announced else RolledBack)
      ensures x.commits ==> Bumped(es, st, x.bumps)
    {
      if x.commits {
        es := CommitAndAnnounce(d, x.bumps, others);
      } else {
        ghost var e := RollBack(d, others(4));
        es := [e];
      }
    }

    /** The INSERT of the outbox row, and what follows. */
    method Publish(d: nat, x: Script, total: nat, others: nat -> seq<Step>) returns (ghost es: seq<Moment>)
      requires Ok() && IsOpen(st, d) && st.drafts[d].written == {OrderRow, AuditRow} && st.drafts[d].total == total
      modifies this
      ensures Ok() && d < |st.drafts| && Own(d) == old(Own(d)) + es
      ensures StepsOf(es) == LastSteps(d, x, total)
      ensures st.drafts[d].phase == if Works(x, total, OutboxRow) && x.commits then Announced else RolledBack
      ensures st.drafts[d].phase.Announced? ==> Bumped(es, st, x.bumps)
      ensures SameDraft(old(st.drafts[d]), st.drafts[d])
    {
      ghost var e: Moment;
      if Works(x, total, OutboxRow) {
        e := Insert(d, OutboxRow, others(3));
        ghost var rest := Finish(d, x, others);
        es := [e] + rest;
        Runs.Joined(old(Own(d)), [e], rest);
      } else {
        e := RollBack(d, others(3));
        es := [e];
      }
    }

    /** Everything after BEGIN. */
    method InsertAll(d: nat, x: Script, total: nat, others: nat -> seq<Step>) returns (ghost es: seq<Moment>)
      requires Ok() && IsOpen(st, d) && st.drafts[d].written == {} && st.drafts[d].total == total
      modifies this
      ensures Ok() && d < |st.drafts| && Own(d) == old(Own(d)) + es && StepsOf(es) == Program(d, x, total)
      ensures st.drafts[d].phase == if Succeeds(x, total) then Announced else RolledBack
      ensures st.drafts[d].phase.Announced? ==> Bumped(es, st, x.bumps)
      ensures SameDraft(old(st.drafts[d]), st.drafts[d])
    {
      ghost var e: Moment;
      if !Works(x, total, OrderRow) {
        e := RollBack(d, others(1));
        return [e];
      }
      e := Insert(d, OrderRow, others(1));
      ghost var rest := InsertAudit(d, x, total, others);
      es := [e] + rest;
      Runs.Joined(old(Own(d)), [e], rest);
    }

    method InsertAudit(d: nat, x: Script, total: nat, others: nat -> seq<Step>) returns (ghost es: seq<Moment>)
      requires Ok() && IsOpen(st, d) && st.drafts[d].written == {OrderRow} && st.drafts[d].total == total
        && Works(x, total, OrderRow)
      modifies this
      ensures Ok() && d < |st.drafts| && Own(d) == old(Own(d)) + es
        && [InsertRow(d, OrderRow)] + StepsOf(es) == Program(d, x, total)
      ensures st.drafts[d].phase == if Succeeds(x, total) then Announced else RolledBack
      ensures st.drafts[d].phase.Announced? ==> Bumped(es, st, x.bumps)
      ensures SameDraft(old(st.drafts[d]), st.drafts[d])
    {
      ghost var e: Moment;
      if Works(x, total, AuditRow) {
        e := Insert(d, AuditRow, others(2));
        ghost var rest := Publish(d, x, total, others);
        es := [e] + rest;
        Runs.Joined(old(Own(d)), [e], rest);
      } else {
        e := RollBack(d, others(2));
        es := [e];
      }
    }

    /**
      `createOrderTransactionally`, under fresh ids, for a call or without a key. Among everybody
      else's steps it takes exactly its program. It succeeds exactly if no statement fails and the
      total fits its column; then order, audit row and outbox row are visible, and otherwise none is.
    */
    method CreateOrder(call: Option<nat>, key: string, items: seq<Item>, user: nat, order: nat, event: nat, at: nat,
                       x: Script, others: nat -> seq<Step>)
      returns (d: nat, total: nat, created: bool, ghost es: seq<Moment>)
      requires Ok() && FreshIds(st, order, event) && (call.Some? ==> MayCreate(st, call.value, key, user))
      modifies this
      ensures Ok() && d == old(|st.drafts|) < |st.drafts| && total == Sum(items) && (created <==> Succeeds(x, total))
      ensures Own(d) == old(Own(d)) + es && StepsOf(es) == Program(d, x, total)
      ensures SameDraft(Draft(call, key, order, event, user, total, at, old(st.audit.now), {}, Open), st.drafts[d])
      ensures created ==> st.drafts[d].phase.Announced? && Visible(st, st.drafts[d])
      ensures created <==> x.failing.None? && x.commits && total <= 2_147_483_647
      ensures created ==> Bumped(es, st, x.bumps)
      ensures !created ==> st.drafts[d].phase.RolledBack? && Hidden(st, st.drafts[d])
    {
      total := TotalCents(items);
      d, es := Transact(call, key, total, user, order, event, at, x, others);
      created := st.drafts[d].phase.Announced?;
      Reached();
      Settles(config, st, d);
      SucceedsIf(x, total);
    }

    /** BEGIN, and everything after it. */
    method Transact(call: Option<nat>, key: string, total: nat, user: nat, order: nat, event: nat, at: nat,
                    x: Script, others: nat -> seq<Step>) returns (d: nat, ghost es: seq<Moment>)
      requires Ok() && FreshIds(st, order, event) && (call.Some? ==> MayCreate(st, call.value, key, user))
      modifies this
      ensures Ok() && d == old(|st.drafts|) < |st.drafts|
      ensures Own(d) == old(Own(d)) + es && StepsOf(es) == Program(d, x, total)
      ensures SameDraft(Draft(call, key, order, event, user, total, at, old(st.audit.now), {}, Open), st.drafts[d])
      ensures st.drafts[d].phase == if Succeeds(x, total) then Announced else RolledBack
      ensures st.drafts[d].phase.Announced? ==> Bumped(es, st, x.bumps)
    {
      d := |st.drafts|;
      Do(BeginCreate(call, key, order, event, user, total, at));
      es := InsertAll(d, x, total, others);
    }
  }

  lemma SucceedsIf(x: Script, total: nat)
    ensures Succeeds(x, total) <==> x.failing.None? && x.commits && total <= 2_147_483_647
  {
    if x.failing.Some? {
      match x.failing.value
      case OrderRow => assert !Works(x, total, OrderRow);
      case AuditRow => assert !Works(x, total, AuditRow);
      case OutboxRow => assert !Works(x, total, OutboxRow);
    }
  }

  /** A transaction that is over is visible as a whole, or not at all. */
  lemma Settles(c: Pipeline.Config, s: State, d: nat)
    requires Reachable(c, s) && d < |s.drafts|
    ensures if Settled(s.drafts[d]) then Visible(s, s.drafts[d]) else Hidden(s, s.drafts[d])
  {
    InvReachable(c, s);
    assert DraftOk(s, d);
  }

  /** The same transaction, further on. */
  ghost predicate SameDraft(x: Draft, y: Draft) { y == x.(written := y.written, phase := y.phase) }
}
