/**
  GET /v1/orders/:id around `withEntityCache` as the program it is, with everybody else moving at
  each `await`.
*/
module EntityReads {
  import opened Shared
  import Runs
  import OrderAudit
  import opened EntityCache

  type Moment = Runs.Taken<State, Step>

  /** Whether the cache is enabled, and which of its calls take effect. */
  datatype Script = Script(enabled: bool, getWorks: bool, setWorks: bool)

  datatype XCache = Absent | Hit | Miss

  // ---------------------------------------------------------------- the program

  ghost predicate Did(es: seq<Moment>, i: int, step: Step) { 0 <= i < |es| && es[i].step == step }

  /** The row as the database has it, and its SET if there is one. */
  ghost predicate AskedDatabase(r: nat, k: Key, stores: bool, es: seq<Moment>, version: Option<nat>, header: XCache) {
    && Did(es, 0, Fetch(r)) && version == Latest(es[0].before, k.id)
    && if stores && version.Some? then |es| == 2 && Did(es, 1, SetLands(r)) && header == Miss
       else |es| == 1 && header == Absent
  }

  /** `withEntityCache`: a visible entry is the answer; otherwise the database is asked. */
  ghost predicate ReadDone(r: nat, k: Key, x: Script, es: seq<Moment>, version: Option<nat>, header: XCache) {
    var stores := x.enabled && x.setWorks;
    if !x.enabled || !x.getWorks then Did(es, 0, ReadFails(r)) && AskedDatabase(r, k, stores, es[1..], version, header)
    else
      && Did(es, 0, LookUp(r))
      && if Visible(es[0].before, k) then |es| == 1 && version == Some(es[0].before.cache[k].version) && header == Hit
         else AskedDatabase(r, k, stores, es[1..], version, header)
  }

  predicate Mine(r: nat, step: Step) {
    (step.LookUp? || step.ReadFails? || step.Fetch? || step.SetLands?) && step.reader == r
  }

  function By(r: nat): Step -> bool { step => Mine(r, step) }

  // ---------------------------------------------------------------- the methods

  class Reads {
    const ttl: nat
    var st: State
    ghost var log: seq<Moment>

    ghost predicate Ok()
      reads this
    {
      Runs.Traced(Machine(ttl), log, st)
    }

    /** The steps reader `r` has taken, each with the state it met. */
    ghost function Own(r: nat): seq<Moment>
      reads this
    {
      Runs.Own(By(r), log)
    }

    constructor (ttl: nat)
      ensures Ok() && st == NOTHING && this.ttl == ttl && log == []
    {
      this.ttl := ttl;
      st := NOTHING;
      log := [];
    }

    lemma Reached()
      requires Ok()
      ensures Reachable(ttl, st) && Inv(ttl, st)
    {
      Runs.TracedReaches(Machine(ttl), log, st, |log|);
      InvReachable(ttl, st);
    }

    method Do(step: Step)
      requires Ok() && Can(st, step)
      modifies this
      ensures Ok() && st == Next(ttl, old(st), step)
      ensures forall r :: Own(r) == if Mine(r, step) then old(Own(r)) + [Runs.Taken(old(st), step)] else old(Own(r))
    {
      ghost var x := Runs.Taken(st, step);
      Runs.TracedSnoc(Machine(ttl), log, st, step, Next(ttl, st, step));
      forall r ensures Runs.Own(By(r), log + [x]) == if Mine(r, step) then Own(r) + [x] else Own(r) {
        Runs.OwnSnoc(By(r), log, x);
      }
      st := Next(ttl, st, step);
      log := log + [x];
    }

    method Await(schedule: seq<Step>, r: nat)
      requires Ok() && r < |st.readers|
      modifies this
      ensures Ok() && r < |st.readers| && st.readers[r] == old(st.readers[r]) && Own(r) == old(Own(r))
      ensures Grown(old(st), st)
    {
      for i := 0 to |schedule|
        invariant Ok() && r < |st.readers| && st.readers[r] == old(st.readers[r]) && Own(r) == old(Own(r))
        invariant Grown(old(st), st)
      {
        if !Mine(r, schedule[i]) && Can(st, schedule[i]) {
          GrownStep(ttl, old(st), st, schedule[i]);
          Do(schedule[i]);
        }
      }
    }

    /** The cache read: a hit, or on to the database. */
    method Read(k: Key, works: bool, others: seq<Step>) returns (r: nat, ghost e: Moment)
      requires Ok()
      modifies this
      ensures Ok() && r == old(|st.readers|) < |st.readers| && Own(r) == old(Own(r)) + [e]
      ensures e.step == if works then LookUp(r) else ReadFails(r)
      ensures st.readers[r].key == k && st.readers[r].landedAt.None?
      ensures st.readers[r].hit <==> works && Visible(e.before, k)
      ensures st.readers[r].hit ==>
        st.readers[r].phase.Done? && st.readers[r].version == Some(e.before.cache[k].version)
      ensures !st.readers[r].hit ==> st.readers[r].phase.Fetching?
    {
      r := |st.readers|;
      Do(Ask(k));
      Await(others, r);
      e := Runs.Taken(st, if works then LookUp(r) else ReadFails(r));
      if works { Do(LookUp(r)); } else { Do(ReadFails(r)); }
    }

    /** The SELECT. */
    method FetchRow(r: nat, others: seq<Step>) returns (ghost e: Moment)
      requires Ok() && r < |st.readers| && st.readers[r].phase.Fetching? && !st.readers[r].hit
        && st.readers[r].landedAt.None?
      modifies this
      ensures Ok() && r < |st.readers| && Own(r) == old(Own(r)) + [e] && e.step == Fetch(r)
      ensures st.readers[r].key == old(st.readers[r].key) && st.readers[r].phase.Done? && !st.readers[r].hit
        && st.readers[r].landedAt.None?
      ensures st.readers[r].version == Latest(e.before, st.readers[r].key.id)
      ensures st.readers[r].version.None? <==> st.readers[r].key.id !in e.before.rows
      ensures st.rows == e.before.rows
    {
      Await(others, r);
      Reached();
      assert st.readers[r].key.id in st.rows ==> RowsOk(st, st.readers[r].key.id);
      e := Runs.Taken(st, Fetch(r));
      Do(Fetch(r));
    }

    /** The SET. */
    method StoreRow(r: nat, others: seq<Step>) returns (ghost e: Moment)
      requires Ok() && r < |st.readers| && Unset(st.readers[r])
      modifies this
      ensures Ok() && Own(r) == old(Own(r)) + [e] && e.step == SetLands(r)
      ensures r < |st.readers| && st.readers[r] == old(st.readers[r]).(landedAt := st.readers[r].landedAt)
        && Stored(st, ttl, r)
      ensures Grown(old(st), st)
    {
      Await(others, r);
      e := Runs.Taken(st, SetLands(r));
      Do(SetLands(r));
    }

    /**
      `withEntityCache`: what it does is exactly the program. It finds no row only if there was
      none when it asked the database.
    */
    method WithEntityCache(k: Key, x: Script, others: nat -> seq<Step>)
      returns (r: nat, header: XCache, ghost es: seq<Moment>)
      requires Ok()
      modifies this
      ensures Ok() && r == old(|st.readers|) < |st.readers| && st.readers[r].key == k && Own(r) == old(Own(r)) + es
      ensures ReadDone(r, k, x, es, st.readers[r].version, header)
      ensures header == Hit <==> st.readers[r].hit
      ensures !st.readers[r].hit ==> |es| >= 2 && FetchedNewest(st, r, es[1])
      ensures header == Miss ==> Stored(st, ttl, r)
      ensures st.readers[r].version.None? ==>
        es != [] && es[|es| - 1].step == Fetch(r) && k.id !in es[|es| - 1].before.rows
    {
      ghost var e: Moment;
      r, e := Read(k, x.enabled && x.getWorks, others(0));
      es := [e];
      header := Hit;
      if !st.readers[r].hit {
        ghost var more: seq<Moment>;
        header, more := FetchAndStore(r, x.enabled && x.setWorks, others);
        assert ([e] + more)[1..] == more;
        Runs.Joined(old(Own(r)), [e], more);
        es := [e] + more;
      }
    }

    method FetchAndStore(r: nat, stores: bool, others: nat -> seq<Step>) returns (header: XCache, ghost es: seq<Moment>)
      requires Ok() && r < |st.readers| && st.readers[r].phase.Fetching? && !st.readers[r].hit
        && st.readers[r].landedAt.None?
      modifies this
      ensures Ok() && r < |st.readers| && st.readers[r].key == old(st.readers[r].key) && !st.readers[r].hit
        && Own(r) == old(Own(r)) + es
      ensures AskedDatabase(r, st.readers[r].key, stores, es, st.readers[r].version, header)
      ensures header == Miss ==> Stored(st, ttl, r)
      ensures st.readers[r].version.None? ==> |es| == 1 && st.readers[r].key.id !in es[0].before.rows
      ensures es != [] && FetchedNewest(st, r, es[0])
    {
      ghost var e := FetchRow(r, others(1));
      es := [e];
      header := Absent;
      if stores && st.readers[r].version.Some? {
        ghost var e' := StoreRow(r, others(2));
        es := [e] + [e'];
        Runs.Joined(old(Own(r)), [e], [e']);
        header := Miss;
      }
    }

    /**
      The handler: 404 if there was no row when the database was asked, or the row is not the
      user's; even a stale row is judged by its present owner.
    */
    method GetOrder(k: Key, user: nat, x: Script, others: nat -> seq<Step>)
      returns (r: nat, found: Option<Order>, ghost es: seq<Moment>)
      requires Ok()
      modifies this
      ensures Ok() && r == old(|st.readers|) < |st.readers| && st.readers[r].key == k && Own(r) == old(Own(r)) + es
      ensures exists header :: ReadDone(r, k, x, es, st.readers[r].version, header)
      ensures found.Some? ==> st.readers[r].version.Some? && found.value.user == user
      ensures found.Some? && !st.readers[r].hit ==>
        |es| >= 2 && es[1].step == Fetch(r) && IsNewest(es[1].before, k.id, found.value)
      ensures forall delay: nat | found.Some? && st.readers[r].hit && Prompt(st, delay) ::
        exists m: nat :: WasCurrent(st, k.id, found.value, m) && m <= st.readers[r].at < m + ttl + delay
      ensures found == Reply(st, r, user)
      ensures st.readers[r].version.Some? ==> (found.Some? <==> OwnedBy(st, k.id, user))
      ensures st.readers[r].version.None? ==>
        es != [] && es[|es| - 1].step == Fetch(r) && k.id !in es[|es| - 1].before.rows
    {
      var header: XCache;
      r, header, es := WithEntityCache(k, x, others);
      found := None;
      if st.readers[r].version.Some? {
        Reached();
        OwnerCheckExact(ttl, st, r, user);
        var row := st.rows[k.id][st.readers[r].version.value].order;
        if row.user == user { found := Some(row); }
        AnsweredRow(ttl, st, r, row);
      }
    }
  }

  /** Rows only gain versions. */
  ghost predicate Grown(s: State, s': State) { forall id | id in s.rows :: id in s'.rows && s.rows[id] <= s'.rows[id] }

  lemma GrownStep(ttl: nat, first: State, s: State, step: Step)
    requires Grown(first, s) && Can(s, step)
    ensures Grown(first, Next(ttl, s, step))
  {
  }

  /** The row as the database had it in `s`. */
  ghost predicate IsNewest(s: State, id: nat, order: Order) {
    id in s.rows && s.rows[id] != [] && order == s.rows[id][|s.rows[id]| - 1].order
  }

  /** What `r` found, if anything, was the newest version when it asked the database in `e`. */
  ghost predicate FetchedNewest(s: State, r: nat, e: Moment)
    requires r < |s.readers|
  {
    var x := s.readers[r];
    && e.step == Fetch(r)
    && (x.version.Some? ==>
          && x.key.id in s.rows && x.version.value < |s.rows[x.key.id]|
          && IsNewest(e.before, x.key.id, s.rows[x.key.id][x.version.value].order))
  }

  /** A hit answers what the row was less than a TTL and the delay of its set ago. */
  lemma AnsweredRow(ttl: nat, s: State, r: nat, row: Order)
    requires Reachable(ttl, s) && r < |s.readers| && s.readers[r].version.Some?
    requires s.readers[r].key.id in s.rows && s.readers[r].version.value < |s.rows[s.readers[r].key.id]|
    requires row == s.rows[s.readers[r].key.id][s.readers[r].version.value].order
    ensures forall delay: nat | s.readers[r].hit && Prompt(s, delay) ::
      exists m: nat :: WasCurrent(s, s.readers[r].key.id, row, m) && m <= s.readers[r].at < m + ttl + delay
  {
    forall delay: nat | s.readers[r].hit && Prompt(s, delay)
      ensures exists m: nat :: WasCurrent(s, s.readers[r].key.id, row, m) && m <= s.readers[r].at < m + ttl + delay
    {
      HitIsRecent(ttl, s, r, delay);
      var m: nat :| CurrentAt(s, s.readers[r].key.id, s.readers[r].version.value, m)
                    && m <= s.readers[r].at < m + ttl + delay;
      assert WasCurrent(s, s.readers[r].key.id, row, m);
    }
  }

  /** The row `r` fetched is in the cache, for a TTL from now. */
  ghost predicate Stored(s: State, ttl: nat, r: nat) {
    && r < |s.readers| && s.readers[r].version.Some? && s.readers[r].key in s.cache
    && s.cache[s.readers[r].key] == Entry(s.readers[r].version.value, r, s.now + ttl)
  }

  /** The row exists and is the user's now. */
  ghost predicate OwnedBy(s: State, id: nat, user: nat) {
    id in s.rows && s.rows[id] != [] && s.rows[id][|s.rows[id]| - 1].order.user == user
  }
}
