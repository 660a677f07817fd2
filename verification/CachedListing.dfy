/**
  `withListCache` around the page fetcher, with `withCountCache` nested in it, as the program it
  is: every other request, writer and eviction may come in between at each `await`.
*/
module CachedListing {
  import opened Shared
  import Runs
  import opened OrderListing
  import opened VersionedCache
  import opened CacheCoherence

  type Moment = Runs.Taken<State, Step>

  /**
    Whether the cache is enabled and which cache calls come back in time; `rowsFirst` orders the two
    parallel queries.
  */
  datatype Script = Script(enabled: bool, versionRead: bool, listRead: bool, countVersionRead: bool, countRead: bool,
                           countStored: bool, listStored: bool, rowsFirst: bool)

  datatype XCache = Absent | Hit | Miss

  // ---------------------------------------------------------------- the programs

  ghost predicate Did(es: seq<Moment>, i: int, step: Step) {
    0 <= i < |es| && es[i].step == step && |es[i].before.history| > 0
  }

  /** The count query, and the SET of its result. */
  ghost predicate Counted(r: nat, f: Filter, stores: bool, es: seq<Moment>, t: Total) {
    && Did(es, 0, FetchCount(r)) && t == Total(Count(f, es[0].before.history[Now(es[0].before)]), Now(es[0].before))
    && if stores then |es| == 2 && Did(es, 1, StoreCount(r)) else |es| == 1
  }

  /** `withCountCache`: a visible entry under the version read is the total; otherwise the database counts. */
  ghost predicate CountDone(r: nat, f: Filter, x: Script, es: seq<Moment>, t: Total) {
    if !x.enabled || !x.countVersionRead then Did(es, 0, CountReadFails(r)) && Counted(r, f, false, es[1..], t)
    else
      && Did(es, 0, ReadCountVersion(r))
      && if !x.countRead then Did(es, 1, CountReadFails(r)) && Counted(r, f, false, es[2..], t)
         else
           && Did(es, 1, LookUpCount(r))
           && var k := (es[0].before.version, Normal(f));
              if k in es[1].before.counts then |es| == 2 && t == es[1].before.counts[k]
              else Counted(r, f, x.countStored, es[2..], t)
  }

  ghost predicate RowsFetched(r: nat, q: Query, e: Moment, page: Page)
    requires q.page >= 1
  {
    && Did([e], 0, FetchRows(r))
    && page.rowsAt == Now(e.before) && page.rows == PageRows(q, e.before.history[Now(e.before)])
  }

  /** `fetchOrdersPage`: the rows as one query finds them, the total as `withCountCache` has it. */
  ghost predicate PageDone(r: nat, q: Query, x: Script, es: seq<Moment>, page: Page)
    requires q.page >= 1
  {
    && es != []
    && var (rows, count) := if x.rowsFirst then (es[0], es[1..]) else (es[|es| - 1], es[..|es| - 1]);
       RowsFetched(r, q, rows, page) && CountDone(r, q.filter, x, count, Total(page.total, page.totalAt))
  }

  /** The page is fetched and answered, and stored under the key of the lookup if there is one. */
  ghost predicate Fetched(r: nat, q: Query, x: Script, stores: bool, es: seq<Moment>, page: Page, header: XCache)
    requires q.page >= 1
  {
    var n := |es| - (if stores then 2 else 1);
    && n >= 0 && PageDone(r, q, x, es[..n], page) && Did(es, n, Return(r))
    && (stores ==> Did(es, n + 1, StoreList(r)))
    && header == if stores then Miss else Absent
  }

  /** `withListCache`: a visible entry under the version read is the answer; otherwise the page is fetched. */
  ghost predicate ListDone(r: nat, q: Query, x: Script, es: seq<Moment>, page: Page, header: XCache)
    requires q.page >= 1
  {
    if !x.enabled || !x.versionRead then Did(es, 0, CacheReadFails(r)) && Fetched(r, q, x, false, es[1..], page, header)
    else
      && Did(es, 0, ReadVersion(r))
      && if !x.listRead then Did(es, 1, CacheReadFails(r)) && Fetched(r, q, x, false, es[2..], page, header)
         else
           && Did(es, 1, LookUp(r))
           && var k := (es[0].before.version, q);
              if k in es[1].before.lists then |es| == 2 && page == es[1].before.lists[k] && header == Hit
              else Fetched(r, q, x, x.listStored, es[2..], page, header)
  }

  predicate Mine(r: nat, step: Step) {
    (ByReader(step) || step.StoreCount? || step.StoreList?) && step.reader == r
  }

  function By(r: nat): Step -> bool { step => Mine(r, step) }

  // ---------------------------------------------------------------- the methods

  class Listing {
    var st: State
    ghost var log: seq<Moment>

    ghost predicate Ok()
      reads this
    {
      Runs.Traced(Machine(), log, st)
    }

    /** The steps reader `r` has taken, each with the state it met. */
    ghost function Own(r: nat): seq<Moment>
      reads this
    {
      Runs.Own(By(r), log)
    }

    ghost predicate Here(r: nat)
      reads this
    {
      Ok() && r < |st.readers| && |st.history| > 0
    }

    constructor (table: seq<Order>)
      ensures Ok() && st == Fresh(table) && log == []
    {
      st := Fresh(table);
      log := [];
    }

    method Do(step: Step)
      requires Ok() && Enabled(st, step)
      modifies this
      ensures Ok() && st == Apply(old(st), step)
      ensures forall r :: Own(r) == if Mine(r, step) then old(Own(r)) + [Runs.Taken(old(st), step)] else old(Own(r))
    {
      ghost var x := Runs.Taken(st, step);
      Runs.TracedSnoc(Machine(), log, st, step, Apply(st, step));
      forall r ensures Runs.Own(By(r), log + [x]) == if Mine(r, step) then Own(r) + [x] else Own(r) {
        Runs.OwnSnoc(By(r), log, x);
      }
      st := Apply(st, step);
      log := log + [x];
    }

    /** Whatever of `schedule` is possible happens, except steps of reader `r`. */
    method Await(schedule: seq<Step>, r: nat)
      requires Here(r)
      modifies this
      ensures Here(r) && st.readers[r] == old(st.readers[r]) && Own(r) == old(Own(r))
    {
      for i := 0 to |schedule|
        invariant Here(r) && st.readers[r] == old(st.readers[r]) && Own(r) == old(Own(r))
      {
        if !Mine(r, schedule[i]) && Enabled(st, schedule[i]) {
          OthersUntouched(st, schedule[i], r);
          StepGrows(st, schedule[i]);
          Do(schedule[i]);
        }
      }
    }

    /** An await, and then a step of the reader itself. */
    method Take(r: nat, step: Step, others: seq<Step>) returns (ghost e: Moment)
      requires Here(r) && Mine(r, step) && Ready(st.readers[r], step)
      modifies this
      ensures Here(r) && Own(r) == old(Own(r)) + [e]
      ensures Did([e], 0, step) && r < |e.before.readers| && e.before.readers[r] == old(st.readers[r])
      ensures Enabled(e.before, step) && st == Apply(e.before, step)
    {
      Await(others, r);
      StepGrows(st, step);
      e := Runs.Taken(st, step);
      Do(step);
    }

    /** The count query, and its SET if there is a key for it. */
    method CountRows(r: nat, x: Script, others: nat -> seq<Step>) returns (ghost es: seq<Moment>)
      requires Here(r) && Ready(st.readers[r], FetchCount(r))
      modifies this
      ensures Here(r) && Own(r) == old(Own(r)) + es
      ensures st.readers[r] == old(st.readers[r]).(total := st.readers[r].total, own := true)
        && st.readers[r].total.Some?
      ensures Counted(r, st.readers[r].query.filter, st.readers[r].countKey.Some? && x.countStored, es,
        st.readers[r].total.value)
    {
      ghost var e := Take(r, FetchCount(r), others(2));
      es := [e];
      if st.readers[r].countKey.Some? && x.countStored {
        e := Take(r, StoreCount(r), others(3));
        es := es + [e];
      }
    }

    /** The read side of `withCountCache`. */
    method LookUpTotal(r: nat, x: Script, others: nat -> seq<Step>) returns (ghost es: seq<Moment>)
      requires Here(r) && Ready(st.readers[r], ReadCountVersion(r)) && st.readers[r].total.None?
      modifies this
      ensures Here(r) && Own(r) == old(Own(r)) + es
      ensures Alike(old(st.readers[r]), st.readers[r]) && TotalLookedUp(r, x, es, st.readers[r])
    {
      ghost var e: Moment;
      if x.enabled && x.countVersionRead {
        e := Take(r, ReadCountVersion(r), others(0));
        es := [e];
        e := Take(r, if x.countRead then LookUpCount(r) else CountReadFails(r), others(1));
        es := es + [e];
      } else {
        e := Take(r, CountReadFails(r), others(0));
        es := [e];
      }
    }

    /** `withCountCache`: version, lookup, and on a miss or a failed read the count query. */
    method WithCountCache(r: nat, x: Script, others: nat -> seq<Step>) returns (ghost es: seq<Moment>)
      requires Here(r) && Ready(st.readers[r], ReadCountVersion(r)) && st.readers[r].total.None?
      modifies this
      ensures Here(r) && Own(r) == old(Own(r)) + es
      ensures Alike(old(st.readers[r]), st.readers[r]) && st.readers[r].total.Some?
      ensures CountDone(r, st.readers[r].query.filter, x, es, st.readers[r].total.value)
    {
      ghost var look := LookUpTotal(r, x, others);
      ghost var y := st.readers[r];
      if st.readers[r].total.None? {
        ghost var more := CountRows(r, x, others);
        CountedAfterLookUp(r, x, look, y, more, st.readers[r].total.value);
        es := look + more;
        Runs.Joined(old(Own(r)), look, more);
      } else {
        es := look;
        CountedFromCache(r, x, look, y);
      }
    }

    /** `fetchOrdersPage`: both queries, in either order. */
    method FetchPage(r: nat, x: Script, others: nat -> seq<Step>) returns (ghost es: seq<Moment>)
      requires Here(r) && Unanswered(st.readers[r]) && Untouched(st.readers[r])
      modifies this
      ensures Here(r) && Own(r) == old(Own(r)) + es
      ensures SameRequest(old(st.readers[r]), st.readers[r]) && Ready(st.readers[r], Return(r))
      ensures PageDone(r, st.readers[r].query, x, es, ThePage(st.readers[r]))
    {
      if x.rowsFirst {
        es := RowsThenCount(r, x, others);
      } else {
        es := CountThenRows(r, x, others);
      }
    }

    /** The page query. */
    method QueryRows(r: nat, others: seq<Step>) returns (ghost e: Moment)
      requires Here(r) && Ready(st.readers[r], FetchRows(r))
      modifies this
      ensures Here(r) && Own(r) == old(Own(r)) + [e]
      ensures st.readers[r] == old(st.readers[r]).(rows := st.readers[r].rows) && RowsRead(r, e, st.readers[r])
    {
      e := Take(r, FetchRows(r), others);
    }

    method RowsThenCount(r: nat, x: Script, others: nat -> seq<Step>) returns (ghost es: seq<Moment>)
      requires Here(r) && Unanswered(st.readers[r]) && Untouched(st.readers[r]) && x.rowsFirst
      modifies this
      ensures Here(r) && Own(r) == old(Own(r)) + es
      ensures SameRequest(old(st.readers[r]), st.readers[r]) && Ready(st.readers[r], Return(r))
      ensures PageDone(r, st.readers[r].query, x, es, ThePage(st.readers[r]))
    {
      ghost var e := QueryRows(r, others(4));
      ghost var count := CountForRows(r, x, others, e);
      BothQueries(r, x, e, count, st.readers[r]);
      es := [e] + count;
      Runs.Joined(old(Own(r)), [e], count);
    }

    /** The count of a page whose rows have been read. */
    method CountForRows(r: nat, x: Script, others: nat -> seq<Step>, ghost e: Moment) returns (ghost es: seq<Moment>)
      requires Here(r) && Ready(st.readers[r], ReadCountVersion(r)) && st.readers[r].total.None?
        && RowsRead(r, e, st.readers[r])
      modifies this
      ensures Here(r) && Own(r) == old(Own(r)) + es && SameRequest(old(st.readers[r]), st.readers[r])
      ensures RowsRead(r, e, st.readers[r]) && Ready(st.readers[r], Return(r))
      ensures CountDone(r, st.readers[r].query.filter, x, es, st.readers[r].total.value)
    {
      ghost var y := st.readers[r];
      es := WithCountCache(r, x, others);
      RowsStay(r, e, y, st.readers[r]);
    }

    method CountThenRows(r: nat, x: Script, others: nat -> seq<Step>) returns (ghost es: seq<Moment>)
      requires Here(r) && Unanswered(st.readers[r]) && Untouched(st.readers[r]) && !x.rowsFirst
      modifies this
      ensures Here(r) && Own(r) == old(Own(r)) + es
      ensures SameRequest(old(st.readers[r]), st.readers[r]) && Ready(st.readers[r], Return(r))
      ensures PageDone(r, st.readers[r].query, x, es, ThePage(st.readers[r]))
    {
      ghost var count := WithCountCache(r, x, others);
      ghost var e := QueryRows(r, others(4));
      es := count + [e];
      Runs.Joined(old(Own(r)), count, [e]);
      BothQueries(r, x, e, count, st.readers[r]);
    }

    /** The read side of `withListCache`: version, lookup, and either a hit or a miss. */
    method LookUpList(r: nat, x: Script, others: nat -> seq<Step>) returns (ghost es: seq<Moment>)
      requires Here(r) && Ready(st.readers[r], ReadVersion(r)) && Untouched(st.readers[r])
      modifies this
      ensures Here(r) && Own(r) == old(Own(r)) + es
      ensures SameAsked(old(st.readers[r]), st.readers[r]) && ListLookedUp(r, x, es, st.readers[r])
    {
      ghost var e: Moment;
      if x.enabled && x.versionRead {
        e := Take(r, ReadVersion(r), others(5));
        es := [e];
        e := Take(r, if x.listRead then LookUp(r) else CacheReadFails(r), others(6));
        es := es + [e];
      } else {
        e := Take(r, CacheReadFails(r), others(5));
        es := [e];
      }
    }

    /** The answer, and its SET if there is a key for it. */
    method Respond(r: nat, x: Script, others: nat -> seq<Step>) returns (stored: bool, ghost es: seq<Moment>)
      requires Here(r) && Ready(st.readers[r], Return(r))
      modifies this
      ensures Here(r) && Own(r) == old(Own(r)) + es
      ensures SameRequest(old(st.readers[r]), st.readers[r])
        && st.readers[r].result == Some(ThePage(old(st.readers[r])))
      ensures stored == (st.readers[r].listKey.Some? && x.listStored)
      ensures |es| == (if stored then 2 else 1) && Did(es, 0, Return(r)) && (stored ==> Did(es, 1, StoreList(r)))
      ensures stored ==> OnRecord(st, r)
    {
      ghost var e := Take(r, Return(r), others(7));
      es := [e];
      stored := st.readers[r].listKey.Some? && x.listStored;
      if stored {
        e := Take(r, StoreList(r), others(8));
        es := es + [e];
      }
    }

    /** After a lookup that did not answer: fetch, answer, store. */
    method FetchAndRespond(r: nat, x: Script, others: nat -> seq<Step>) returns (header: XCache, ghost es: seq<Moment>)
      requires Here(r) && Unanswered(st.readers[r]) && Untouched(st.readers[r])
      modifies this
      ensures Here(r) && Own(r) == old(Own(r)) + es
      ensures SameRequest(old(st.readers[r]), st.readers[r]) && st.readers[r].result.Some?
      ensures Fetched(r, st.readers[r].query, x, st.readers[r].listKey.Some? && x.listStored, es,
        st.readers[r].result.value, header)
      ensures header == Miss ==> OnRecord(st, r)
    {
      ghost var fetched := FetchPage(r, x, others);
      ghost var page := ThePage(st.readers[r]);
      var stored: bool;
      ghost var more: seq<Moment>;
      stored, more := Respond(r, x, others);
      header := if stored then Miss else Absent;
      es := fetched + more;
      Runs.Joined(old(Own(r)), fetched, more);
      FetchedThenAnswered(r, st.readers[r].query, x, stored, fetched, more, page);
    }

    /** `withListCache`, from the arrival of the request to its response: what it does is exactly the program. */
    method WithListCache(q: Query, x: Script, others: nat -> seq<Step>)
      returns (r: nat, header: XCache, ghost es: seq<Moment>)
      requires Ok() && ValidQuery(q) && |st.history| > 0
      modifies this
      ensures Ok() && r == old(|st.readers|) && In(st, r) && Own(r) == old(Own(r)) + es
      ensures st.readers[r].query == q && st.readers[r].since == old(st.version) && st.readers[r].result.Some?
      ensures ListDone(r, q, x, es, st.readers[r].result.value, header)
      ensures header == Hit <==> st.readers[r].listStage.Served?
      ensures header == Miss ==> OnRecord(st, r)
    {
      ghost var look: seq<Moment>;
      r, look := Receive(q, x, others);
      ghost var y := st.readers[r];
      if st.readers[r].listStage.Served? {
        header, es := Hit, look;
        ServedFromCache(r, q, x, look, y);
      } else {
        ghost var more: seq<Moment>;
        header, more := FetchAndRespond(r, x, others);
        FetchedAfterLookUp(r, q, x, look, y, more, st.readers[r].result.value, header);
        es := look + more;
        Runs.Joined(old(Own(r)), look, more);
      }
    }

    /** The arrival of a request, and its lookup. */
    method Receive(q: Query, x: Script, others: nat -> seq<Step>) returns (r: nat, ghost es: seq<Moment>)
      requires Ok() && ValidQuery(q) && |st.history| > 0
      modifies this
      ensures r == old(|st.readers|) && Here(r) && Own(r) == old(Own(r)) + es
      ensures st.readers[r].query == q && st.readers[r].since == old(st.version)
      ensures ListLookedUp(r, x, es, st.readers[r])
    {
      r := |st.readers|;
      Do(Arrive(q));
      es := LookUpList(r, x, others);
    }
  }

  // ---------------------------------------------------------------- a reader by itself

  predicate Unanswered(y: Reader) { y.query.page >= 1 && y.result.None? && y.listStage.Fetching? }

  /** What a reader may do next; only its own record matters. */
  predicate Ready(y: Reader, step: Step) {
    y.query.page >= 1 &&
    match step
    case ReadVersion(_) => y.listStage.Start?
    case LookUp(_) => y.listStage.Looking? && y.listKey.Some?
    case CacheReadFails(_) => y.listStage.Start? || y.listStage.Looking?
    case FetchRows(_) => Unanswered(y) && y.rows.None?
    case ReadCountVersion(_) => Unanswered(y) && y.countStage.Start?
    case LookUpCount(_) => Unanswered(y) && y.countStage.Looking? && y.countKey.Some?
    case CountReadFails(_) => Unanswered(y) && (y.countStage.Start? || y.countStage.Looking?)
    case FetchCount(_) => Unanswered(y) && y.countStage.Fetching? && y.total.None?
    case StoreCount(_) => y.own && y.total.Some? && y.countKey.Some?
    case Return(_) => Unanswered(y) && Complete(y)
    case StoreList(_) => Complete(y) && y.listKey.Some?
    case _ => false
  }

  /** Nothing has been fetched or answered. */
  ghost predicate Untouched(y: Reader) { y.rows.None? && y.countStage.Start? && y.total.None? && y.result.None? }

  ghost predicate SameAsked(x: Reader, y: Reader) { y.query == x.query && y.since == x.since }

  ghost predicate SameRequest(x: Reader, y: Reader) {
    SameAsked(x, y) && y.listKey == x.listKey && y.listStage == x.listStage
  }

  /** Only the count has moved. */
  ghost predicate Alike(x: Reader, y: Reader) {
    SameRequest(x, y) && y.rows == x.rows && y.result == x.result
  }

  /** `y` after the read side of `withCountCache`. */
  ghost predicate TotalLookedUp(r: nat, x: Script, es: seq<Moment>, y: Reader) {
    if !x.enabled || !x.countVersionRead then
      |es| == 1 && Did(es, 0, CountReadFails(r)) && y.countKey.None? && y.total.None? && y.countStage.Fetching?
    else
      && |es| == 2 && Did(es, 0, ReadCountVersion(r))
      && if !x.countRead then
           Did(es, 1, CountReadFails(r)) && y.countKey.None? && y.total.None? && y.countStage.Fetching?
         else
           && Did(es, 1, LookUpCount(r)) && y.countKey == Some(es[0].before.version)
           && var k := (es[0].before.version, Normal(y.query.filter));
              if k in es[1].before.counts then y.total == Some(es[1].before.counts[k])
              else y.total.None? && y.countStage.Fetching?
  }

  lemma CountedFromCache(r: nat, x: Script, look: seq<Moment>, y: Reader)
    requires TotalLookedUp(r, x, look, y) && y.total.Some?
    ensures CountDone(r, y.query.filter, x, look, y.total.value)
  {
  }

  /** `y` has the rows that the page query `e` found. */
  ghost predicate RowsRead(r: nat, e: Moment, y: Reader) {
    && y.query.page >= 1 && Did([e], 0, FetchRows(r))
    && y.rows == Some((PageRows(y.query, e.before.history[Now(e.before)]), Now(e.before)))
  }

  lemma RowsStay(r: nat, e: Moment, x: Reader, y: Reader)
    requires RowsRead(r, e, x) && Unanswered(x) && Alike(x, y) && y.total.Some?
    ensures RowsRead(r, e, y) && Complete(y) && Unanswered(y)
  {
  }

  lemma BothQueries(r: nat, x: Script, e: Moment, count: seq<Moment>, y: Reader)
    requires RowsRead(r, e, y) && y.total.Some? && CountDone(r, y.query.filter, x, count, y.total.value) && Complete(y)
    ensures PageDone(r, y.query, x, if x.rowsFirst then [e] + count else count + [e], ThePage(y))
  {
    assert ([e] + count)[1..] == count && (count + [e])[..|count|] == count;
  }

  lemma CountedAfterLookUp(r: nat, x: Script, look: seq<Moment>, y: Reader, more: seq<Moment>, t: Total)
    requires TotalLookedUp(r, x, look, y) && y.total.None?
    requires Counted(r, y.query.filter, y.countKey.Some? && x.countStored, more, t)
    ensures CountDone(r, y.query.filter, x, look + more, t)
  {
    assert (look + more)[|look|..] == more;
  }

  lemma FetchedThenAnswered(r: nat, q: Query, x: Script, stored: bool, fetched: seq<Moment>, more: seq<Moment>,
                            page: Page)
    requires q.page >= 1 && PageDone(r, q, x, fetched, page)
    requires |more| == (if stored then 2 else 1) && Did(more, 0, Return(r)) && (stored ==> Did(more, 1, StoreList(r)))
    ensures Fetched(r, q, x, stored, fetched + more, page, if stored then Miss else Absent)
  {
    assert (fetched + more)[..|fetched|] == fetched;
  }

  /** `y` after the read side of `withListCache`. */
  ghost predicate ListLookedUp(r: nat, x: Script, es: seq<Moment>, y: Reader) {
    if !x.enabled || !x.versionRead then
      |es| == 1 && Did(es, 0, CacheReadFails(r)) && y.listKey.None? && Unanswered(y) && Untouched(y)
    else
      && |es| == 2 && Did(es, 0, ReadVersion(r))
      && if !x.listRead then Did(es, 1, CacheReadFails(r)) && y.listKey.None? && Unanswered(y) && Untouched(y)
         else
           && Did(es, 1, LookUp(r)) && y.listKey == Some(es[0].before.version)
           && var k := (es[0].before.version, y.query);
              if k in es[1].before.lists then y.listStage.Served? && y.result == Some(es[1].before.lists[k])
              else Unanswered(y) && Untouched(y)
  }

  lemma ServedFromCache(r: nat, q: Query, x: Script, look: seq<Moment>, y: Reader)
    requires q == y.query && q.page >= 1 && ListLookedUp(r, x, look, y) && y.listStage.Served?
    ensures y.result.Some? && ListDone(r, q, x, look, y.result.value, Hit)
  {
  }

  lemma FetchedAfterLookUp(r: nat, q: Query, x: Script, look: seq<Moment>, y: Reader, more: seq<Moment>, page: Page,
                           header: XCache)
    requires q == y.query && q.page >= 1 && ListLookedUp(r, x, look, y) && !y.listStage.Served?
    requires Fetched(r, q, x, y.listKey.Some? && x.listStored, more, page, header)
    ensures ListDone(r, q, x, look + more, page, header)
  {
    assert (look + more)[|look|..] == more;
  }

  /** The response of `r` is cached under its own query and the version it read. */
  ghost predicate OnRecord(s: State, r: nat) {
    && In(s, r) && s.readers[r].listKey.Some? && s.readers[r].result.Some?
    && (s.readers[r].listKey.value, s.readers[r].query) in s.lists
    && s.lists[(s.readers[r].listKey.value, s.readers[r].query)] == s.readers[r].result.value
  }
}
