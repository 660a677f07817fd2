/**
  What every step of the versioned caches keeps, and the coherence that follows from it.
*/
module CacheCoherence {
  import opened Shared
  import Runs
  import opened OrderListing
  import opened VersionedCache

  // ---------------------------------------------------------------- invariants

  /** The k-th bump saw a database state that exists, and later bumps saw no older one. */
  ghost predicate Clock(s: State) {
    && |s.history| > 0
    && |s.bumpedAt| == s.version + 1
    && (forall k | 0 <= k < |s.bumpedAt| :: s.bumpedAt[k] < |s.history|)
    && (forall j, k | 0 <= j <= k < |s.bumpedAt| :: s.bumpedAt[j] <= s.bumpedAt[k])
  }

  /** `n` is a database state no older than the one of the `k`-th bump. */
  ghost predicate NoOlder(s: State, k: nat, n: nat) {
    k < |s.bumpedAt| && s.bumpedAt[k] <= n < |s.history|
  }

  /** `t` is the true count of `f` in a state no older than bump `k`. */
  ghost predicate TotalOk(s: State, k: nat, f: Filter, t: Total) {
    NoOlder(s, k, t.at) && t.n == Count(f, s.history[t.at])
  }

  ghost predicate RowsOk(s: State, k: nat, q: Query, rows: seq<Order>, at: nat)
    requires q.page >= 1
  {
    NoOlder(s, k, at) && rows == PageRows(q, s.history[at])
  }

  ghost predicate PageOk(s: State, k: nat, q: Query, p: Page) {
    q.page >= 1 && RowsOk(s, k, q, p.rows, p.rowsAt) && TotalOk(s, k, q.filter, Total(p.total, p.totalAt))
  }

  ghost predicate Entries(s: State) {
    && (forall k | k in s.lists :: PageOk(s, k.0, k.1, s.lists[k]))
    && (forall k | k in s.counts :: TotalOk(s, k.0, k.1, s.counts[k]))
  }

  /** The newest bump whose data a reader is committed to. */
  function Base(x: Reader): nat { if x.listKey.Some? then x.listKey.value else x.since }

  ghost predicate ReaderOk(s: State, r: nat)
    requires r < |s.readers|
  {
    var x := s.readers[r];
    && x.query.page >= 1
    && x.since <= Base(x) <= s.version
    && (x.countKey.Some? ==> Base(x) <= x.countKey.value <= s.version)
    && (x.listStage.Start? ==> x.listKey.None?)
    && (x.listStage.Start? || x.listStage.Looking? ==> x.rows.None? && x.total.None? && x.countStage.Start?)
    && (x.countStage.Start? ==> x.countKey.None? && x.total.None?)
    && (x.countStage.Start? || x.countStage.Looking? ==> x.total.None?)
    && (x.rows.Some? ==> RowsOk(s, Base(x), x.query, x.rows.value.0, x.rows.value.1))
    && (x.total.Some? ==>
         TotalOk(s, if x.countKey.Some? then x.countKey.value else Base(x), x.query.filter, x.total.value))
    && (x.result.Some? ==> PageOk(s, x.since, x.query, x.result.value))
  }

  ghost predicate Readers(s: State) {
    forall r | 0 <= r < |s.readers| :: ReaderOk(s, r)
  }

  /** The bump of a write saw that write. */
  ghost predicate Writers(s: State) {
    forall w | 0 <= w < |s.writers| ::
      s.writers[w].committed < |s.history| && (s.writers[w].bump.Some? ==> NoOlderBump(s, w))
  }

  ghost predicate NoOlderBump(s: State, w: nat)
    requires w < |s.writers| && s.writers[w].bump.Some?
  {
    s.writers[w].bump.value < |s.bumpedAt| && s.writers[w].committed <= s.bumpedAt[s.writers[w].bump.value]
  }

  ghost predicate Inv(s: State) {
    s.intact ==> Clock(s) && Entries(s) && Readers(s) && Writers(s)
  }

  // ---------------------------------------------------------------- one step keeps them

  /** History and bumps only grow. */
  ghost predicate Grown(s: State, s': State) {
    && |s.history| <= |s'.history| && (forall i | 0 <= i < |s.history| :: s'.history[i] == s.history[i])
    && |s.bumpedAt| <= |s'.bumpedAt| && (forall i | 0 <= i < |s.bumpedAt| :: s'.bumpedAt[i] == s.bumpedAt[i])
  }

  lemma StepGrows(s: State, step: Step)
    requires Enabled(s, step)
    ensures Grown(s, Apply(s, step))
  {
  }

  lemma TotalGrows(s: State, s': State, k: nat, f: Filter, t: Total)
    requires Grown(s, s') && TotalOk(s, k, f, t)
    ensures TotalOk(s', k, f, t)
  {
  }

  lemma RowsGrow(s: State, s': State, k: nat, q: Query, rows: seq<Order>, at: nat)
    requires q.page >= 1 && Grown(s, s') && RowsOk(s, k, q, rows, at)
    ensures RowsOk(s', k, q, rows, at)
  {
  }

  lemma PageGrows(s: State, s': State, k: nat, q: Query, p: Page)
    requires Grown(s, s') && PageOk(s, k, q, p)
    ensures PageOk(s', k, q, p)
  {
  }

  /** Data no older than a bump is no older than an earlier one. */
  lemma Earlier(s: State, j: nat, k: nat, q: Query, p: Page)
    requires Clock(s) && j <= k && PageOk(s, k, q, p)
    ensures PageOk(s, j, q, p)
  {
  }

  lemma ClockStep(s: State, step: Step)
    requires Clock(s) && Enabled(s, step) && !step.LoseVersion?
    ensures Clock(Apply(s, step))
  {
  }

  lemma WritersStep(s: State, step: Step)
    requires Clock(s) && Writers(s) && Enabled(s, step) && !step.LoseVersion?
    ensures Writers(Apply(s, step))
  {
    var s' := Apply(s, step);
    forall w | 0 <= w < |s'.writers|
      ensures s'.writers[w].committed < |s'.history| && (s'.writers[w].bump.Some? ==> NoOlderBump(s', w))
    {
      if w < |s.writers| { assert s.writers[w].bump.Some? ==> NoOlderBump(s, w); }
    }
  }

  /** What a reader has gathered is fit to be stored under its key. */
  lemma GatheredOk(s: State, r: nat)
    requires Clock(s) && r < |s.readers| && ReaderOk(s, r) && Complete(s.readers[r])
    ensures PageOk(s, Base(s.readers[r]), s.readers[r].query, ThePage(s.readers[r]))
  {
    var x := s.readers[r];
    var k := if x.countKey.Some? then x.countKey.value else Base(x);
    assert s.bumpedAt[Base(x)] <= s.bumpedAt[k];
  }

  lemma EntriesStep(s: State, step: Step)
    requires Clock(s) && Entries(s) && Readers(s) && Enabled(s, step) && !step.LoseVersion?
    ensures Entries(Apply(s, step))
  {
    var s' := Apply(s, step);
    StepGrows(s, step);
    forall k | k in s'.lists ensures PageOk(s', k.0, k.1, s'.lists[k]) {
      if step.StoreList? && k == (s.readers[step.reader].listKey.value, s.readers[step.reader].query) {
        assert ReaderOk(s, step.reader);
        GatheredOk(s, step.reader);
        PageGrows(s, s', k.0, k.1, s'.lists[k]);
      } else {
        PageGrows(s, s', k.0, k.1, s.lists[k]);
      }
    }
    forall k | k in s'.counts ensures TotalOk(s', k.0, k.1, s'.counts[k]) {
      if step.StoreCount? && k == (s.readers[step.reader].countKey.value, Normal(s.readers[step.reader].query.filter)) {
        assert ReaderOk(s, step.reader);
        NormalMatching(s.readers[step.reader].query.filter, s.history[s.readers[step.reader].total.value.at]);
        TotalGrows(s, s', k.0, k.1, s'.counts[k]);
      } else {
        TotalGrows(s, s', k.0, k.1, s.counts[k]);
      }
    }
  }

  /** A reader nothing happened to is still fine later. */
  lemma ReaderGrows(s: State, s': State, r: nat)
    requires Grown(s, s') && s.version <= s'.version && r < |s.readers| && ReaderOk(s, r)
    requires r < |s'.readers| && s'.readers[r] == s.readers[r]
    ensures ReaderOk(s', r)
  {
    var x := s.readers[r];
    if x.rows.Some? { RowsGrow(s, s', Base(x), x.query, x.rows.value.0, x.rows.value.1); }
    if x.total.Some? {
      TotalGrows(s, s', if x.countKey.Some? then x.countKey.value else Base(x), x.query.filter, x.total.value);
    }
    if x.result.Some? { PageGrows(s, s', x.since, x.query, x.result.value); }
  }

  /** A list hit: the entry was stored under the version the reader took, which is no older than its arrival. */
  lemma LookUpReader(s: State, r: nat)
    requires Clock(s) && Entries(s) && Enabled(s, LookUp(r)) && ReaderOk(s, r)
    ensures ReaderOk(SetReader(s, r, LookedUp(s, r)), r)
  {
    var x := s.readers[r];
    var k := (x.listKey.value, x.query);
    if k in s.lists {
      assert PageOk(s, k.0, k.1, s.lists[k]);
      Earlier(s, x.since, k.0, x.query, s.lists[k]);
    }
  }

  lemma LookUpCountReader(s: State, r: nat)
    requires Clock(s) && Entries(s) && Enabled(s, LookUpCount(r)) && ReaderOk(s, r)
    ensures ReaderOk(SetReader(s, r, LookedUpCount(s, r)), r)
  {
    var x := s.readers[r];
    var k := (x.countKey.value, Normal(x.query.filter));
    if k in s.counts {
      assert TotalOk(s, k.0, k.1, s.counts[k]);
      NormalMatching(x.query.filter, s.history[s.counts[k].at]);
    }
  }

  lemma ReturnReader(s: State, r: nat)
    requires Clock(s) && Enabled(s, Return(r)) && ReaderOk(s, r)
    ensures ReaderOk(Apply(s, Return(r)), r)
  {
    GatheredOk(s, r);
    Earlier(s, s.readers[r].since, Base(s.readers[r]), s.readers[r].query, ThePage(s.readers[r]));
  }

  lemma FetchReader(s: State, step: Step)
    requires Clock(s) && Enabled(s, step) && (step.FetchRows? || step.FetchCount?) && ReaderOk(s, step.reader)
    ensures ReaderOk(Apply(s, step), step.reader)
  {
    assert s.bumpedAt[s.version] <= Now(s);
  }

  predicate ByReader(step: Step) {
    step.ReadVersion? || step.LookUp? || step.CacheReadFails? || step.FetchRows? || step.ReadCountVersion?
    || step.LookUpCount? || step.CountReadFails? || step.FetchCount? || step.Return?
  }

  lemma OwnStep(s: State, step: Step)
    requires Clock(s) && Entries(s) && Enabled(s, step) && ByReader(step) && ReaderOk(s, step.reader)
    ensures ReaderOk(Apply(s, step), step.reader)
  {
    match step
    case LookUp(r) => LookUpReader(s, r);
    case LookUpCount(r) => LookUpCountReader(s, r);
    case FetchRows(r) => FetchReader(s, step);
    case FetchCount(r) => FetchReader(s, step);
    case Return(r) => ReturnReader(s, r);
    case _ =>
  }

  lemma OthersUntouched(s: State, step: Step, r: nat)
    requires Enabled(s, step) && r < |s.readers| && (ByReader(step) ==> step.reader != r)
    ensures r < |Apply(s, step).readers| && Apply(s, step).readers[r] == s.readers[r]
  {
  }

  lemma VersionGrows(s: State, step: Step)
    requires Enabled(s, step) && !step.LoseVersion?
    ensures s.version <= Apply(s, step).version
    ensures |s.readers| <= |Apply(s, step).readers| <= |s.readers| + (if step.Arrive? then 1 else 0)
  {
  }

  lemma ReadersStep(s: State, step: Step)
    requires Clock(s) && Entries(s) && Readers(s) && Enabled(s, step) && !step.LoseVersion?
    ensures Readers(Apply(s, step))
  {
    var s' := Apply(s, step);
    StepGrows(s, step);
    VersionGrows(s, step);
    forall r | 0 <= r < |s'.readers| ensures ReaderOk(s', r) {
      if r < |s.readers| {
        assert ReaderOk(s, r);
        if ByReader(step) && step.reader == r {
          OwnStep(s, step);
        } else {
          OthersUntouched(s, step, r);
          ReaderGrows(s, s', r);
        }
      } else {
        assert step.Arrive?;
      }
    }
  }

  lemma InvStep(s: State, step: Step)
    requires Inv(s) && Enabled(s, step)
    ensures Inv(Apply(s, step))
  {
    if s.intact && !step.LoseVersion? {
      ClockStep(s, step);
      EntriesStep(s, step);
      ReadersStep(s, step);
      WritersStep(s, step);
    } else {
      NotIntact(s, step);
    }
  }

  lemma NotIntact(s: State, step: Step)
    requires Enabled(s, step) && (!s.intact || step.LoseVersion?)
    ensures !Apply(s, step).intact
  {
  }

  // ---------------------------------------------------------------- runs

  ghost function Machine(): Runs.System<State, Step> {
    Runs.System(s => exists table :: s == Fresh(table), (s, step) => Enabled(s, step),
                (s, step) => if Enabled(s, step) then Apply(s, step) else s)
  }

  ghost predicate Reachable(s: State) { Runs.Reaches(Machine(), s) }

  lemma ReachableInit(table: seq<Order>)
    ensures Reachable(Fresh(table))
  {
    Runs.Start(Machine(), Fresh(table));
  }

  lemma ReachableStep(s: State, step: Step, s': State)
    requires Reachable(s) && Enabled(s, step) && Apply(s, step) == s'
    ensures Reachable(s')
  {
    Runs.Go(Machine(), s, step, s');
  }

  lemma InvReachable(s: State)
    requires Reachable(s)
    ensures Inv(s)
  {
    forall x, step | Inv(x) && Enabled(x, step) ensures Inv(Apply(x, step)) { InvStep(x, step); }
    Runs.Invariant(Machine(), Inv, s);
  }

  // ---------------------------------------------------------------- theorems

  /**
    Coherence. A list response, cached or not, is built from true rows and a true count of
    database states no older than any write whose bump took effect before the request arrived.
    It holds over all interleavings, evictions, failed cache calls and stores that land late,
    as long as Redis never loses the version key.
  */
  lemma ListCoherence(s: State, r: nat, w: nat)
    requires Reachable(s) && s.intact
    requires r < |s.readers| && s.readers[r].result.Some?
    requires w < |s.writers| && s.writers[w].bump.Some? && s.writers[w].bump.value <= s.readers[r].since
    ensures var p := s.readers[r].result.value;
      && s.writers[w].committed <= p.rowsAt < |s.history| && s.writers[w].committed <= p.totalAt < |s.history|
      && s.readers[r].query.page >= 1
      && p.rows == PageRows(s.readers[r].query, s.history[p.rowsAt])
      && p.total == Count(s.readers[r].query.filter, s.history[p.totalAt])
  {
    InvReachable(s);
    assert ReaderOk(s, r) && NoOlderBump(s, w);
    assert s.bumpedAt[s.writers[w].bump.value] <= s.bumpedAt[s.readers[r].since];
  }

  /** What is stored under a version was read no earlier than the bump that made the version. */
  lemma EntriesAreFresh(s: State, k: (nat, Query), c: (nat, Filter))
    requires Reachable(s) && s.intact
    ensures k in s.lists ==> PageOk(s, k.0, k.1, s.lists[k])
    ensures c in s.counts ==> TotalOk(s, c.0, c.1, s.counts[c])
  {
    InvReachable(s);
  }

  /** An entry may go at any time: evicted, or expired. */
  lemma EntriesMayGo(s: State, k: (nat, Query), c: (nat, Filter))
    requires Reachable(s)
    ensures Reachable(Apply(s, EvictList(k))) && k !in Apply(s, EvictList(k)).lists
    ensures Reachable(Apply(s, EvictCount(c))) && c !in Apply(s, EvictCount(c)).counts
  {
    ReachableStep(s, EvictList(k), Apply(s, EvictList(k)));
    ReachableStep(s, EvictCount(c), Apply(s, EvictCount(c)));
  }

  // ---------------------------------------------------------------- why the version key must stay

  const ANY := Query(Filter("u", None, None, None, None), 1, 20)
  const ROW := Order(0, "u", "", Pending, 0)
  const EMPTY_PAGE := Page([], 0, 0, 0)

  function Asking(listKey: Option<nat>): Reader {
    Reader(ANY, 0, Fetching, listKey, None, Fetching, None, None, false, None)
  }

  const ANSWERED :=
    Asking(Some(0)).(rows := Some(([], 0)), total := Some(Total(0, 0)), own := true, result := Some(EMPTY_PAGE))

  lemma FirstAnswer()
    ensures Reachable(Fresh([]).(readers := [ANSWERED]))
  {
    var s0 := Fresh([]);
    ReachableInit([]);
    var x := Reader(ANY, 0, Start, None, None, Start, None, None, false, None);
    ReachableStep(s0, Arrive(ANY), s0.(readers := [x]));
    var x1 := x.(listStage := Looking, listKey := Some(0));
    ReachableStep(s0.(readers := [x]), ReadVersion(0), s0.(readers := [x1]));
    var x2 := x1.(listStage := Fetching);
    ReachableStep(s0.(readers := [x1]), LookUp(0), s0.(readers := [x2]));
    ReachableStep(s0.(readers := [x2]), CountReadFails(0), s0.(readers := [Asking(Some(0))]));
    FirstFetch();
  }

  lemma FirstFetch()
    requires Reachable(Fresh([]).(readers := [Asking(Some(0))]))
    ensures Reachable(Fresh([]).(readers := [ANSWERED]))
  {
    var s0 := Fresh([]);
    var x1 := Asking(Some(0)).(rows := Some(([], 0)));
    ReachableStep(s0.(readers := [Asking(Some(0))]), FetchRows(0), s0.(readers := [x1]));
    var x2 := x1.(total := Some(Total(0, 0)), own := true);
    ReachableStep(s0.(readers := [x1]), FetchCount(0), s0.(readers := [x2]));
    ReachableStep(s0.(readers := [x2]), Return(0), s0.(readers := [ANSWERED]));
  }

  /** The state after a page was cached, a row was written and the namespace bumped, with the version key then lost. */
  const LOST :=
    State([[], [ROW]], 0, [0, 1], map[(0, ANY) := EMPTY_PAGE], map[], [ANSWERED], [Writer(1, Some(1))], false)

  lemma ReachLost()
    ensures Reachable(LOST)
  {
    FirstAnswer();
    var s0 := Fresh([]).(readers := [ANSWERED]);
    var s1 := s0.(lists := map[(0, ANY) := EMPTY_PAGE]);
    ReachableStep(s0, StoreList(0), s1);
    var s2 := s1.(history := [[], [ROW]], writers := [Writer(1, None)]);
    ReachableStep(s1, Write([ROW]), s2);
    var s3 := s2.(version := 1, bumpedAt := [0, 1], writers := [Writer(1, Some(1))]);
    ReachableStep(s2, Bump(0), s3);
    ReachableStep(s3, LoseVersion, LOST);
  }

  /** If Redis loses the version key after a bump, a later request is served a page from before the write. */
  lemma LostVersionServesStale() returns (s: State)
    ensures Reachable(LOST) && LOST.writers[0].bump.Some?
    ensures Reachable(s) && |s.readers| == |LOST.readers| + 1 && s.writers == LOST.writers
    ensures s.readers[1].result.Some? && s.readers[1].result.value.rowsAt < s.writers[0].committed
  {
    ReachLost();
    var x := Reader(ANY, 0, Start, None, None, Start, None, None, false, None);
    var s1 := LOST.(readers := [ANSWERED, x]);
    ReachableStep(LOST, Arrive(ANY), s1);
    var s2 := LOST.(readers := [ANSWERED, x.(listStage := Looking, listKey := Some(0))]);
    ReachableStep(s1, ReadVersion(1), s2);
    s := LOST.(readers := [ANSWERED, x.(listStage := Served, listKey := Some(0), result := Some(EMPTY_PAGE))]);
    ReachableStep(s2, LookUp(1), s);
  }
}
