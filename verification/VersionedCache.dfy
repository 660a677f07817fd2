/**
  The namespace-versioned list and count caches as a transition system: readers that take a
  version, look up, fetch and store; writers that commit and then bump; entries that may be
  evicted, and stores that may land late. The database history is kept, so "at least as new
  as" has a meaning.
*/
module VersionedCache {
  import opened Shared
  import opened OrderListing

  /** A cached or returned page: `rowsAt` and `totalAt` are the database states they were read from. */
  datatype Page = Page(rows: seq<Order>, rowsAt: nat, total: nat, totalAt: nat)

  datatype Total = Total(n: nat, at: nat)

  datatype Stage = Start | Looking | Fetching | Served

  /**
    One GET. `since` is the namespace version when it arrived; `listKey` and `countKey` the
    versions it put in its cache keys, `None` after a failed cache read; `own` whether its total is
    its own count rather than a cached one.
  */
  datatype Reader = Reader(
    query: Query,
    since: nat,
    listStage: Stage,
    listKey: Option<nat>,
    rows: Option<(seq<Order>, nat)>,
    countStage: Stage,
    countKey: Option<nat>,
    total: Option<Total>,
    own: bool,
    result: Option<Page>)

  /** One write: the database state it committed, and the version its bump made. */
  datatype Writer = Writer(committed: nat, bump: Option<nat>)

  datatype State = State(
    history: seq<seq<Order>>,
    version: nat,
    bumpedAt: seq<nat>,
    lists: map<(nat, Query), Page>,
    counts: map<(nat, Filter), Total>,
    readers: seq<Reader>,
    writers: seq<Writer>,
    intact: bool)

  function Fresh(table: seq<Order>): State {
    State([table], 0, [0], map[], map[], [], [], true)
  }

  datatype Step =
    | Write(table: seq<Order>)
    | Bump(writer: nat)
    | Arrive(query: Query)
    | ReadVersion(reader: nat)
    | LookUp(reader: nat)
    | CacheReadFails(reader: nat)
    | FetchRows(reader: nat)
    | ReadCountVersion(reader: nat)
    | LookUpCount(reader: nat)
    | CountReadFails(reader: nat)
    | FetchCount(reader: nat)
    | StoreCount(reader: nat)
    | Return(reader: nat)
    | StoreList(reader: nat)
    | EvictList(listKey: (nat, Query))
    | EvictCount(countKey: (nat, Filter))
    | LoseVersion

  function Now(s: State): nat
    requires |s.history| > 0
  {
    |s.history| - 1
  }

  predicate In(s: State, r: nat) { r < |s.readers| && |s.history| > 0 && s.readers[r].query.page >= 1 }

  predicate Busy(s: State, r: nat) { In(s, r) && s.readers[r].result.None? && s.readers[r].listStage.Fetching? }

  predicate Complete(x: Reader) { x.listStage.Fetching? && x.rows.Some? && x.total.Some? }

  predicate Enabled(s: State, step: Step) {
    match step
    case Write(_) => true
    case Bump(w) => w < |s.writers| && |s.history| > 0
    case Arrive(q) => ValidQuery(q)
    case ReadVersion(r) => In(s, r) && s.readers[r].listStage.Start?
    case LookUp(r) => In(s, r) && s.readers[r].listStage.Looking? && s.readers[r].listKey.Some?
    case CacheReadFails(r) => In(s, r) && (s.readers[r].listStage.Start? || s.readers[r].listStage.Looking?)
    case FetchRows(r) => Busy(s, r) && s.readers[r].rows.None?
    case ReadCountVersion(r) => Busy(s, r) && s.readers[r].countStage.Start?
    case LookUpCount(r) => Busy(s, r) && s.readers[r].countStage.Looking? && s.readers[r].countKey.Some?
    case CountReadFails(r) => Busy(s, r) && (s.readers[r].countStage.Start? || s.readers[r].countStage.Looking?)
    case FetchCount(r) => Busy(s, r) && s.readers[r].countStage.Fetching? && s.readers[r].total.None?
    case StoreCount(r) => In(s, r) && s.readers[r].own && s.readers[r].total.Some? && s.readers[r].countKey.Some?
    case Return(r) => Busy(s, r) && Complete(s.readers[r])
    case StoreList(r) => In(s, r) && Complete(s.readers[r]) && s.readers[r].listKey.Some?
    case EvictList(_) => true
    case EvictCount(_) => true
    case LoseVersion => true
  }

  // ---------------------------------------------------------------- effects

  function SetReader(s: State, r: nat, x: Reader): State
    requires r < |s.readers|
  {
    s.(readers := s.readers[r := x])
  }

  function Written(s: State, table: seq<Order>): State {
    s.(history := s.history + [table], writers := s.writers + [Writer(|s.history|, None)])
  }

  /** INCR. A bump whose reply was lost may be followed by no other; the first one counts. */
  function Bumped(s: State, w: nat): State
    requires w < |s.writers| && |s.history| > 0
  {
    var x := s.writers[w];
    s.(version := s.version + 1,
       bumpedAt := s.bumpedAt + [Now(s)],
       writers := s.writers[w := if x.bump.None? then x.(bump := Some(s.version + 1)) else x])
  }

  function Arrived(s: State, q: Query): State {
    s.(readers := s.readers + [Reader(q, s.version, Start, None, None, Start, None, None, false, None)])
  }

  function LookedUp(s: State, r: nat): Reader
    requires In(s, r) && s.readers[r].listKey.Some?
  {
    var x := s.readers[r];
    var k := (x.listKey.value, x.query);
    if k in s.lists then x.(listStage := Served, result := Some(s.lists[k])) else x.(listStage := Fetching)
  }

  function LookedUpCount(s: State, r: nat): Reader
    requires In(s, r) && s.readers[r].countKey.Some?
  {
    var x := s.readers[r];
    var k := (x.countKey.value, Normal(x.query.filter));
    if k in s.counts then x.(countStage := Served, total := Some(s.counts[k])) else x.(countStage := Fetching)
  }

  function ThePage(x: Reader): Page
    requires Complete(x)
  {
    Page(x.rows.value.0, x.rows.value.1, x.total.value.n, x.total.value.at)
  }

  function Apply(s: State, step: Step): State
    requires Enabled(s, step)
  {
    match step
    case Write(table) => Written(s, table)
    case Bump(w) => Bumped(s, w)
    case Arrive(q) => Arrived(s, q)
    case ReadVersion(r) => SetReader(s, r, s.readers[r].(listStage := Looking, listKey := Some(s.version)))
    case LookUp(r) => SetReader(s, r, LookedUp(s, r))
    case CacheReadFails(r) => SetReader(s, r, s.readers[r].(listStage := Fetching, listKey := None))
    case FetchRows(r) =>
      SetReader(s, r, s.readers[r].(rows := Some((PageRows(s.readers[r].query, s.history[Now(s)]), Now(s)))))
    case ReadCountVersion(r) => SetReader(s, r, s.readers[r].(countStage := Looking, countKey := Some(s.version)))
    case LookUpCount(r) => SetReader(s, r, LookedUpCount(s, r))
    case CountReadFails(r) => SetReader(s, r, s.readers[r].(countStage := Fetching, countKey := None))
    case FetchCount(r) =>
      SetReader(s, r, s.readers[r].(total :=
        Some(Total(Count(s.readers[r].query.filter, s.history[Now(s)]), Now(s))), own := true))
    case StoreCount(r) =>
      s.(counts := s.counts[(s.readers[r].countKey.value, Normal(s.readers[r].query.filter)) :=
        s.readers[r].total.value])
    case Return(r) => SetReader(s, r, s.readers[r].(result := Some(ThePage(s.readers[r]))))
    case StoreList(r) => s.(lists := s.lists[(s.readers[r].listKey.value, s.readers[r].query) := ThePage(s.readers[r])])
    case EvictList(k) => s.(lists := s.lists - {k})
    case EvictCount(k) => s.(counts := s.counts - {k})
    case LoseVersion => s.(version := 0, intact := false)
  }
}
