/**
  `withEntityCache` around GET /v1/orders/:id, with the delete of a PATCH as its only
  invalidation: readers and writers step by step, cache entries that expire, sets that land
  late or never, and a clock.
*/
module EntityCache {
  import opened Shared
  import OrderAudit
  import Runs

  type Order = OrderAudit.Order

  /** The key holds the id as the client spelt it: upper-case digits name the same row under another key. */
  datatype Key = Key(id: nat, spelling: nat)

  /** One version of a row, and when it was committed. */
  datatype Row = Row(order: Order, since: nat)

  datatype Entry = Entry(version: nat, reader: nat, expiresAt: nat)

  datatype Phase = Start | Fetching | Done

  /**
    One GET. `version`: the version it returns, if any; `at`: when it looked it up (a hit) or
    fetched it; `landedAt`: when its set took effect; `deletes`: how many deletes came before its lookup.
  */
  datatype Reader = Reader(key: Key, phase: Phase, hit: bool, version: Option<nat>, at: nat, landedAt: Option<nat>,
                           deletes: nat)

  /**
    One PATCH that wrote `version`. `deleted`: the number of its delete; `spanning`: the readers
    of its key that, at the delete, had fetched an older version and not yet set it.
  */
  datatype Writer = Writer(key: Key, version: nat, deleted: Option<nat>, spanning: set<nat>)

  datatype State = State(now: nat, rows: map<nat, seq<Row>>, cache: map<Key, Entry>, readers: seq<Reader>,
                         writers: seq<Writer>, deletes: nat)

  const NOTHING := State(0, map[], map[], [], [], 0)

  datatype Step =
    | Pass(seconds: nat)
    | Insert(id: nat, user: nat)
    | Change(key: Key, status: Status)
    | Delete(writer: nat)
    | Ask(key: Key)
    | LookUp(reader: nat)
    | ReadFails(reader: nat)
    | Fetch(reader: nat)
    | SetLands(reader: nat)
    | Evict(key: Key)

  predicate Visible(s: State, k: Key) { k in s.cache && s.now < s.cache[k].expiresAt }

  /** It has fetched a row and not (yet) put it into the cache. */
  predicate Unset(x: Reader) { x.phase.Done? && !x.hit && x.version.Some? && x.landedAt.None? }

  predicate Can(s: State, step: Step) {
    match step
    case Pass(_) => true
    case Insert(id, _) => id !in s.rows
    case Change(k, _) => k.id in s.rows && s.rows[k.id] != []
    case Delete(w) => w < |s.writers| && s.writers[w].deleted.None?
    case Ask(_) => true
    case LookUp(r) => r < |s.readers| && s.readers[r].phase.Start?
    case ReadFails(r) => r < |s.readers| && s.readers[r].phase.Start?
    case Fetch(r) => r < |s.readers| && s.readers[r].phase.Fetching?
    case SetLands(r) => r < |s.readers| && Unset(s.readers[r])
    case Evict(_) => true
  }

  function Put(s: State, r: nat, x: Reader): State
    requires r < |s.readers|
  {
    s.(readers := s.readers[r := x])
  }

  function Latest(s: State, id: nat): Option<nat> {
    if id in s.rows && s.rows[id] != [] then Some(|s.rows[id]| - 1) else None
  }

  function LookedUp(s: State, r: nat): State
    requires r < |s.readers|
  {
    var x := s.readers[r];
    if Visible(s, x.key) then
      Put(s, r, x.(phase := Done, hit := true, version := Some(s.cache[x.key].version), at := s.now,
        deletes := s.deletes))
    else Put(s, r, x.(phase := Fetching))
  }

  function Spanning(s: State, w: nat): set<nat>
    requires w < |s.writers|
  {
    set r | 0 <= r < |s.readers| && Unset(s.readers[r]) && s.readers[r].key == s.writers[w].key
            && s.readers[r].version.value < s.writers[w].version
  }

  function Changed(s: State, k: Key, status: Status): State
    requires k.id in s.rows && s.rows[k.id] != []
  {
    var row := s.rows[k.id][|s.rows[k.id]| - 1].order.(status := status);
    s.(rows := s.rows[k.id := s.rows[k.id] + [Row(row, s.now)]],
       writers := s.writers + [Writer(k, |s.rows[k.id]|, None, {})])
  }

  function Next(ttl: nat, s: State, step: Step): State
    requires Can(s, step)
  {
    match step
    case Pass(seconds) => s.(now := s.now + seconds)
    case Insert(id, user) => s.(rows := s.rows[id := [Row(OrderAudit.Order(user, Pending), s.now)]])
    case Change(k, status) => Changed(s, k, status)
    case Delete(w) =>
      s.(cache := s.cache - {s.writers[w].key}, deletes := s.deletes + 1,
         writers := s.writers[w := s.writers[w].(deleted := Some(s.deletes), spanning := Spanning(s, w))])
    case Ask(k) => s.(readers := s.readers + [Reader(k, Start, false, None, 0, None, 0)])
    case LookUp(r) => LookedUp(s, r)
    case ReadFails(r) => Put(s, r, s.readers[r].(phase := Fetching))
    case Fetch(r) => Put(s, r, s.readers[r].(phase := Done, version := Latest(s, s.readers[r].key.id), at := s.now))
    case SetLands(r) =>
      Put(s, r, s.readers[r].(landedAt := Some(s.now)))
        .(cache := s.cache[s.readers[r].key := Entry(s.readers[r].version.value, r, s.now + ttl)])
    case Evict(k) => s.(cache := s.cache - {k})
  }

  // ---------------------------------------------------------------- what holds in every run

  /** Version `v` of row `id` was current at time `m`. */
  ghost predicate CurrentAt(s: State, id: nat, v: nat, m: nat) {
    && id in s.rows && v < |s.rows[id]| && s.rows[id][v].since <= m <= s.now
    && (v + 1 < |s.rows[id]| ==> m <= s.rows[id][v + 1].since)
  }

  ghost predicate Since(rows: seq<Row>, i: int, now: nat)
    requires 0 <= i < |rows|
  {
    rows[i].since <= now && rows[i].order.user == rows[0].order.user && (i > 0 ==> rows[i - 1].since <= rows[i].since)
  }

  ghost predicate RowsOk(s: State, id: nat)
    requires id in s.rows
  {
    s.rows[id] != [] && forall i | 0 <= i < |s.rows[id]| :: Since(s.rows[id], i, s.now)
  }

  /** An entry is what its reader fetched, and expires a TTL after its set. */
  ghost predicate EntryOk(ttl: nat, s: State, k: Key)
    requires k in s.cache
  {
    var e := s.cache[k];
    && e.reader < |s.readers|
    && var x := s.readers[e.reader];
       x.phase.Done? && !x.hit && x.key == k && x.version == Some(e.version)
       && x.landedAt.Some? && x.at <= x.landedAt.value <= s.now && e.expiresAt == x.landedAt.value + ttl
  }

  /** `x` is the reader whose set a hit was served from. */
  ghost predicate ServedFrom(ttl: nat, s: State, r: nat, f: nat)
    requires r < |s.readers|
  {
    && f < |s.readers| && s.readers[f].phase.Done? && !s.readers[f].hit && s.readers[f].key == s.readers[r].key
    && s.readers[f].version == s.readers[r].version && s.readers[f].landedAt.Some?
    && s.readers[f].at <= s.readers[f].landedAt.value <= s.readers[r].at < s.readers[f].landedAt.value + ttl
  }

  ghost predicate ReaderOk(ttl: nat, s: State, r: nat)
    requires r < |s.readers|
  {
    var x := s.readers[r];
    && x.at <= s.now && x.deletes <= s.deletes
    && (!x.phase.Done? ==> !x.hit && x.version.None? && x.landedAt.None?)
    && (x.hit ==> x.version.Some? && x.landedAt.None?)
    && (x.landedAt.Some? ==> x.version.Some? && x.at <= x.landedAt.value <= s.now)
    && (x.version.Some? && !x.hit ==> CurrentAt(s, x.key.id, x.version.value, x.at))
    && (x.hit ==> exists f: nat :: ServedFrom(ttl, s, r, f))
  }

  ghost predicate Data(ttl: nat, s: State) {
    && (forall id | id in s.rows :: RowsOk(s, id))
    && (forall k | k in s.cache :: EntryOk(ttl, s, k))
    && (forall r | 0 <= r < |s.readers| :: ReaderOk(ttl, s, r))
  }

  /** No reader that spanned the delete of `w` has put its stale row into the cache. */
  ghost predicate Unspanned(s: State, w: nat)
    requires w < |s.writers|
  {
    forall r | r in s.writers[w].spanning && r < |s.readers| :: s.readers[r].landedAt.None?
  }

  /** After its delete, neither the entry of a write's key nor any row about to be set is older than the write. */
  ghost predicate WriterOk(s: State, w: nat)
    requires w < |s.writers|
  {
    var x := s.writers[w];
    && x.key.id in s.rows && x.version < |s.rows[x.key.id]|
    && (forall r | r in x.spanning :: r < |s.readers|)
    && (x.deleted.Some? ==> x.deleted.value < s.deletes)
    && (x.deleted.Some? && Unspanned(s, w) ==>
          && (x.key in s.cache ==> s.cache[x.key].version >= x.version)
          && (forall r | 0 <= r < |s.readers| :: Newer(s, w, r)))
  }

  ghost predicate Newer(s: State, w: nat, r: nat)
    requires w < |s.writers| && r < |s.readers|
  {
    var x, y := s.writers[w], s.readers[r];
    y.key == x.key && y.version.Some? && x.deleted.Some? ==>
      && (Unset(y) && r !in x.spanning ==> y.version.value >= x.version)
      && (y.hit && x.deleted.value < y.deletes ==> y.version.value >= x.version)
  }

  ghost predicate Inv(ttl: nat, s: State) { Data(ttl, s) && forall w | 0 <= w < |s.writers| :: WriterOk(s, w) }

  // ---------------------------------------------------------------- one step keeps it

  lemma CurrentStays(ttl: nat, s: State, step: Step, id: nat, v: nat, m: nat)
    requires Data(ttl, s) && Can(s, step) && CurrentAt(s, id, v, m)
    ensures CurrentAt(Next(ttl, s, step), id, v, m)
  {
    if step.Change? { assert RowsOk(s, step.key.id); }
  }

  lemma RowsStep(ttl: nat, s: State, step: Step, id: nat)
    requires Data(ttl, s) && Can(s, step) && id in Next(ttl, s, step).rows
    ensures RowsOk(Next(ttl, s, step), id)
  {
    var s' := Next(ttl, s, step);
    if id in s.rows {
      assert RowsOk(s, id);
      forall i | 0 <= i < |s'.rows[id]| ensures Since(s'.rows[id], i, s'.now) {
        if i < |s.rows[id]| { assert Since(s.rows[id], i, s.now); }
        assert Since(s.rows[id], |s.rows[id]| - 1, s.now);
      }
    }
  }

  lemma EntryStep(ttl: nat, s: State, step: Step, k: Key)
    requires Data(ttl, s) && Can(s, step) && k in Next(ttl, s, step).cache
    ensures EntryOk(ttl, Next(ttl, s, step), k)
  {
    if step.SetLands? { assert ReaderOk(ttl, s, step.reader); }
    if k in s.cache {
      assert EntryOk(ttl, s, k);
      assert s.cache[k].reader < |s.readers|;
    }
  }

  lemma ServedStays(ttl: nat, s: State, step: Step, r: nat, f: nat)
    requires Can(s, step) && r < |s.readers| && s.readers[r].phase.Done? && ServedFrom(ttl, s, r, f)
    requires s.readers[r].hit
    ensures r < |Next(ttl, s, step).readers| && ServedFrom(ttl, Next(ttl, s, step), r, f)
  {
  }

  lemma HitReader(ttl: nat, s: State, r: nat)
    requires Data(ttl, s) && Can(s, LookUp(r)) && Visible(s, s.readers[r].key)
    ensures ReaderOk(ttl, Next(ttl, s, LookUp(r)), r)
  {
    var k := s.readers[r].key;
    assert EntryOk(ttl, s, k) && ReaderOk(ttl, s, r);
    assert ServedFrom(ttl, Next(ttl, s, LookUp(r)), r, s.cache[k].reader);
  }

  lemma FetchReader(ttl: nat, s: State, r: nat)
    requires Data(ttl, s) && Can(s, Fetch(r))
    ensures ReaderOk(ttl, Next(ttl, s, Fetch(r)), r)
  {
    var id := s.readers[r].key.id;
    assert ReaderOk(ttl, s, r);
    if id in s.rows {
      assert RowsOk(s, id);
      assert Since(s.rows[id], |s.rows[id]| - 1, s.now);
    }
  }

  lemma ReaderStep(ttl: nat, s: State, step: Step, r: nat)
    requires Data(ttl, s) && Can(s, step) && r < |Next(ttl, s, step).readers|
    ensures ReaderOk(ttl, Next(ttl, s, step), r)
  {
    if step == LookUp(r) && Visible(s, s.readers[r].key) {
      HitReader(ttl, s, r);
    } else if step == Fetch(r) {
      FetchReader(ttl, s, r);
    } else if r < |s.readers| {
      assert ReaderOk(ttl, s, r);
      var x := s.readers[r];
      if x.version.Some? && !x.hit { CurrentStays(ttl, s, step, x.key.id, x.version.value, x.at); }
      if x.hit {
        var f: nat :| ServedFrom(ttl, s, r, f);
        ServedStays(ttl, s, step, r, f);
      }
    }
  }

  lemma DataStep(ttl: nat, s: State, step: Step)
    requires Data(ttl, s) && Can(s, step)
    ensures Data(ttl, Next(ttl, s, step))
  {
    var s' := Next(ttl, s, step);
    forall id | id in s'.rows ensures RowsOk(s', id) { RowsStep(ttl, s, step, id); }
    forall k | k in s'.cache ensures EntryOk(ttl, s', k) { EntryStep(ttl, s, step, k); }
    forall r | 0 <= r < |s'.readers| ensures ReaderOk(ttl, s', r) { ReaderStep(ttl, s, step, r); }
  }

  /** Sets are never undone, and `spanning` is fixed once the delete has happened. */
  lemma SpanStays(ttl: nat, s: State, step: Step, w: nat)
    requires Data(ttl, s) && Can(s, step) && w < |s.writers| && s.writers[w].deleted.Some?
    requires forall r | r in s.writers[w].spanning :: r < |s.readers|
    ensures w < |Next(ttl, s, step).writers| && Next(ttl, s, step).writers[w] == s.writers[w]
    ensures Unspanned(Next(ttl, s, step), w) ==> Unspanned(s, w)
  {
    var s' := Next(ttl, s, step);
    if Unspanned(s', w) {
      forall r | r in s.writers[w].spanning && r < |s.readers| ensures s.readers[r].landedAt.None? {
        assert s'.readers[r].landedAt.None?;
        assert ReaderOk(ttl, s, r);
      }
    }
  }

  lemma NewerStep(ttl: nat, s: State, step: Step, w: nat, r: nat)
    requires Data(ttl, s) && Can(s, step) && w < |s.writers| && WriterOk(s, w) && s.writers[w].deleted.Some?
    requires Unspanned(s, w) && r < |Next(ttl, s, step).readers|
    ensures w < |Next(ttl, s, step).writers| && Newer(Next(ttl, s, step), w, r)
  {
    if r < |s.readers| {
      assert Newer(s, w, r) && ReaderOk(ttl, s, r);
    }
  }

  lemma EntryNewer(ttl: nat, s: State, step: Step, w: nat)
    requires Data(ttl, s) && Can(s, step) && w < |s.writers| && WriterOk(s, w) && s.writers[w].deleted.Some?
    requires Unspanned(s, w) && w < |Next(ttl, s, step).writers| && Unspanned(Next(ttl, s, step), w)
    requires Next(ttl, s, step).writers[w] == s.writers[w]
    requires s.writers[w].key in Next(ttl, s, step).cache
    ensures Next(ttl, s, step).cache[s.writers[w].key].version >= s.writers[w].version
  {
    if step.SetLands? && s.readers[step.reader].key == s.writers[w].key {
      assert step.reader !in s.writers[w].spanning;
      assert Newer(s, w, step.reader);
    }
  }

  lemma DeleteNow(ttl: nat, s: State, w: nat)
    requires Data(ttl, s) && Can(s, Delete(w)) && WriterOk(s, w)
    ensures WriterOk(Next(ttl, s, Delete(w)), w)
  {
    var s' := Next(ttl, s, Delete(w));
    forall r | 0 <= r < |s'.readers| ensures Newer(s', w, r) { assert ReaderOk(ttl, s, r); }
  }

  lemma WriterStep(ttl: nat, s: State, step: Step, w: nat)
    requires Inv(ttl, s) && Can(s, step) && w < |Next(ttl, s, step).writers|
    ensures WriterOk(Next(ttl, s, step), w)
  {
    var s' := Next(ttl, s, step);
    if w < |s.writers| {
      assert WriterOk(s, w);
      if step == Delete(w) {
        DeleteNow(ttl, s, w);
      } else if s.writers[w].deleted.Some? {
        SpanStays(ttl, s, step, w);
        if Unspanned(s', w) {
          if s.writers[w].key in s'.cache { EntryNewer(ttl, s, step, w); }
          forall r | 0 <= r < |s'.readers| ensures Newer(s', w, r) { NewerStep(ttl, s, step, w, r); }
        }
      }
    }
  }

  lemma InvStep(ttl: nat, s: State, step: Step)
    requires Inv(ttl, s) && Can(s, step)
    ensures Inv(ttl, Next(ttl, s, step))
  {
    DataStep(ttl, s, step);
    forall w | 0 <= w < |Next(ttl, s, step).writers|
      ensures WriterOk(Next(ttl, s, step), w)
    {
      WriterStep(ttl, s, step, w);
    }
  }

  // ---------------------------------------------------------------- runs

  ghost function Machine(ttl: nat): Runs.System<State, Step> {
    Runs.System(s => s == NOTHING, (s, step) => Can(s, step),
                (s, step) => if Can(s, step) then Next(ttl, s, step) else s)
  }

  ghost predicate Reachable(ttl: nat, s: State) { Runs.Reaches(Machine(ttl), s) }

  lemma ReachableInit(ttl: nat)
    ensures Reachable(ttl, NOTHING)
  {
    Runs.Start(Machine(ttl), NOTHING);
  }

  lemma ReachableStep(ttl: nat, s: State, step: Step, s': State)
    requires Reachable(ttl, s) && Can(s, step) && Next(ttl, s, step) == s'
    ensures Reachable(ttl, s')
  {
    Runs.Go(Machine(ttl), s, step, s');
  }

  lemma InvReachable(ttl: nat, s: State)
    requires Reachable(ttl, s)
    ensures Inv(ttl, s)
  {
    forall x, step | Inv(ttl, x) && Can(x, step) ensures Inv(ttl, Next(ttl, x, step)) { InvStep(ttl, x, step); }
    Runs.Invariant(Machine(ttl), x => Inv(ttl, x), s);
  }

  // ---------------------------------------------------------------- theorems

  /** Every set took effect within `delay` seconds of its fetch. */
  ghost predicate Prompt(s: State, delay: nat) {
    forall r | 0 <= r < |s.readers| && s.readers[r].landedAt.Some? ::
      s.readers[r].landedAt.value <= s.readers[r].at + delay
  }

  /** A hit returns what the row was at some moment less than TTL plus `delay` before the lookup. */
  lemma HitIsRecent(ttl: nat, s: State, r: nat, delay: nat)
    requires Reachable(ttl, s) && Prompt(s, delay) && r < |s.readers| && s.readers[r].hit
    ensures s.readers[r].version.Some?
    ensures exists m: nat ::
      CurrentAt(s, s.readers[r].key.id, s.readers[r].version.value, m) && m <= s.readers[r].at < m + ttl + delay
  {
    InvReachable(ttl, s);
    assert ReaderOk(ttl, s, r);
    var f: nat :| ServedFrom(ttl, s, r, f);
    assert ReaderOk(ttl, s, f);
    assert CurrentAt(s, s.readers[r].key.id, s.readers[r].version.value, s.readers[f].at);
  }

  /**
    A hit looked up after the delete of a PATCH is at least as new as that PATCH, if they spell
    the id alike and no reader whose fetch and set lie on either side of the delete set its row.
  */
  lemma HitSeesWrite(ttl: nat, s: State, r: nat, w: nat)
    requires Reachable(ttl, s) && r < |s.readers| && w < |s.writers|
    requires s.readers[r].hit && s.writers[w].deleted.Some? && s.writers[w].deleted.value < s.readers[r].deletes
    requires s.readers[r].key == s.writers[w].key && Unspanned(s, w)
    ensures s.readers[r].version.Some? && s.readers[r].version.value >= s.writers[w].version
  {
    InvReachable(ttl, s);
    assert ReaderOk(ttl, s, r) && WriterOk(s, w) && Newer(s, w, r);
  }

  /** Row `id` was `order` at time `m`. */
  ghost predicate WasCurrent(s: State, id: nat, order: Order, m: nat) {
    exists v: nat :: CurrentAt(s, id, v, m) && s.rows[id][v].order == order
  }

  /**
    A PATCH adds a version that is current from now on: the owner's, with the status it asked for. The
    older ones stay.
  */
  lemma ChangeIsNewest(ttl: nat, s: State, k: Key, status: Status)
    requires Reachable(ttl, s) && Can(s, Change(k, status))
    ensures var s' := Next(ttl, s, Change(k, status));
      && k.id in s'.rows && |s'.rows[k.id]| == |s.rows[k.id]| + 1 && s'.rows[k.id][..|s.rows[k.id]|] == s.rows[k.id]
      && s'.rows[k.id][|s.rows[k.id]|] == Row(OrderAudit.Order(s.rows[k.id][0].order.user, status), s.now)
      && CurrentAt(s', k.id, |s.rows[k.id]|, s'.now)
      && (forall id | id in s.rows && id != k.id :: id in s'.rows && s'.rows[id] == s.rows[id])
  {
    InvReachable(ttl, s);
    assert RowsOk(s, k.id) && Since(s.rows[k.id], |s.rows[k.id]| - 1, s.now);
  }

  /** The reply of the handler: 404 if there is no row or its owner is somebody else. */
  function Reply(s: State, r: nat, user: nat): Option<Order>
    requires r < |s.readers|
  {
    var x := s.readers[r];
    if x.version.Some? && x.key.id in s.rows && x.version.value < |s.rows[x.key.id]|
       && s.rows[x.key.id][x.version.value].order.user == user
    then Some(s.rows[x.key.id][x.version.value].order) else None
  }

  /** The owner check is exact even on a stale entry: a found row is answered to its present owner and nobody else. */
  lemma OwnerCheckExact(ttl: nat, s: State, r: nat, user: nat)
    requires Reachable(ttl, s) && r < |s.readers| && s.readers[r].version.Some?
    ensures var id := s.readers[r].key.id;
      id in s.rows && s.rows[id] != [] && s.readers[r].version.value < |s.rows[id]|
      && (Reply(s, r, user).Some? <==> s.rows[id][|s.rows[id]| - 1].order.user == user)
  {
    InvReachable(ttl, s);
    var id := s.readers[r].key.id;
    assert ReaderOk(ttl, s, r);
    if s.readers[r].hit {
      var f: nat :| ServedFrom(ttl, s, r, f);
      assert ReaderOk(ttl, s, f);
    }
    assert RowsOk(s, id);
    assert Since(s.rows[id], s.readers[r].version.value, s.now) && Since(s.rows[id], |s.rows[id]| - 1, s.now);
  }

  // ---------------------------------------------------------------- why the conditions are needed

  const OLD := Row(OrderAudit.Order(7, Pending), 0)
  const NEW := Row(OrderAudit.Order(7, Confirmed), 0)
  const LOWER := Key(0, 0)
  const UPPER := Key(0, 1)

  function Fetched(k: Key, landedAt: Option<nat>): Reader { Reader(k, Done, false, Some(0), 0, landedAt, 0) }

  /** Somebody has fetched the row under key `k`. */
  lemma FirstFetch(ttl: nat, k: Key)
    requires k.id == 0
    ensures Reachable(ttl, State(0, map[0 := [OLD]], map[], [Fetched(k, None)], [], 0))
  {
    ReachableInit(ttl);
    var s1 := State(0, map[0 := [OLD]], map[], [], [], 0);
    ReachableStep(ttl, NOTHING, Insert(0, 7), s1);
    var x := Reader(k, Start, false, None, 0, None, 0);
    var s2 := s1.(readers := [x]);
    ReachableStep(ttl, s1, Ask(k), s2);
    var s3 := s1.(readers := [x.(phase := Fetching)]);
    ReachableStep(ttl, s2, LookUp(0), s3);
    ReachableStep(ttl, s3, Fetch(0), s1.(readers := [Fetched(k, None)]));
  }

  /** A PATCH confirms the order and its delete finds nothing to delete. */
  lemma ChangeAndDelete(ttl: nat, s: State, spanning: set<nat>) returns (s': State)
    requires Reachable(ttl, s) && s.rows == map[0 := [OLD]] && s.writers == [] && s.now == 0 && s.deletes == 0
    requires LOWER !in s.cache && |s.readers| == 1
      && spanning == (if Unset(s.readers[0]) && s.readers[0].key == LOWER then {0} else {})
    requires s.readers[0].version == Some(0)
    ensures s' == s.(rows := map[0 := [OLD, NEW]], writers := [Writer(LOWER, 1, Some(0), spanning)], deletes := 1)
    ensures Reachable(ttl, s')
  {
    var s1 := s.(rows := map[0 := [OLD, NEW]], writers := [Writer(LOWER, 1, None, {})]);
    assert [OLD] + [NEW] == [OLD, NEW];
    ReachableStep(ttl, s, Change(LOWER, Confirmed), s1);
    s' := s.(rows := map[0 := [OLD, NEW]], writers := [Writer(LOWER, 1, Some(0), spanning)], deletes := 1);
    assert Spanning(s1, 0) == spanning;
    assert s1.cache - {LOWER} == s1.cache;
    ReachableStep(ttl, s1, Delete(0), s');
  }

  /** A hit under key `k`, once the old row is cached there. */
  lemma StaleHit(ttl: nat, s: State, k: Key) returns (s': State)
    requires Reachable(ttl, s) && |s.readers| == 1 && k in s.cache && s.cache[k] == Entry(0, 0, ttl) && ttl > 0
      && s.now == 0 && s.deletes == 1
    ensures s' == s.(readers := [s.readers[0], Reader(k, Done, true, Some(0), 0, None, 1)])
    ensures Reachable(ttl, s')
  {
    var x := Reader(k, Start, false, None, 0, None, 0);
    var s1 := s.(readers := [s.readers[0], x]);
    ReachableStep(ttl, s, Ask(k), s1);
    s' := s.(readers := [s.readers[0], Reader(k, Done, true, Some(0), 0, None, 1)]);
    ReachableStep(ttl, s1, LookUp(1), s');
  }

  /** A reader that fetched before the PATCH and sets after its delete: the next hit is stale. */
  lemma SpanningSetServesStale(ttl: nat) returns (s: State)
    requires ttl > 0
    ensures Reachable(ttl, s) && |s.readers| == 2 && |s.writers| == 1
    ensures s.readers[1].hit && s.readers[1].deletes == 1 && s.writers[0].deleted == Some(0)
    ensures s.readers[1].key == s.writers[0].key && s.readers[1].version.Some?
      && s.readers[1].version.value < s.writers[0].version
  {
    FirstFetch(ttl, LOWER);
    var s1 := State(0, map[0 := [OLD]], map[], [Fetched(LOWER, None)], [], 0);
    var s2 := ChangeAndDelete(ttl, s1, {0});
    var s3 := s2.(cache := map[LOWER := Entry(0, 0, ttl)], readers := [Fetched(LOWER, Some(0))]);
    ReachableStep(ttl, s2, SetLands(0), s3);
    s := StaleHit(ttl, s3, LOWER);
  }

  /**
    The id in another spelling is another key: an entry cached under it outlives the delete of a
    PATCH that nothing spanned.
  */
  lemma OtherSpellingServesStale(ttl: nat) returns (s: State)
    requires ttl > 0
    ensures Reachable(ttl, s) && |s.readers| == 2 && |s.writers| == 1 && Unspanned(s, 0)
    ensures s.readers[1].hit && s.readers[1].deletes == 1 && s.writers[0].deleted == Some(0)
    ensures s.readers[1].key.id == s.writers[0].key.id && s.readers[1].version.Some?
    ensures s.readers[1].version.value < s.writers[0].version
  {
    FirstFetch(ttl, UPPER);
    var s1 := State(0, map[0 := [OLD]], map[], [Fetched(UPPER, None)], [], 0);
    var s2 := State(0, map[0 := [OLD]], map[UPPER := Entry(0, 0, ttl)], [Fetched(UPPER, Some(0))], [], 0);
    ReachableStep(ttl, s1, SetLands(0), s2);
    var s3 := ChangeAndDelete(ttl, s2, {});
    s := StaleHit(ttl, s3, UPPER);
  }
}
