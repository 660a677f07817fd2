/**
  The list cache over a whole run: a request that arrives after the bump of a write sees the write.
*/
module FreshLists {
  import opened Shared
  import Runs
  import opened OrderListing
  import opened VersionedCache
  import opened CacheCoherence

  /** Redis keeps the version key during these steps. */
  ghost predicate KeepsVersion(steps: seq<Step>) { forall i | 0 <= i < |steps| :: !steps[i].LoseVersion? }

  /** Write `w` committed `table` as database state `n`. */
  ghost predicate Wrote(s: State, w: nat, table: seq<Order>, n: nat) {
    && s.intact && |s.history| > 0
    && w < |s.writers| && s.writers[w].committed == n && n < |s.history| && s.history[n] == table
  }

  /** And its bump has made a version. */
  ghost predicate BumpedBy(s: State, w: nat) {
    w < |s.writers| && s.writers[w].bump.Some? && s.writers[w].bump.value <= s.version
  }

  /** Reader `r` of `q` arrived after the bump of `w`. */
  ghost predicate Asked(s: State, r: nat, q: Query, w: nat) {
    && r < |s.readers| && s.readers[r].query == q
    && w < |s.writers| && s.writers[w].bump.Some? && s.writers[w].bump.value <= s.readers[r].since
  }

  lemma WroteStep(s: State, step: Step, w: nat, table: seq<Order>, n: nat)
    requires Wrote(s, w, table, n) && Enabled(s, step) && !step.LoseVersion?
    ensures Wrote(Apply(s, step), w, table, n)
    ensures BumpedBy(s, w) ==> BumpedBy(Apply(s, step), w)
    ensures forall r: nat, q | Asked(s, r, q, w) :: Asked(Apply(s, step), r, q, w)
  {
  }

  lemma {:induction false} WroteAfter(s: State, steps: seq<Step>, w: nat, table: seq<Order>, n: nat)
    requires Reachable(s) && Wrote(s, w, table, n) && Runs.Valid(Machine(), s, steps) && KeepsVersion(steps)
    ensures var end := Runs.After(Machine(), s, steps);
      && Reachable(end) && Wrote(end, w, table, n)
      && (BumpedBy(s, w) ==> BumpedBy(end, w))
      && (forall r: nat, q | Asked(s, r, q, w) :: Asked(end, r, q, w))
    decreases |steps|
  {
    if steps != [] {
      var s' := Apply(s, steps[0]);
      ReachableStep(s, steps[0], s');
      WroteStep(s, steps[0], w, table, n);
      WroteAfter(s', steps[1..], w, table, n);
    }
  }

  /** A run that keeps the version key is intact. */
  lemma {:induction false} StaysIntact(s: State, steps: seq<Step>)
    requires Reachable(s) && s.intact && Runs.Valid(Machine(), s, steps) && KeepsVersion(steps)
    ensures Reachable(Runs.After(Machine(), s, steps)) && Runs.After(Machine(), s, steps).intact
    decreases |steps|
  {
    if steps != [] {
      ReachableStep(s, steps[0], Apply(s, steps[0]));
      StaysIntact(Apply(s, steps[0]), steps[1..]);
    }
  }

  /** The page shows the database at two moments, neither before its state `n`. */
  ghost predicate ShowsSince(s: State, q: Query, page: Page, n: nat)
    requires q.page >= 1
  {
    exists i: nat, j: nat :: n <= i < |s.history| && n <= j < |s.history| && ShowsAt(s, q, page, i, j)
  }

  ghost predicate ShowsAt(s: State, q: Query, page: Page, i: nat, j: nat)
    requires q.page >= 1 && i < |s.history| && j < |s.history|
  {
    page.rows == PageRows(q, s.history[i]) && page.total == Count(q.filter, s.history[j])
  }

  /**
    Some run commits a write of `table`, later bumps the version for it, and later again a request for `q`
    arrives. Whatever happens in between and afterwards, other than the loss of the version key: the
    response is made of rows and a total that were true of the database at that write or since.
  */
  lemma RequestSeesWrite(start: seq<Order>, before: seq<Step>, table: seq<Order>, xs: seq<Step>, ys: seq<Step>,
                         q: Query, zs: seq<Step>)
    requires KeepsVersion(before) && KeepsVersion(xs) && KeepsVersion(ys) && KeepsVersion(zs) && ValidQuery(q)
    requires Runs.Valid(Machine(), Fresh(start), before)
    requires Runs.Valid(Machine(), Apply(Runs.After(Machine(), Fresh(start), before), Write(table)), xs)
    requires var s1 := Runs.After(Machine(), Fresh(start), before);
      var s2 := Runs.After(Machine(), Apply(s1, Write(table)), xs);
      Enabled(s2, Bump(|s1.writers|)) && Runs.Valid(Machine(), Apply(s2, Bump(|s1.writers|)), ys)
      && var s3 := Runs.After(Machine(), Apply(s2, Bump(|s1.writers|)), ys);
         Runs.Valid(Machine(), Apply(s3, Arrive(q)), zs)
    ensures var s1 := Runs.After(Machine(), Fresh(start), before);
      var s2 := Runs.After(Machine(), Apply(s1, Write(table)), xs);
      var s3 := Runs.After(Machine(), Apply(s2, Bump(|s1.writers|)), ys);
      var end := Runs.After(Machine(), Apply(s3, Arrive(q)), zs);
      && |s1.history| < |end.history| && end.history[|s1.history|] == table
      && |s3.readers| < |end.readers|
      && (end.readers[|s3.readers|].result.Some? ==>
            ShowsSince(end, q, end.readers[|s3.readers|].result.value, |s1.history|))
  {
    var s1 := Runs.After(Machine(), Fresh(start), before);
    ReachableInit(start);
    StaysIntact(Fresh(start), before);
    var w, n := |s1.writers|, |s1.history|;
    InvReachable(s1);
    ReachableStep(s1, Write(table), Apply(s1, Write(table)));
    WroteAfter(Apply(s1, Write(table)), xs, w, table, n);
    var s2 := Runs.After(Machine(), Apply(s1, Write(table)), xs);
    var s2' := Apply(s2, Bump(w));
    ReachableStep(s2, Bump(w), s2');
    WroteStep(s2, Bump(w), w, table, n);
    BumpWorks(s2, w);
    WroteAfter(s2', ys, w, table, n);
    var s3 := Runs.After(Machine(), s2', ys);
    AskAndAnswer(s3, w, table, n, q, zs);
  }

  lemma BumpWorks(s: State, w: nat)
    requires Reachable(s) && s.intact && Enabled(s, Bump(w))
    ensures BumpedBy(Apply(s, Bump(w)), w)
  {
    InvReachable(s);
    assert s.writers[w].bump.Some? ==> NoOlderBump(s, w);
  }

  /** From the bump on. */
  lemma AskAndAnswer(s: State, w: nat, table: seq<Order>, n: nat, q: Query, zs: seq<Step>)
    requires Reachable(s) && Wrote(s, w, table, n) && BumpedBy(s, w) && ValidQuery(q) && KeepsVersion(zs)
    requires Runs.Valid(Machine(), Apply(s, Arrive(q)), zs)
    ensures var end := Runs.After(Machine(), Apply(s, Arrive(q)), zs);
      && n < |end.history| && end.history[n] == table
      && |s.readers| < |end.readers|
      && (end.readers[|s.readers|].result.Some? ==> ShowsSince(end, q, end.readers[|s.readers|].result.value, n))
  {
    var r := |s.readers|;
    var s' := Apply(s, Arrive(q));
    ReachableStep(s, Arrive(q), s');
    WroteStep(s, Arrive(q), w, table, n);
    assert Asked(s', r, q, w);
    WroteAfter(s', zs, w, table, n);
    var end := Runs.After(Machine(), s', zs);
    assert Asked(end, r, q, w);
    if end.readers[r].result.Some? {
      ListCoherence(end, r, w);
      var p := end.readers[r].result.value;
      assert ShowsAt(end, q, p, p.rowsAt, p.totalAt);
    }
  }
}
