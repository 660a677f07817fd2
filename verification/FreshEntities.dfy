/**
  The entity cache over a whole run: a lookup after the delete of a PATCH sees the PATCH, unless a set
  that spans the delete puts an older row back.
*/
module FreshEntities {
  import opened Shared
  import Runs
  import opened EntityCache

  /** Writer `w` wrote version `v` of the row of `k`. */
  ghost predicate Wrote(s: State, w: nat, k: Key, v: nat) {
    w < |s.writers| && s.writers[w].key == k && s.writers[w].version == v
  }

  /** Its delete was one of those so far. */
  ghost predicate Deleted(s: State, w: nat) {
    w < |s.writers| && s.writers[w].deleted.Some? && s.writers[w].deleted.value < s.deletes
  }

  /** Reader `f` has fetched a version of the row of `k` older than `v`, and not put it into the cache. */
  ghost predicate HoldsOlder(s: State, k: Key, v: nat, f: nat) {
    && f < |s.readers| && s.readers[f].key == k
    && s.readers[f].phase.Done? && !s.readers[f].hit && s.readers[f].landedAt.None?
    && s.readers[f].version.Some? && s.readers[f].version.value < v
  }

  /** None of these steps is the set of a reader that, in `s`, held an older version. */
  ghost predicate NoneSpans(s: State, k: Key, v: nat, steps: seq<Step>) {
    forall i, f | 0 <= i < |steps| && HoldsOlder(s, k, v, f) :: steps[i] != SetLands(f)
  }

  lemma {:induction false} WroteAfter(ttl: nat, s: State, steps: seq<Step>, w: nat, k: Key, v: nat)
    requires Reachable(ttl, s) && Runs.Valid(Machine(ttl), s, steps) && Wrote(s, w, k, v)
    ensures var end := Runs.After(Machine(ttl), s, steps);
      Reachable(ttl, end) && Wrote(end, w, k, v)
    decreases |steps|
  {
    if steps != [] {
      var s' := Next(ttl, s, steps[0]);
      ReachableStep(ttl, s, steps[0], s');
      WroteAfter(ttl, s', steps[1..], w, k, v);
    }
  }

  /** After the delete nothing undoes it: the readers it spans stay the same, and have not set their rows. */
  ghost predicate StillUnspanned(s: State, w: nat, spanning: set<nat>) {
    && Deleted(s, w) && s.writers[w].spanning == spanning
    && forall f | f in spanning :: f < |s.readers| && s.readers[f].landedAt.None?
  }

  lemma {:induction false} UnspannedAfter(ttl: nat, s: State, steps: seq<Step>, w: nat, spanning: set<nat>)
    requires Runs.Valid(Machine(ttl), s, steps) && StillUnspanned(s, w, spanning)
    requires forall i, f | 0 <= i < |steps| && f in spanning :: steps[i] != SetLands(f)
    ensures StillUnspanned(Runs.After(Machine(ttl), s, steps), w, spanning)
    decreases |steps|
  {
    if steps != [] {
      UnspannedStep(ttl, s, steps[0], w, spanning);
      UnspannedAfter(ttl, Next(ttl, s, steps[0]), steps[1..], w, spanning);
    }
  }

  lemma UnspannedStep(ttl: nat, s: State, step: Step, w: nat, spanning: set<nat>)
    requires Can(s, step) && StillUnspanned(s, w, spanning) && forall f | f in spanning :: step != SetLands(f)
    ensures StillUnspanned(Next(ttl, s, step), w, spanning)
  {
  }

  /** What a delete finds: the readers that hold an older version, and those only. */
  lemma DeleteSpans(ttl: nat, s: State, w: nat, k: Key, v: nat)
    requires Can(s, Delete(w)) && Wrote(s, w, k, v)
    ensures var s' := Next(ttl, s, Delete(w));
      && k !in s'.cache && Wrote(s', w, k, v)
      && (forall f: nat :: f in s'.writers[w].spanning <==> HoldsOlder(s, k, v, f))
      && StillUnspanned(s', w, s'.writers[w].spanning)
  {
  }

  /**
    Some run has a PATCH write a version, later delete the entry under `k`, and later again a reader of
    `k` look it up. If no reader that held an older version at the delete puts it into the cache in
    between, a hit is at least as new as the PATCH, whatever else happens.
  */
  lemma LookUpSeesWrite(ttl: nat, s: State, k: Key, status: Status, xs: seq<Step>, ys: seq<Step>, r: nat)
    requires Reachable(ttl, s) && Can(s, Change(k, status))
    requires Runs.Valid(Machine(ttl), Next(ttl, s, Change(k, status)), xs)
    requires var s2 := Runs.After(Machine(ttl), Next(ttl, s, Change(k, status)), xs);
      Can(s2, Delete(|s.writers|)) && Runs.Valid(Machine(ttl), Next(ttl, s2, Delete(|s.writers|)), ys)
      && NoneSpans(s2, k, |s.rows[k.id]|, ys)
      && var s3 := Runs.After(Machine(ttl), Next(ttl, s2, Delete(|s.writers|)), ys);
         Can(s3, LookUp(r)) && s3.readers[r].key == k
    ensures var s2 := Runs.After(Machine(ttl), Next(ttl, s, Change(k, status)), xs);
      var s3 := Runs.After(Machine(ttl), Next(ttl, s2, Delete(|s.writers|)), ys);
      var x := Next(ttl, s3, LookUp(r)).readers[r];
      && (x.hit <==> k in s3.cache && s3.now < s3.cache[k].expiresAt)
      && (x.hit ==> x.at == s3.now && x.version.Some? && x.version.value >= |s.rows[k.id]|)
  {
    var w, v := |s.writers|, |s.rows[k.id]|;
    var s1 := Next(ttl, s, Change(k, status));
    ReachableStep(ttl, s, Change(k, status), s1);
    WroteAfter(ttl, s1, xs, w, k, v);
    var s2 := Runs.After(Machine(ttl), s1, xs);
    DeleteSpans(ttl, s2, w, k, v);
    var s2' := Next(ttl, s2, Delete(w));
    ReachableStep(ttl, s2, Delete(w), s2');
    WroteAfter(ttl, s2', ys, w, k, v);
    UnspannedAfter(ttl, s2', ys, w, s2'.writers[w].spanning);
    var s3 := Runs.After(Machine(ttl), s2', ys);
    LookUpAfter(ttl, s3, w, k, v, r);
  }

  lemma LookUpAfter(ttl: nat, s: State, w: nat, k: Key, v: nat, r: nat)
    requires Reachable(ttl, s) && Wrote(s, w, k, v) && StillUnspanned(s, w, s.writers[w].spanning)
    requires Can(s, LookUp(r)) && s.readers[r].key == k
    ensures var x := Next(ttl, s, LookUp(r)).readers[r];
      && (x.hit <==> k in s.cache && s.now < s.cache[k].expiresAt)
      && (x.hit ==> x.at == s.now && x.version.Some? && x.version.value >= v)
  {
    var s' := Next(ttl, s, LookUp(r));
    InvReachable(ttl, s);
    assert ReaderOk(ttl, s, r);
    ReachableStep(ttl, s, LookUp(r), s');
    if s'.readers[r].hit {
      HitSeesWrite(ttl, s', r, w);
    }
  }
}
