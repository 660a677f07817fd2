/**
  The retry counter as a termination measure: where each count may stand, and how many
  failures one published message can cause.
*/
module RetryBound {
  import opened Shared
  import opened Delivery
  import opened DeliverySafety

  function Cap(maxRetries: int): nat { if maxRetries < 0 then 0 else maxRetries }

  /** The counts a copy may carry in each place. */
  ghost predicate CountFits(maxRetries: int, k: Copy) {
    match k.place
    case RetryQueue => 1 <= k.retry <= Cap(maxRetries)
    case DeadLetter => k.retry == Cap(maxRetries) + 1
    case _ => k.retry <= Cap(maxRetries)
  }

  ghost predicate CountsFit(maxRetries: int, s: State) {
    forall k | 0 <= k < |s.copies| :: CountFits(maxRetries, s.copies[k])
  }

  /** A replacement carries one more than the copy its sender handled; a published copy carries none. */
  ghost predicate Descends(s: State, k: nat)
    requires k < |s.copies|
  {
    match s.copies[k].sentBy
    case None => s.copies[k].retry == 0
    case Some(a) =>
      && a < |s.acts|
      && s.acts[a].copy < k
      && s.copies[s.acts[a].copy].event == s.copies[k].event
      && s.copies[k].retry == s.copies[s.acts[a].copy].retry + 1
      && (s.acts[a].handler.Republished? || s.acts[a].handler.Finished?)
  }

  /** An activation sends at most one replacement. */
  ghost predicate Lineage(s: State) {
    && (forall k | 0 <= k < |s.copies| :: Descends(s, k))
    && (forall j, k | 0 <= j < |s.copies| && 0 <= k < |s.copies| && s.copies[j].sentBy.Some?
          && s.copies[j].sentBy == s.copies[k].sentBy :: j == k)
  }

  /** Dead letters are not delivered to the workers. */
  ghost predicate DeadStayDead(s: State) {
    forall a | 0 <= a < |s.acts| :: IsAct(s, a) && !s.copies[s.acts[a].copy].place.DeadLetter?
  }

  ghost predicate Bounded(maxRetries: int, s: State) {
    CountsFit(maxRetries, s) && DeadStayDead(s) && Lineage(s)
  }

  // ---------------------------------------------------------------- one step keeps them

  lemma CountsFitStep(c: int, s: State, step: Step)
    requires CountsFit(c, s) && DeadStayDead(s) && Enabled(s, step)
    ensures CountsFit(c, Apply(c, s, step))
  {
    var s' := Apply(c, s, step);
    forall k | 0 <= k < |s'.copies| ensures CountFits(c, s'.copies[k]) {
      if k < |s.copies| {
        assert CountFits(c, s.copies[k]);
      } else if step.Republish? {
        assert CountFits(c, s.copies[s.acts[step.act].copy]);
      }
    }
  }

  lemma DeadStayDeadStep(c: int, s: State, step: Step)
    requires DeadStayDead(s) && Enabled(s, step)
    ensures DeadStayDead(Apply(c, s, step))
  {
    var s' := Apply(c, s, step);
    forall a | 0 <= a < |s'.acts| ensures IsAct(s', a) && !s'.copies[s'.acts[a].copy].place.DeadLetter? {
      if a < |s.acts| { CopyStaysAlive(c, s, step, a); }
    }
  }

  /** A dead letter never moves again, and stays as it is. */
  lemma DeadLetterStays(c: int, s: State, step: Step, k: nat)
    requires Enabled(s, step) && k < |s.copies| && s.copies[k].place.DeadLetter?
    ensures k < |Apply(c, s, step).copies| && Apply(c, s, step).copies[k] == s.copies[k]
  {
  }

  lemma CopyStaysAlive(c: int, s: State, step: Step, a: nat)
    requires Enabled(s, step) && IsAct(s, a) && !s.copies[s.acts[a].copy].place.DeadLetter?
    ensures IsAct(Apply(c, s, step), a)
    ensures !Apply(c, s, step).copies[Apply(c, s, step).acts[a].copy].place.DeadLetter?
  {
    TagKept(c, s, step, a);
    AliveStays(c, s, step, s.acts[a].copy);
  }

  lemma AliveStays(c: int, s: State, step: Step, k: nat)
    requires Enabled(s, step) && k < |s.copies| && !s.copies[k].place.DeadLetter?
    ensures k < |Apply(c, s, step).copies| && !Apply(c, s, step).copies[k].place.DeadLetter?
  {
  }

  lemma SendersStay(c: int, s: State, step: Step)
    requires Enabled(s, step)
    ensures var cs := Apply(c, s, step).copies;
      |cs| >= |s.copies| && forall k | 0 <= k < |s.copies| ::
        cs[k].sentBy == s.copies[k].sentBy && cs[k].event == s.copies[k].event && cs[k].retry == s.copies[k].retry
  {
  }

  lemma SenderDone(c: int, s: State, step: Step, a: nat)
    requires Enabled(s, step) && a < |s.acts| && (s.acts[a].handler.Republished? || s.acts[a].handler.Finished?)
    ensures var xs := Apply(c, s, step).acts;
      a < |xs| && xs[a].copy == s.acts[a].copy && (xs[a].handler.Republished? || xs[a].handler.Finished?)
  {
  }

  lemma DescendsStep(c: int, s: State, step: Step, k: nat)
    requires Enabled(s, step) && k < |s.copies| && Descends(s, k)
    ensures k < |Apply(c, s, step).copies| && Descends(Apply(c, s, step), k)
  {
    SendersStay(c, s, step);
    if s.copies[k].sentBy.Some? { SenderDone(c, s, step, s.copies[k].sentBy.value); }
  }

  lemma NewCopyDescends(c: int, s: State, step: Step)
    requires Deliveries(s) && Enabled(s, step) && |Apply(c, s, step).copies| > |s.copies|
    ensures |Apply(c, s, step).copies| == |s.copies| + 1
    ensures Descends(Apply(c, s, step), |s.copies|)
    ensures Apply(c, s, step).copies[|s.copies|].sentBy == if step.Republish? then Some(step.act) else None
  {
    if step.Republish? { assert ActRefs(s, step.act); }
  }

  lemma LineageStep(c: int, s: State, step: Step)
    requires Lineage(s) && Deliveries(s) && Enabled(s, step)
    ensures Lineage(Apply(c, s, step))
  {
    var s' := Apply(c, s, step);
    SendersStay(c, s, step);
    if |s'.copies| > |s.copies| { NewCopyDescends(c, s, step); }
    forall k | 0 <= k < |s'.copies| ensures Descends(s', k) {
      if k < |s.copies| { DescendsStep(c, s, step, k); }
    }
    forall k | 0 <= k < |s.copies| && step.Republish? ensures s.copies[k].sentBy != Some(step.act) {
      assert Descends(s, k);
    }
  }

  // ---------------------------------------------------------------- one lineage

  /** The copies from the published one down to `k`. */
  ghost function Ancestry(s: State, k: nat): (ks: seq<nat>)
    requires Lineage(s) && k < |s.copies|
    decreases k
  {
    assert Descends(s, k);
    match s.copies[k].sentBy
    case None => [k]
    case Some(a) => Ancestry(s, s.acts[a].copy) + [k]
  }

  /** A lineage fails once for each count it has reached, and never more than `maxRetries + 1` times. */
  lemma {:induction false} LineageFailures(c: int, s: State, k: nat)
    requires CountsFit(c, s) && Lineage(s) && k < |s.copies|
    ensures |Ancestry(s, k)| == s.copies[k].retry + 1 <= Cap(c) + 2
    ensures forall i | 0 <= i < |Ancestry(s, k)| ::
      Ancestry(s, k)[i] < |s.copies| && s.copies[Ancestry(s, k)[i]].event == s.copies[k].event
        && s.copies[Ancestry(s, k)[i]].retry == i
    decreases k
  {
    assert Descends(s, k) && CountFits(c, s.copies[k]);
    if s.copies[k].sentBy.Some? {
      LineageFailures(c, s, s.acts[s.copies[k].sentBy.value].copy);
    }
  }

  // ---------------------------------------------------------------- all lineages together

  ghost function Published(s: State): set<nat> {
    set k | 0 <= k < |s.copies| && s.copies[k].sentBy.None?
  }

  ghost function Replacements(s: State): set<nat> {
    set k | 0 <= k < |s.copies| && s.copies[k].sentBy.Some?
  }

  ghost function Level(s: State, r: nat): set<nat> {
    set k | 0 <= k < |s.copies| && s.copies[k].retry == r
  }

  ghost function ReplacedUpTo(s: State, r: nat): set<nat> {
    set k | 0 <= k < |s.copies| && 1 <= s.copies[k].retry <= r
  }

  ghost predicate DeliveredOnce(s: State) {
    forall a, b | 0 <= a < |s.acts| && 0 <= b < |s.acts| && s.acts[a].copy == s.acts[b].copy :: a == b
  }

  /** An injection bounds a cardinality. */
  lemma {:induction false} Injection(xs: set<nat>, ys: set<nat>, f: map<nat, nat>)
    requires forall x | x in xs :: x in f && f[x] in ys
    requires forall x, y | x in xs && y in xs && f[x] == f[y] :: x == y
    ensures |xs| <= |ys|
    decreases xs
  {
    if x: nat :| x in xs {
      Injection(xs - {x}, ys - {f[x]}, f);
    }
  }

  /** Without redelivery, no count is reached by more copies than were published. */
  lemma {:induction false} LevelShrinks(s: State, r: nat)
    requires Lineage(s) && DeliveredOnce(s)
    ensures |Level(s, r)| <= |Published(s)|
    decreases r
  {
    if r == 0 {
      forall k | k in Level(s, 0) ensures k in Published(s) { assert Descends(s, k); }
      Injection(Level(s, 0), Published(s), map k | k in Level(s, 0) :: k);
    } else {
      var xs := Level(s, r);
      forall k | k in xs ensures s.copies[k].sentBy.Some? && s.copies[k].sentBy.value < |s.acts|
        && s.acts[s.copies[k].sentBy.value].copy in Level(s, r - 1)
      {
        assert Descends(s, k);
      }
      var f := map k | k in xs :: s.acts[s.copies[k].sentBy.value].copy;
      Injection(xs, Level(s, r - 1), f);
      LevelShrinks(s, r - 1);
    }
  }

  lemma {:induction false} UpToBound(s: State, r: nat)
    requires Lineage(s) && DeliveredOnce(s)
    ensures |ReplacedUpTo(s, r)| <= r * |Published(s)|
    decreases r
  {
    if r == 0 {
      assert ReplacedUpTo(s, 0) == {};
    } else {
      UpToBound(s, r - 1);
      LevelShrinks(s, r);
      assert ReplacedUpTo(s, r) == ReplacedUpTo(s, r - 1) + Level(s, r);
    }
  }

  /**
    Every failure a handler reports to the broker sends one replacement. If no copy is
    delivered twice, `n` published messages cause at most `(maxRetries + 1) * n` of them.
  */
  lemma FailuresBounded(c: int, s: State)
    requires Bounded(c, s) && DeliveredOnce(s)
    ensures |Replacements(s)| <= (Cap(c) + 1) * |Published(s)|
  {
    forall k ensures k in Replacements(s) <==> k in ReplacedUpTo(s, Cap(c) + 1) {
      if 0 <= k < |s.copies| { assert Descends(s, k) && CountFits(c, s.copies[k]); }
    }
    assert Replacements(s) == ReplacedUpTo(s, Cap(c) + 1);
    UpToBound(s, Cap(c) + 1);
  }

  /** With redelivery, each delivery still sends at most one replacement. */
  lemma FailuresPerDelivery(s: State)
    requires Lineage(s)
    ensures |Replacements(s)| <= |s.acts|
  {
    forall k | k in Replacements(s) ensures s.copies[k].sentBy.value in Below(|s.acts|) { assert Descends(s, k); }
    Injection(Replacements(s), Below(|s.acts|), map k | k in Replacements(s) :: s.copies[k].sentBy.value);
  }

  ghost function Below(n: nat): (xs: set<nat>)
    ensures |xs| == n
    ensures forall x: nat :: x in xs <==> x < n
  {
    if n == 0 then {} else Below(n - 1) + {n - 1}
  }
}
