/**
  What handling one delivery amounts to when nothing else happens meanwhile, and what a worker
  that shuts down with no handler at work leaves behind.
*/
module OneDelivery {
  import opened Shared
  import Runs
  import opened Delivery
  import opened DeliverySafety

  /** A queued copy, and a worker to take it whose next delivery tag is unused. */
  ghost predicate Deliverable(m: State, w: nat, k: nat) {
    && Deliveries(m) && w < |m.workers| && m.workers[w].up && k < |m.copies| && m.copies[k].place.Primary?
  }

  /**
    The delivery is under way: its handler stands in `phase` and `handler`, and nothing else has
    changed but `claims`.
  */
  function Handling(m: State, w: nat, k: nat, phase: Phase, handler: Handler, claims: map<EventId, Claim>): State
    requires w < |m.workers| && k < |m.copies|
  {
    var here := m.workers[w];
    m.(copies := m.copies[k := m.copies[k].(place := Unacked(|m.acts|))],
       workers := m.workers[w := here.(nextTag := here.nextTag + 1)],
       acts := m.acts + [Activation(w, here.gen, here.nextTag, k, m.copies[k].event, phase, handler, false)],
       claims := claims)
  }

  /** The delivery is settled: its copy went to `place`, `more` was sent in its place. */
  function Handled(m: State, w: nat, k: nat, phase: Phase, place: Place, more: seq<Copy>,
                   claims: map<EventId, Claim>): State
    requires w < |m.workers| && k < |m.copies|
  {
    var s := Handling(m, w, k, phase, Finished, claims);
    s.(copies := m.copies[k := m.copies[k].(place := place)] + more)
  }

  lemma Starts(c: int, m: State, w: nat, k: nat)
    requires Deliverable(m, w, k)
    ensures Enabled(m, Deliver(w, k)) && Apply(c, m, Deliver(w, k)) == Handling(m, w, k, Claiming, Waiting, m.claims)
  {
  }

  /** `INSERT ... ON CONFLICT DO NOTHING` on a claimed and on an unclaimed event. */
  lemma Inserts(c: int, m: State, w: nat, k: nat)
    requires Deliverable(m, w, k)
    ensures var a, e := |m.acts|, m.copies[k].event;
      var s := Handling(m, w, k, Claiming, Waiting, m.claims);
      Enabled(s, InsertClaim(a)) && Apply(c, s, InsertClaim(a)) ==
        if e in m.claims then Handling(m, w, k, Returned(Duplicate), Acking(Duplicate), m.claims)
        else Handling(m, w, k, Working, Waiting, m.claims[e := Claim(a, false)])
  {
  }

  lemma Completes(c: int, m: State, w: nat, k: nat)
    requires Deliverable(m, w, k)
    ensures var a, e := |m.acts|, m.copies[k].event;
      var s := Handling(m, w, k, Working, Waiting, m.claims[e := Claim(a, false)]);
      Enabled(s, WorkEnds(a, true)) && Enabled(Apply(c, s, WorkEnds(a, true)), UpdateEnds(a)) &&
      Apply(c, Apply(c, s, WorkEnds(a, true)), UpdateEnds(a))
        == Handling(m, w, k, Returned(Processed), Acking(Processed), m.claims[e := Claim(a, true)])
  {
    var a, e := |m.acts|, m.copies[k].event;
    assert m.claims[e := Claim(a, false)][e := Claim(a, true)] == m.claims[e := Claim(a, true)];
    var s := Handling(m, w, k, Working, Waiting, m.claims[e := Claim(a, false)]);
    assert Apply(c, s, WorkEnds(a, true)) == Handling(m, w, k, Updating, Waiting, s.claims);
  }

  /** The work fails, the claim is deleted, the error goes on. */
  lemma Releases(c: int, m: State, w: nat, k: nat)
    requires Deliverable(m, w, k) && m.copies[k].event !in m.claims
    ensures var a, e := |m.acts|, m.copies[k].event;
      var s := Handling(m, w, k, Working, Waiting, m.claims[e := Claim(a, false)]);
      Enabled(s, WorkEnds(a, false)) && Enabled(Apply(c, s, WorkEnds(a, false)), DeleteEnds(a, true)) &&
      Apply(c, Apply(c, s, WorkEnds(a, false)), DeleteEnds(a, true)) == Handling(m, w, k, Threw, Requeueing, m.claims)
  {
    var a, e := |m.acts|, m.copies[k].event;
    assert m.claims[e := Claim(a, false)] - {e} == m.claims;
    var s := Handling(m, w, k, Working, Waiting, m.claims[e := Claim(a, false)]);
    assert Apply(c, s, WorkEnds(a, false)) == Handling(m, w, k, Deleting, Waiting, s.claims);
  }

  lemma Acks(c: int, m: State, w: nat, k: nat, phase: Phase, r: Result, claims: map<EventId, Claim>)
    requires Deliverable(m, w, k)
    ensures var s := Handling(m, w, k, phase, Acking(r), claims);
      Enabled(s, AckOwn(|m.acts|)) &&
      Apply(c, s, AckOwn(|m.acts|)) ==
        Handled(m, w, k, phase, Settled(if r.Processed? then AsProcessed else AsDuplicate), [], claims)
  {
  }

  /** What a failed delivery of `k` is replaced by: one retry more, or a dead letter when `maxRetries` are used up. */
  function Next(maxRetries: int, m: State, k: nat): Copy
    requires k < |m.copies|
  {
    var x := m.copies[k];
    Copy(x.event, x.retry + 1, Some(|m.acts|), if x.retry >= maxRetries then DeadLetter else RetryQueue)
  }

  lemma Replaces(c: int, m: State, w: nat, k: nat, claims: map<EventId, Claim>)
    requires Deliverable(m, w, k)
    ensures var a := |m.acts|;
      var s := Handling(m, w, k, Threw, Requeueing, claims);
      Enabled(s, Republish(a)) && Enabled(Apply(c, s, Republish(a)), AckOwn(a)) &&
      Apply(c, Apply(c, s, Republish(a)), AckOwn(a)) ==
        Handled(m, w, k, Threw, Settled(Replaced), [Next(c, m, k)], claims)
  {
    var a := |m.acts|;
    var s := Handling(m, w, k, Threw, Requeueing, claims);
    var s1 := Apply(c, s, Republish(a));
    assert s1 == Handling(m, w, k, Threw, Republished(m.workers[w].gen), claims)
      .(copies := Handling(m, w, k, Threw, Requeueing, claims).copies + [Next(c, m, k)]);
    assert TagMeans(s1, a, a);
    var s2 := Apply(c, s1, AckOwn(a));
    assert s2.copies == Handled(m, w, k, Threw, Settled(Replaced), [Next(c, m, k)], claims).copies;
  }

  datatype Work = Works | Fails

  /** The end of a delivery nobody disturbs. */
  function Outcome(maxRetries: int, m: State, w: nat, k: nat, work: Work): State
    requires w < |m.workers| && k < |m.copies|
  {
    var e := m.copies[k].event;
    if e in m.claims then Handled(m, w, k, Returned(Duplicate), Settled(AsDuplicate), [], m.claims)
    else if work.Works? then
      Handled(m, w, k, Returned(Processed), Settled(AsProcessed), [], m.claims[e := Claim(|m.acts|, true)])
    else Handled(m, w, k, Threw, Settled(Replaced), [Next(maxRetries, m, k)], m.claims)
  }

  /** The steps of such a delivery. */
  function Steps(m: State, w: nat, k: nat, work: Work): seq<Step>
    requires k < |m.copies|
  {
    var a := |m.acts|;
    [Deliver(w, k), InsertClaim(a)]
    + if m.copies[k].event in m.claims then [AckOwn(a)]
      else if work.Works? then [WorkEnds(a, true), UpdateEnds(a), AckOwn(a)]
      else [WorkEnds(a, false), DeleteEnds(a, true), Republish(a), AckOwn(a)]
  }

  ghost predicate Leads(c: int, s: State, steps: seq<Step>, end: State) { Runs.Leads(Machine(c), s, steps, end) }

  lemma LeadsTwo(c: int, s: State, x: Step, y: Step, rest: seq<Step>, end: State)
    requires Enabled(s, x) && Enabled(Apply(c, s, x), y) && Leads(c, Apply(c, Apply(c, s, x), y), rest, end)
    ensures Leads(c, s, [x, y] + rest, end)
  {
    Runs.LeadsCons(Machine(c), Apply(c, s, x), y, rest, end);
    Runs.LeadsCons(Machine(c), s, x, [y] + rest, end);
    assert [x] + ([y] + rest) == [x, y] + rest;
  }

  /**
    A delivery nobody disturbs: claimed events are acknowledged as duplicates and nothing else
    changes; new ones end completed and acknowledged as processed, or, if the work fails,
    unclaimed, with one copy more in the retry queue or among the dead letters.
  */
  lemma DeliveryAlone(c: int, m: State, w: nat, k: nat, work: Work)
    requires Deliverable(m, w, k)
    ensures Leads(c, m, Steps(m, w, k, work), Outcome(c, m, w, k, work))
  {
    var a, e := |m.acts|, m.copies[k].event;
    Starts(c, m, w, k);
    Inserts(c, m, w, k);
    var s := Apply(c, Apply(c, m, Deliver(w, k)), InsertClaim(a));
    if e in m.claims {
      Acks(c, m, w, k, Returned(Duplicate), Duplicate, m.claims);
      Runs.LeadsOne(Machine(c), s, AckOwn(a), Outcome(c, m, w, k, work));
      LeadsTwo(c, m, Deliver(w, k), InsertClaim(a), [AckOwn(a)], Outcome(c, m, w, k, work));
    } else if work.Works? {
      AfterSuccess(c, m, w, k, s);
      LeadsTwo(c, m, Deliver(w, k), InsertClaim(a), [WorkEnds(a, true), UpdateEnds(a), AckOwn(a)],
        Outcome(c, m, w, k, work));
    } else {
      AfterFailure(c, m, w, k, s);
      LeadsTwo(c, m, Deliver(w, k), InsertClaim(a), [WorkEnds(a, false), DeleteEnds(a, true), Republish(a), AckOwn(a)],
               Outcome(c, m, w, k, work));
    }
  }

  lemma AfterSuccess(c: int, m: State, w: nat, k: nat, s: State)
    requires Deliverable(m, w, k) && m.copies[k].event !in m.claims
    requires s == Handling(m, w, k, Working, Waiting, m.claims[m.copies[k].event := Claim(|m.acts|, false)])
    ensures Leads(c, s, [WorkEnds(|m.acts|, true), UpdateEnds(|m.acts|), AckOwn(|m.acts|)], Outcome(c, m, w, k, Works))
  {
    var a, e := |m.acts|, m.copies[k].event;
    Completes(c, m, w, k);
    Acks(c, m, w, k, Returned(Processed), Processed, m.claims[e := Claim(a, true)]);
    Runs.LeadsOne(Machine(c), Apply(c, Apply(c, s, WorkEnds(a, true)), UpdateEnds(a)), AckOwn(a),
      Outcome(c, m, w, k, Works));
    LeadsTwo(c, s, WorkEnds(a, true), UpdateEnds(a), [AckOwn(a)], Outcome(c, m, w, k, Works));
    assert [WorkEnds(a, true), UpdateEnds(a)] + [AckOwn(a)] == [WorkEnds(a, true), UpdateEnds(a), AckOwn(a)];
  }

  lemma AfterFailure(c: int, m: State, w: nat, k: nat, s: State)
    requires Deliverable(m, w, k) && m.copies[k].event !in m.claims
    requires s == Handling(m, w, k, Working, Waiting, m.claims[m.copies[k].event := Claim(|m.acts|, false)])
    ensures Leads(c, s, [WorkEnds(|m.acts|, false), DeleteEnds(|m.acts|, true), Republish(|m.acts|), AckOwn(|m.acts|)],
                  Outcome(c, m, w, k, Fails))
  {
    var a := |m.acts|;
    Releases(c, m, w, k);
    Replaces(c, m, w, k, m.claims);
    var s2 := Apply(c, Apply(c, s, WorkEnds(a, false)), DeleteEnds(a, true));
    var end := Apply(c, Apply(c, s2, Republish(a)), AckOwn(a));
    assert Leads(c, end, [], end);
    LeadsTwo(c, s2, Republish(a), AckOwn(a), [], end);
    assert [Republish(a), AckOwn(a)] + [] == [Republish(a), AckOwn(a)];
    LeadsTwo(c, s, WorkEnds(a, false), DeleteEnds(a, true), [Republish(a), AckOwn(a)], end);
    assert [WorkEnds(a, false), DeleteEnds(a, true)] + [Republish(a), AckOwn(a)]
      == [WorkEnds(a, false), DeleteEnds(a, true), Republish(a), AckOwn(a)];
  }

  // ---------------------------------------------------------------- shutdown

  /** `inFlight`: the handlers of worker `w` that are not finished. */
  ghost function InFlight(m: State, w: nat): set<nat> {
    set a | 0 <= a < |m.acts| && m.acts[a].worker == w && !m.acts[a].handler.Finished?
  }

  /**
    A worker that stops once `inFlight` is zero loses nothing: no delivery is cut off, no claim
    changes, and a claim it leaves half done belongs to an activation whose handler had already
    given up on it.
  */
  lemma DrainedShutdown(m: State, w: nat, a: nat)
    requires Deliveries(m) && Claims(m) && w < |m.workers| && InFlight(m, w) == {} && a < |m.acts|
    ensures ProcessGone(m, w).copies == m.copies && ProcessGone(m, w).claims == m.claims
    ensures Holding(m.acts[a].phase) && m.acts[a].worker == w ==> m.acts[a].strayed
    ensures ProcessGone(m, w).acts[a].strayed == m.acts[a].strayed
  {
    forall k | 0 <= k < |m.copies| ensures RequeuedCopy(m, w, m.copies[k]) == m.copies[k] {
      if m.copies[k].place.Unacked? {
        assert Outstanding(m, k);
        assert m.copies[k].place.act !in InFlight(m, w);
      }
    }
    assert ActClaims(m, a);
    assert m.acts[a].worker == w ==> m.acts[a].handler.Finished? by { assert a !in InFlight(m, w); }
  }
}
