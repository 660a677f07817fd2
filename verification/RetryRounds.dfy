/**
  How often a call can find its record vanished: as often as others come and fail in between.
*/
module RetryRounds {
  import opened Shared
  import Runs
  import opened Idempotency

  /** How often `step` is among `steps`. */
  function Times(step: Step, steps: seq<Step>): nat {
    if steps == [] then 0 else (if steps[0] == step then 1 else 0) + Times(step, steps[1..])
  }

  lemma {:induction false} TimesConcat(step: Step, xs: seq<Step>, ys: seq<Step>)
    ensures Times(step, xs + ys) == Times(step, xs) + Times(step, ys)
  {
    if xs == [] {
      assert xs + ys == ys;
    } else {
      assert (xs + ys)[1..] == xs[1..] + ys;
      TimesConcat(step, xs[1..], ys);
    }
  }

  /** Call 0 claims, and `n` others that came and failed. */
  function Waiting(n: nat): State {
    State(0, map[], [C(Claiming)] + seq(n, i => C(Replied(Failed))))
  }

  /** During a round: call 0 in phase `p`, `n` others over, and one in phase `q`. */
  function During(n: nat, p: Phase, q: Phase, held: bool): State {
    State(0, if held then map["k" := InProgress(0, 60, n + 1)] else map[],
          [C(p)] + seq(n, i => C(Replied(Failed))) + [C(q)])
  }

  /** Another call comes and claims before call 0 does, and fails and releases its claim before call 0 reads it. */
  function Round(b: nat): seq<Step> {
    [Arrive("k", 0), SetNx(b), SetNx(0), ProcessorThrows(b), Release(b, true), Get(0)]
  }

  lemma Claims(n: nat)
    ensures Runs.Leads(Machine(), Waiting(n), [Arrive("k", 0), SetNx(n + 1), SetNx(0)],
      During(n, Reading, Running, true))
  {
    var m := Machine();
    assert Arrived(Waiting(n), "k", 0) == During(n, Claiming, Claiming, false);
    assert Claimed(During(n, Claiming, Claiming, false), n + 1).calls == During(n, Claiming, Running, true).calls;
    assert Claimed(During(n, Claiming, Claiming, false), n + 1) == During(n, Claiming, Running, true);
    assert Claimed(During(n, Claiming, Running, true), 0).calls == During(n, Reading, Running, true).calls;
    Runs.LeadsOne(m, During(n, Claiming, Running, true), SetNx(0), During(n, Reading, Running, true));
    Runs.LeadsCons(m, During(n, Claiming, Claiming, false), SetNx(n + 1), [SetNx(0)],
      During(n, Reading, Running, true));
    Runs.LeadsCons(m, Waiting(n), Arrive("k", 0), [SetNx(n + 1)] + [SetNx(0)], During(n, Reading, Running, true));
    assert [Arrive("k", 0)] + ([SetNx(n + 1)] + [SetNx(0)]) == [Arrive("k", 0), SetNx(n + 1), SetNx(0)];
  }

  lemma Vanishes(n: nat)
    ensures Runs.Leads(Machine(), During(n, Reading, Running, true),
      [ProcessorThrows(n + 1), Release(n + 1, true), Get(0)], Waiting(n + 1))
  {
    var m := Machine();
    var s1, s2 := During(n, Reading, Releasing, true), During(n, Reading, Replied(Failed), false);
    assert Apply(During(n, Reading, Running, true), ProcessorThrows(n + 1)).calls == s1.calls;
    assert Released(s1, n + 1, true).calls == s2.calls && s1.store - {"k"} == map[];
    assert SetCall(s2, 0, C(Claiming)).calls == Waiting(n + 1).calls;
    Runs.LeadsOne(m, s2, Get(0), Waiting(n + 1));
    Runs.LeadsCons(m, s1, Release(n + 1, true), [Get(0)], Waiting(n + 1));
    Runs.LeadsCons(m, During(n, Reading, Running, true), ProcessorThrows(n + 1), [Release(n + 1, true)] + [Get(0)],
      Waiting(n + 1));
    assert [ProcessorThrows(n + 1)] + ([Release(n + 1, true)] + [Get(0)]) ==
      [ProcessorThrows(n + 1), Release(n + 1, true), Get(0)];
  }

  lemma RoundLeads(n: nat)
    ensures Runs.Leads(Machine(), Waiting(n), Round(n + 1), Waiting(n + 1))
  {
    var xs, ys := [Arrive("k", 0), SetNx(n + 1), SetNx(0)], [ProcessorThrows(n + 1), Release(n + 1, true), Get(0)];
    Claims(n);
    Vanishes(n);
    Runs.LeadsOn(Machine(), Waiting(n), xs, During(n, Reading, Running, true), ys, Waiting(n + 1));
    assert xs + ys == Round(n + 1);
  }

  lemma RoundClaimsOnce(b: nat)
    requires b > 0
    ensures Times(SetNx(0), Round(b)) == 1
  {
    var x := SetNx(0);
    TimesOne(x, Arrive("k", 0), [SetNx(b), x, ProcessorThrows(b), Release(b, true), Get(0)]);
    TimesOne(x, SetNx(b), [x, ProcessorThrows(b), Release(b, true), Get(0)]);
    TimesOne(x, x, [ProcessorThrows(b), Release(b, true), Get(0)]);
    TimesOne(x, ProcessorThrows(b), [Release(b, true), Get(0)]);
    TimesOne(x, Release(b, true), [Get(0)]);
    TimesOne(x, Get(0), []);
  }

  lemma TimesOne(step: Step, first: Step, rest: seq<Step>)
    ensures Times(step, [first] + rest) == (if first == step then 1 else 0) + Times(step, rest)
  {
    assert ([first] + rest)[1..] == rest;
  }

  /** For every `n` some run has one call claim `n` times, and claiming still, with no time passing. */
  lemma {:induction false} NoBoundOnRounds(n: nat) returns (steps: seq<Step>, s: State)
    ensures Runs.Leads(Machine(), EMPTY, steps, s) && Times(SetNx(0), steps) == n
    ensures s == Waiting(n) && s.now == 0 && In(s, 0) && s.calls[0].phase.Claiming?
  {
    if n == 0 {
      steps, s := [Arrive("k", 0)], Waiting(0);
      assert Arrived(EMPTY, "k", 0) == s;
      Runs.LeadsOne(Machine(), EMPTY, Arrive("k", 0), s);
      assert [Arrive("k", 0)][1..] == [];
    } else {
      var before, middle := NoBoundOnRounds(n - 1);
      RoundLeads(n - 1);
      Runs.LeadsOn(Machine(), EMPTY, before, middle, Round(n), Waiting(n));
      RoundClaimsOnce(n);
      TimesConcat(SetNx(0), before, Round(n));
      steps, s := before + Round(n), Waiting(n);
    }
  }
}
