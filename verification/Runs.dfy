/**
  Transition systems and their runs.
*/
module Runs {

  /** Where a system may start, which steps a state allows, and where an allowed step leads. */
  datatype System<!S, !A> = System(init: S -> bool, enabled: (S, A) -> bool, next: (S, A) -> S)

  ghost predicate Valid<S, A>(m: System<S, A>, s: S, steps: seq<A>)
    decreases |steps|
  {
    steps == [] || (m.enabled(s, steps[0]) && Valid(m, m.next(s, steps[0]), steps[1..]))
  }

  ghost function After<S, A>(m: System<S, A>, s: S, steps: seq<A>): S
    decreases |steps|
  {
    if steps == [] then s else After(m, m.next(s, steps[0]), steps[1..])
  }

  /** `s` is where the steps of some run arrive. */
  ghost predicate Arrives<S, A>(m: System<S, A>, start: S, steps: seq<A>, s: S) {
    m.init(start) && Valid(m, start, steps) && After(m, start, steps) == s
  }

  ghost predicate Reaches<S(!new), A(!new)>(m: System<S, A>, s: S) {
    exists start, steps :: Arrives(m, start, steps, s)
  }

  lemma Start<S(!new), A(!new)>(m: System<S, A>, s: S)
    requires m.init(s)
    ensures Arrives(m, s, [], s) && Reaches(m, s)
  {
    assert Arrives(m, s, [], s);
  }

  lemma {:induction false} Append<S, A>(m: System<S, A>, s: S, steps: seq<A>, step: A)
    requires Valid(m, s, steps) && m.enabled(After(m, s, steps), step)
    ensures Valid(m, s, steps + [step]) && After(m, s, steps + [step]) == m.next(After(m, s, steps), step)
    decreases |steps|
  {
    if steps == [] {
      assert (steps + [step])[1..] == [] && Valid(m, m.next(s, step), []);
    } else {
      Append(m, m.next(s, steps[0]), steps[1..], step);
      assert (steps + [step])[1..] == steps[1..] + [step];
    }
  }

  lemma Go<S(!new), A(!new)>(m: System<S, A>, s: S, step: A, s': S)
    requires Reaches(m, s) && m.enabled(s, step) && m.next(s, step) == s'
    ensures Reaches(m, s')
  {
    var start, steps :| Arrives(m, start, steps, s);
    Append(m, start, steps, step);
    assert Arrives(m, start, steps + [step], s');
  }

  ghost predicate Keeps<S(!new), A(!new)>(m: System<S, A>, inv: S -> bool) {
    forall s, step | inv(s) && m.enabled(s, step) :: inv(m.next(s, step))
  }

  lemma {:induction false} KeptAfter<S(!new), A(!new)>(m: System<S, A>, inv: S -> bool, s: S, steps: seq<A>)
    requires Keeps(m, inv) && inv(s) && Valid(m, s, steps)
    ensures inv(After(m, s, steps))
    decreases |steps|
  {
    if steps != [] { KeptAfter(m, inv, m.next(s, steps[0]), steps[1..]); }
  }

  /** What holds at the start and survives every step holds in every state a run reaches. */
  lemma Invariant<S(!new), A(!new)>(m: System<S, A>, inv: S -> bool, s: S)
    requires Reaches(m, s) && Keeps(m, inv) && forall start | m.init(start) :: inv(start)
    ensures inv(s)
  {
    var start, steps :| Arrives(m, start, steps, s);
    KeptAfter(m, inv, start, steps);
  }

  /** `steps` are possible from `s` on, and lead to `end`. */
  ghost predicate Leads<S, A>(m: System<S, A>, s: S, steps: seq<A>, end: S)
    decreases |steps|
  {
    if steps == [] then s == end else m.enabled(s, steps[0]) && Leads(m, m.next(s, steps[0]), steps[1..], end)
  }

  lemma {:induction false} LeadsOn<S, A>(m: System<S, A>, s: S, xs: seq<A>, middle: S, ys: seq<A>, end: S)
    requires Leads(m, s, xs, middle) && Leads(m, middle, ys, end)
    ensures Leads(m, s, xs + ys, end)
    decreases |xs|
  {
    if xs == [] {
      assert xs + ys == ys;
    } else {
      assert (xs + ys)[1..] == xs[1..] + ys;
      LeadsOn(m, m.next(s, xs[0]), xs[1..], middle, ys, end);
    }
  }

  lemma LeadsOne<S, A>(m: System<S, A>, s: S, step: A, end: S)
    requires m.enabled(s, step) && m.next(s, step) == end
    ensures Leads(m, s, [step], end)
  {
    assert [step][1..] == [] && Leads(m, end, [], end);
  }

  lemma LeadsCons<S, A>(m: System<S, A>, s: S, step: A, rest: seq<A>, end: S)
    requires m.enabled(s, step) && Leads(m, m.next(s, step), rest, end)
    ensures Leads(m, s, [step] + rest, end)
  {
    assert ([step] + rest)[1..] == rest;
  }

  lemma {:induction false} LeadsUnique<S, A>(m: System<S, A>, s: S, steps: seq<A>, x: S, y: S)
    requires Leads(m, s, steps, x) && Leads(m, s, steps, y)
    ensures x == y
    decreases |steps|
  {
    if steps != [] { LeadsUnique(m, m.next(s, steps[0]), steps[1..], x, y); }
  }

  // ---------------------------------------------------------------- traces

  /** A step that was taken, and the state it met. */
  datatype Taken<S, A> = Taken(before: S, step: A)

  /** The state before step `i` of `log`, or the last one, `s`. */
  ghost function At<S, A>(log: seq<Taken<S, A>>, i: nat, s: S): S { if i < |log| then log[i].before else s }

  ghost predicate Linked<S, A>(m: System<S, A>, log: seq<Taken<S, A>>, i: nat, s: S)
    requires i < |log|
  {
    m.enabled(log[i].before, log[i].step) && m.next(log[i].before, log[i].step) == At(log, i + 1, s)
  }

  /** `log` is the whole run that led to `s`. */
  ghost predicate Traced<S, A>(m: System<S, A>, log: seq<Taken<S, A>>, s: S) {
    m.init(At(log, 0, s)) && forall i | 0 <= i < |log| :: Linked(m, log, i, s)
  }

  lemma TracedSnoc<S, A>(m: System<S, A>, log: seq<Taken<S, A>>, s: S, step: A, s': S)
    requires Traced(m, log, s) && m.enabled(s, step) && m.next(s, step) == s'
    ensures Traced(m, log + [Taken(s, step)], s')
  {
    forall i | 0 <= i < |log + [Taken(s, step)]| ensures Linked(m, log + [Taken(s, step)], i, s') {
      if i < |log| { assert Linked(m, log, i, s); }
    }
  }

  /** Every state a traced run passes through is reachable. */
  lemma {:induction false} TracedReaches<S(!new), A(!new)>(m: System<S, A>, log: seq<Taken<S, A>>, s: S, i: nat)
    requires Traced(m, log, s) && i <= |log|
    ensures Reaches(m, At(log, i, s))
    decreases i
  {
    if i == 0 {
      Start(m, At(log, 0, s));
    } else {
      TracedReaches(m, log, s, i - 1);
      assert Linked(m, log, i - 1, s);
      Go(m, log[i - 1].before, log[i - 1].step, At(log, i, s));
    }
  }

  /** The steps of one party among `log`, in order. */
  ghost function Own<S, A>(mine: A -> bool, log: seq<Taken<S, A>>): seq<Taken<S, A>>
    decreases |log|, 1
  {
    if log == [] then [] else OwnLast(mine, log)
  }

  ghost function OwnLast<S, A>(mine: A -> bool, log: seq<Taken<S, A>>): seq<Taken<S, A>>
    requires log != []
    decreases |log|, 0
  {
    var before := Own(mine, log[..|log| - 1]);
    if mine(log[|log| - 1].step) then before + [log[|log| - 1]] else before
  }

  lemma Joined<T>(a: seq<T>, b: seq<T>, c: seq<T>)
    ensures a + b + c == a + (b + c)
  {
  }

  lemma OwnSnoc<S, A>(mine: A -> bool, log: seq<Taken<S, A>>, x: Taken<S, A>)
    ensures Own(mine, log + [x]) == if mine(x.step) then Own(mine, log) + [x] else Own(mine, log)
  {
    assert (log + [x])[..|log|] == log;
  }
}
