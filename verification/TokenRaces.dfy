/**
  Refreshes that overlap: the SELECT of a refresh and what it does about it are two steps, and
  anything may happen in between.
*/
module TokenRaces {
  import opened Shared
  import Runs
  import opened TokenRotation

  /** `verdicts`: what refreshes have read and not acted on yet. */
  datatype Races = Races(db: State, verdicts: seq<Option<Verdict>>)

  datatype Move = Read(presented: nat) | Write(read: nat, inserts: bool) | Whole(step: Step)

  predicate Possible(r: Races, m: Move) { m.Write? ==> m.read < |r.verdicts| && r.verdicts[m.read].Some? }

  function After(ttl: nat, r: Races, m: Move): Races
    requires Possible(r, m)
  {
    match m
    case Read(presented) => r.(verdicts := r.verdicts + [Some(Judge(r.db, presented))])
    case Write(i, inserts) => Races(Act(ttl, r.db, r.verdicts[i].value, inserts), r.verdicts[i := None])
    case Whole(step) => r.(db := Next(ttl, r.db, step))
  }

  /** The token a write replaces, if it replaces one, is still unrevoked. */
  predicate InTime(r: Races, m: Move)
    requires Possible(r, m)
  {
    m.Write? && r.verdicts[m.read].value.Rotate? ==> Unrevoked(r.db, r.verdicts[m.read].value.token)
  }

  /** All runs, or only those whose writes are in time. */
  ghost function Machine(ttl: nat, inTime: bool): Runs.System<Races, Move> {
    Runs.System(r => r == Races(NONE_YET, []), (r, m) => Possible(r, m) && (inTime ==> InTime(r, m)),
                (r, m) => if Possible(r, m) then After(ttl, r, m) else r)
  }

  ghost predicate Reachable(ttl: nat, inTime: bool, r: Races) { Runs.Reaches(Machine(ttl, inTime), r) }

  lemma ReachableStep(ttl: nat, inTime: bool, r: Races, m: Move, r': Races)
    requires Reachable(ttl, inTime, r) && Possible(r, m) && (inTime ==> InTime(r, m)) && After(ttl, r, m) == r'
    ensures Reachable(ttl, inTime, r')
  {
    Runs.Go(Machine(ttl, inTime), r, m, r');
  }

  // ---------------------------------------------------------------- one write

  /** `token` was revoked since it was read, and its line goes on in another unrevoked token. */
  ghost predicate Forks(s: State, v: Verdict, inserts: bool) {
    && v.Rotate? && inserts && v.token < |s.tokens| && !Unrevoked(s, v.token)
    && exists u :: Unrevoked(s, u) && Root(s, u) == Root(s, v.token)
  }

  /** What `Act` leaves of the tokens there were. */
  lemma ActKeeps(ttl: nat, s: State, v: Verdict, inserts: bool, t: nat)
    requires t < |s.tokens|
    ensures var s' := Act(ttl, s, v, inserts);
      && t < |s'.tokens| && s'.tokens[t].parent == s.tokens[t].parent && s'.tokens[t].user == s.tokens[t].user
      && (Unrevoked(s', t) ==> Unrevoked(s, t))
  {
  }

  lemma {:induction false} RootKept(ttl: nat, s: State, v: Verdict, inserts: bool, t: nat)
    requires t < |s.tokens|
    ensures t < |Act(ttl, s, v, inserts).tokens| && Root(Act(ttl, s, v, inserts), t) == Root(s, t)
    decreases t
  {
    ActKeeps(ttl, s, v, inserts, t);
    if s.tokens[t].parent.Some? && s.tokens[t].parent.value < t {
      RootKept(ttl, s, v, inserts, s.tokens[t].parent.value);
    }
  }

  /** The token a write adds is in the line of the one it replaces. */
  lemma AddedToLine(ttl: nat, s: State, t: nat)
    requires t < |s.tokens|
    ensures var s' := Act(ttl, s, Rotate(t), true);
      && |s'.tokens| == |s.tokens| + 1 && !Unrevoked(s', t)
      && Unrevoked(s', |s.tokens|) && Root(s', |s.tokens|) == Root(s, t)
  {
    RootKept(ttl, s, Rotate(t), true, t);
  }

  /** After a write there is one unrevoked token per root, as before, exactly if it does not fork a line. */
  lemma WriteForks(ttl: nat, s: State, v: Verdict, inserts: bool)
    requires OnePerRoot(s)
    ensures OnePerRoot(Act(ttl, s, v, inserts)) <==> !Forks(s, v, inserts)
  {
    var s' := Act(ttl, s, v, inserts);
    if Forks(s, v, inserts) {
      var u :| Unrevoked(s, u) && Root(s, u) == Root(s, v.token);
      AddedToLine(ttl, s, v.token);
      RootKept(ttl, s, v, inserts, u);
      assert Unrevoked(s', u) && Unrevoked(s', |s.tokens|) && Root(s', u) == Root(s', |s.tokens|);
    } else {
      forall t, u | Unrevoked(s', t) && Unrevoked(s', u) && Root(s', t) == Root(s', u) ensures t == u {
        Together(ttl, s, v, inserts, t, u);
      }
    }
  }

  lemma Together(ttl: nat, s: State, v: Verdict, inserts: bool, t: nat, u: nat)
    requires OnePerRoot(s) && !Forks(s, v, inserts)
    requires Unrevoked(Act(ttl, s, v, inserts), t) && Unrevoked(Act(ttl, s, v, inserts), u)
    requires Root(Act(ttl, s, v, inserts), t) == Root(Act(ttl, s, v, inserts), u)
    ensures t == u
  {
    if t < |s.tokens| { ActKeeps(ttl, s, v, inserts, t); RootKept(ttl, s, v, inserts, t); }
    if u < |s.tokens| { ActKeeps(ttl, s, v, inserts, u); RootKept(ttl, s, v, inserts, u); }
    if t >= |s.tokens| || u >= |s.tokens| { AddedToLine(ttl, s, v.token); }
  }

  // ---------------------------------------------------------------- all runs

  lemma InTimeStep(ttl: nat, r: Races, m: Move)
    requires Inv(r.db) && Possible(r, m) && InTime(r, m)
    ensures Inv(After(ttl, r, m).db)
  {
    match m
    case Read(_) =>
    case Whole(step) =>
      ForestStep(ttl, r.db, step);
      OnePerRootStep(ttl, r.db, step);
    case Write(i, inserts) =>
      WriteForks(ttl, r.db, r.verdicts[i].value, inserts);
      WriteKeepsForest(ttl, r.db, r.verdicts[i].value, inserts);
  }

  lemma WriteKeepsForest(ttl: nat, s: State, v: Verdict, inserts: bool)
    requires Forest(s) && (v.Rotate? ==> Unrevoked(s, v.token))
    ensures Forest(Act(ttl, s, v, inserts))
  {
    var s' := Act(ttl, s, v, inserts);
    forall t | 0 <= t < |s'.tokens| ensures ChildOk(s', t) {
      if t < |s.tokens| { assert ChildOk(s, t); }
    }
    forall t, u | 0 <= t < |s'.tokens| && 0 <= u < |s'.tokens| && s'.tokens[t].parent.Some?
      && s'.tokens[u].parent == s'.tokens[t].parent
      ensures t == u
    {
      if t < |s.tokens| { assert ChildOk(s, t); }
      if u < |s.tokens| { assert ChildOk(s, u); }
    }
  }

  /** However refreshes overlap: if every write finds its token unrevoked, there is one unrevoked token per root. */
  lemma InTimeIsSafe(ttl: nat, r: Races, t: nat, u: nat)
    requires Reachable(ttl, true, r) && Unrevoked(r.db, t) && Unrevoked(r.db, u) && Root(r.db, t) == Root(r.db, u)
    ensures t == u
  {
    forall x: Races, m | Inv(x.db) && Possible(x, m) && InTime(x, m)
      ensures Inv(After(ttl, x, m).db)
    {
      InTimeStep(ttl, x, m);
    }
    Runs.Invariant(Machine(ttl, true), (x: Races) => Inv(x.db), r);
  }

  /** Two refreshes of one token that both read before either writes leave two live tokens of one root. */
  lemma OverlapForks(ttl: nat, user: nat) returns (r: Races)
    requires ttl > 0
    ensures Reachable(ttl, false, r)
    ensures |r.db.tokens| == 3 && Live(r.db, 1) && Live(r.db, 2) && Root(r.db, 1) == Root(r.db, 2)
  {
    var s0 := Races(NONE_YET, []);
    Runs.Start(Machine(ttl, false), s0);
    var alone := State(0, [Token(user, ttl, None, None)]);
    ReachableStep(ttl, false, s0, Whole(Grant(user)), Races(alone, []));
    ReachableStep(ttl, false, Races(alone, []), Read(0), Races(alone, [Some(Rotate(0))]));
    var s1 := Races(alone, [Some(Rotate(0)), Some(Rotate(0))]);
    ReachableStep(ttl, false, Races(alone, [Some(Rotate(0))]), Read(0), s1);
    var s2 := After(ttl, s1, Write(0, true));
    ReachableStep(ttl, false, s1, Write(0, true), s2);
    r := After(ttl, s2, Write(1, true));
    ReachableStep(ttl, false, s2, Write(1, true), r);
  }
}
