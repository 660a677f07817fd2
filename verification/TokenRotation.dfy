/**
  Refresh tokens: login and registration plant a root, each refresh revokes the token presented
  and adds its only child, and a revoked token that turns up again brings down every token of
  its user. Handlers do not overlap here; `TokenRaces` lets them.
*/
module TokenRotation {
  import opened Shared
  import Runs

  /**
    One row of `refresh_tokens`; its index is its id, and what a client presents is an index.
    `parent`: the token it replaced.
  */
  datatype Token = Token(user: nat, expiresAt: nat, revokedAt: Option<nat>, parent: Option<nat>)

  datatype State = State(now: nat, tokens: seq<Token>)

  /** What the SELECT of a refresh leads to. */
  datatype Verdict = Invalid | Reused(user: nat) | Rotate(token: nat)

  datatype Step =
    | Pass(seconds: nat)
    | Grant(user: nat)
    | Refresh(presented: nat, inserts: bool)
    | Logout(presented: nat)

  function Judge(s: State, presented: nat): Verdict {
    if presented >= |s.tokens| || s.tokens[presented].expiresAt <= s.now then Invalid
    else if s.tokens[presented].revokedAt.Some? then Reused(s.tokens[presented].user)
    else Rotate(presented)
  }

  function Revoke(s: State, t: nat): State {
    if t < |s.tokens| then s.(tokens := s.tokens[t := s.tokens[t].(revokedAt := Some(s.now))]) else s
  }

  /** `UPDATE ... WHERE user_id = $1 AND revoked_at IS NULL` */
  function RevokeAll(s: State, user: nat): (s': State)
    ensures s'.now == s.now && |s'.tokens| == |s.tokens|
    ensures forall t | 0 <= t < |s.tokens| ::
      s'.tokens[t] == if s.tokens[t].user == user && s.tokens[t].revokedAt.None? then
        s.tokens[t].(revokedAt := Some(s.now)) else s.tokens[t]
  {
    s.(tokens := seq(|s.tokens|, t requires 0 <= t < |s.tokens| =>
      if s.tokens[t].user == user && s.tokens[t].revokedAt.None? then s.tokens[t].(revokedAt := Some(s.now))
      else s.tokens[t]))
  }

  function Added(ttl: nat, s: State, user: nat, parent: Option<nat>): State {
    s.(tokens := s.tokens + [Token(user, s.now + ttl, None, parent)])
  }

  /** What the handler does with its verdict, now. `inserts`: the new token could be stored. */
  function Act(ttl: nat, s: State, v: Verdict, inserts: bool): State {
    match v
    case Invalid => s
    case Reused(user) => RevokeAll(s, user)
    case Rotate(t) =>
      if t >= |s.tokens| then s
      else if inserts then Added(ttl, Revoke(s, t), s.tokens[t].user, Some(t))
      else Revoke(s, t)
  }

  function Next(ttl: nat, s: State, step: Step): State {
    match step
    case Pass(seconds) => s.(now := s.now + seconds)
    case Grant(user) => Added(ttl, s, user, None)
    case Refresh(presented, inserts) => Act(ttl, s, Judge(s, presented), inserts)
    case Logout(presented) => Revoke(s, presented)
  }

  const NONE_YET := State(0, [])

  ghost function Machine(ttl: nat): Runs.System<State, Step> {
    Runs.System(s => s == NONE_YET, (s, step) => true, (s, step) => Next(ttl, s, step))
  }

  ghost predicate Reachable(ttl: nat, s: State) { Runs.Reaches(Machine(ttl), s) }

  lemma ReachableInit(ttl: nat)
    ensures Reachable(ttl, NONE_YET)
  {
    Runs.Start(Machine(ttl), NONE_YET);
  }

  lemma ReachableStep(ttl: nat, s: State, step: Step, s': State)
    requires Reachable(ttl, s) && Next(ttl, s, step) == s'
    ensures Reachable(ttl, s')
  {
    Runs.Go(Machine(ttl), s, step, s');
  }

  // ---------------------------------------------------------------- the forest

  predicate Unrevoked(s: State, t: nat) { t < |s.tokens| && s.tokens[t].revokedAt.None? }

  predicate Live(s: State, t: nat) { Unrevoked(s, t) && s.now < s.tokens[t].expiresAt }

  /** A child comes after its parent, is the same user's, and its parent is revoked. */
  ghost predicate ChildOk(s: State, t: nat)
    requires t < |s.tokens|
  {
    s.tokens[t].parent.Some? ==>
      && s.tokens[t].parent.value < t
      && s.tokens[s.tokens[t].parent.value].revokedAt.Some?
      && s.tokens[s.tokens[t].parent.value].user == s.tokens[t].user
  }

  ghost predicate Forest(s: State) {
    && (forall t | 0 <= t < |s.tokens| :: ChildOk(s, t))
    && (forall t, u | 0 <= t < |s.tokens| && 0 <= u < |s.tokens| && s.tokens[t].parent.Some?
                      && s.tokens[u].parent == s.tokens[t].parent :: t == u)
  }

  /** The token its line of rotations started from. */
  ghost function Root(s: State, t: nat): nat
    requires t < |s.tokens|
    decreases t
  {
    if s.tokens[t].parent.Some? && s.tokens[t].parent.value < t then Root(s, s.tokens[t].parent.value) else t
  }

  ghost predicate OnePerRoot(s: State) {
    forall t, u | Unrevoked(s, t) && Unrevoked(s, u) && Root(s, t) == Root(s, u) :: t == u
  }

  ghost predicate Inv(s: State) { Forest(s) && OnePerRoot(s) }

  /** No step changes what a token is, and none makes a revoked one valid again. */
  lemma TokensStay(ttl: nat, s: State, step: Step, t: nat)
    requires t < |s.tokens|
    ensures var s' := Next(ttl, s, step);
      && s.now <= s'.now && |s.tokens| <= |s'.tokens| <= |s.tokens| + 1
      && s'.tokens[t].parent == s.tokens[t].parent && s'.tokens[t].user == s.tokens[t].user
      && s'.tokens[t].expiresAt == s.tokens[t].expiresAt
      && (s.tokens[t].revokedAt.Some? ==> s'.tokens[t].revokedAt.Some?)
  {
  }

  lemma {:induction false} RootStays(ttl: nat, s: State, step: Step, t: nat)
    requires t < |s.tokens|
    ensures t < |Next(ttl, s, step).tokens| && Root(Next(ttl, s, step), t) == Root(s, t)
    decreases t
  {
    TokensStay(ttl, s, step, t);
    if s.tokens[t].parent.Some? && s.tokens[t].parent.value < t { RootStays(ttl, s, step, s.tokens[t].parent.value); }
  }

  /** The token a step adds: a new root, or the child of a token that was valid until now. */
  lemma NewToken(ttl: nat, s: State, step: Step)
    requires |Next(ttl, s, step).tokens| > |s.tokens|
    ensures var s' := Next(ttl, s, step);
      |s'.tokens| == |s.tokens| + 1 &&
      var x := s'.tokens[|s.tokens|];
      if step.Grant? then x.parent.None?
      else step.Refresh? && x.parent == Some(step.presented) && step.presented < |s.tokens|
           && s.tokens[step.presented].revokedAt.None? && s'.tokens[step.presented].revokedAt.Some?
           && x.user == s.tokens[step.presented].user
  {
  }

  lemma ForestStep(ttl: nat, s: State, step: Step)
    requires Forest(s)
    ensures Forest(Next(ttl, s, step))
  {
    var s' := Next(ttl, s, step);
    if |s'.tokens| > |s.tokens| { NewToken(ttl, s, step); }
    forall t | 0 <= t < |s'.tokens| ensures ChildOk(s', t) {
      if t < |s.tokens| {
        assert ChildOk(s, t);
        TokensStay(ttl, s, step, t);
        if s.tokens[t].parent.Some? { TokensStay(ttl, s, step, s.tokens[t].parent.value); }
      }
    }
    forall t, u | 0 <= t < |s'.tokens| && 0 <= u < |s'.tokens| && s'.tokens[t].parent.Some?
      && s'.tokens[u].parent == s'.tokens[t].parent
      ensures t == u
    {
      if t < |s.tokens| { TokensStay(ttl, s, step, t); assert ChildOk(s, t); }
      if u < |s.tokens| { TokensStay(ttl, s, step, u); assert ChildOk(s, u); }
    }
  }

  /**
    Where a valid token comes from: it was valid before, or it replaced a valid one of its line, or it
    is a new root.
  */
  lemma ValidFrom(ttl: nat, s: State, step: Step, t: nat) returns (was: nat)
    requires Forest(s) && Unrevoked(Next(ttl, s, step), t)
    ensures was == t || (step == Refresh(was, true) && t == |s.tokens|) || (step.Grant? && was == t == |s.tokens|)
    ensures was < |s.tokens| ==> Unrevoked(s, was) && Root(Next(ttl, s, step), t) == Root(s, was)
    ensures was < t ==> !Unrevoked(Next(ttl, s, step), was)
    ensures was >= |s.tokens| ==> step.Grant? && Root(Next(ttl, s, step), t) == t
  {
    was := t;
    if t < |s.tokens| {
      TokensStay(ttl, s, step, t);
      RootStays(ttl, s, step, t);
    } else {
      NewToken(ttl, s, step);
      if step.Refresh? {
        was := step.presented;
        RootStays(ttl, s, step, was);
      }
    }
  }

  lemma {:induction false} RootBelow(s: State, t: nat)
    requires t < |s.tokens|
    ensures Root(s, t) <= t
    decreases t
  {
    if s.tokens[t].parent.Some? && s.tokens[t].parent.value < t { RootBelow(s, s.tokens[t].parent.value); }
  }

  lemma OnePerRootStep(ttl: nat, s: State, step: Step)
    requires Inv(s)
    ensures OnePerRoot(Next(ttl, s, step))
  {
    var s' := Next(ttl, s, step);
    forall t, u | Unrevoked(s', t) && Unrevoked(s', u) && Root(s', t) == Root(s', u) ensures t == u {
      var a := ValidFrom(ttl, s, step, t);
      var b := ValidFrom(ttl, s, step, u);
      if a < |s.tokens| { RootBelow(s, a); }
      if b < |s.tokens| { RootBelow(s, b); }
    }
  }

  lemma InvReachable(ttl: nat, s: State)
    requires Reachable(ttl, s)
    ensures Inv(s)
  {
    forall x, step | Inv(x) ensures Inv(Next(ttl, x, step)) {
      ForestStep(ttl, x, step);
      OnePerRootStep(ttl, x, step);
    }
    Runs.Invariant(Machine(ttl), Inv, s);
  }

  // ---------------------------------------------------------------- theorems

  /** Once revoked or expired, a token is never live again, whatever happens. */
  lemma {:induction false} DeadStaysDead(ttl: nat, s: State, steps: seq<Step>, t: nat)
    requires t < |s.tokens| && !Live(s, t)
    ensures !Live(Runs.After(Machine(ttl), s, steps), t)
    decreases |steps|
  {
    if steps != [] {
      TokensStay(ttl, s, steps[0], t);
      DeadStaysDead(ttl, Next(ttl, s, steps[0]), steps[1..], t);
    }
  }

  /** One login, one live token: of all tokens that go back to one root at most one is unrevoked. */
  lemma OneLiveDescendant(ttl: nat, s: State, t: nat, u: nat)
    requires Reachable(ttl, s) && Unrevoked(s, t) && Unrevoked(s, u) && Root(s, t) == Root(s, u)
    ensures t == u
  {
    InvReachable(ttl, s);
  }

  /** A token is exchanged for a new one at most once, and not before it is revoked. */
  lemma RotatedAtMostOnce(ttl: nat, s: State, t: nat, u: nat)
    requires Reachable(ttl, s) && t < |s.tokens| && u < |s.tokens|
    requires s.tokens[t].parent.Some? && s.tokens[u].parent == s.tokens[t].parent
    ensures t == u && s.tokens[t].parent.value < t && !Unrevoked(s, s.tokens[t].parent.value)
  {
    InvReachable(ttl, s);
    assert ChildOk(s, t);
  }

  /**
    A refresh yields a new token exactly if the one presented is live and the new one can be stored. The
    new one is then the only live token of its line.
  */
  lemma RefreshSucceeds(ttl: nat, s: State, presented: nat, inserts: bool)
    requires Reachable(ttl, s)
    ensures var s' := Next(ttl, s, Refresh(presented, inserts));
      && (|s'.tokens| > |s.tokens| <==> Live(s, presented) && inserts)
      && (Live(s, presented) ==> !Live(s', presented))
      && (Live(s, presented) ==>
           forall u: nat | Live(s', u) && Root(s', u) == Root(s, presented) :: u == |s.tokens| && inserts)
      && (Live(s, presented) && inserts && ttl > 0 ==>
           Live(s', |s.tokens|) && Root(s', |s.tokens|) == Root(s, presented))
  {
    var step := Refresh(presented, inserts);
    var s' := Next(ttl, s, step);
    InvReachable(ttl, s);
    if Live(s, presented) {
      RootStays(ttl, s, step, presented);
      forall u: nat | Live(s', u) && Root(s', u) == Root(s, presented) ensures u == |s.tokens| && inserts {
        var was := ValidFrom(ttl, s, step, u);
        assert OnePerRoot(s) && Root(s, was) == Root(s, presented);
      }
    }
  }

  /** A step that issues a token: a login or registration, or the refresh of a live token. */
  ghost predicate Issues(ttl: nat, s: State, step: Step) { |Next(ttl, s, step).tokens| > |s.tokens| }

  lemma {:induction false} LifeStays(ttl: nat, s: State, steps: seq<Step>, t: nat)
    requires t < |s.tokens|
    ensures var end := Runs.After(Machine(ttl), s, steps);
      s.now <= end.now && t < |end.tokens| && end.tokens[t].expiresAt == s.tokens[t].expiresAt
      && end.tokens[t].user == s.tokens[t].user
    decreases |steps|
  {
    if steps != [] {
      TokensStay(ttl, s, steps[0], t);
      LifeStays(ttl, Next(ttl, s, steps[0]), steps[1..], t);
    }
  }

  /**
    A token lives for exactly `ttl` from when it was issued, whatever happens in between: from then on
    every refresh with it is answered 401 and changes nothing; before, as long as it is not revoked, it is
    exchanged for one that lives for `ttl` from that moment.
  */
  lemma LivesForTtl(ttl: nat, s: State, step: Step, steps: seq<Step>, inserts: bool)
    requires Issues(ttl, s, step)
    ensures var t := |s.tokens|;
      var end := Runs.After(Machine(ttl), Next(ttl, s, step), steps);
      var after := Next(ttl, end, Refresh(t, inserts));
      && t < |end.tokens|
      && (s.now + ttl <= end.now ==> Judge(end, t) == Invalid && after == end)
      && (end.now < s.now + ttl && end.tokens[t].revokedAt.None? && inserts ==>
            && |after.tokens| == |end.tokens| + 1
            && after.tokens[|end.tokens|] == Token(end.tokens[t].user, end.now + ttl, None, Some(t)))
      && (end.now < s.now + ttl && end.tokens[t].revokedAt.Some? ==> Judge(end, t) == Reused(end.tokens[t].user))
  {
    assert Next(ttl, s, step).tokens[|s.tokens|].expiresAt == s.now + ttl;
    LifeStays(ttl, Next(ttl, s, step), steps, |s.tokens|);
  }

  /**
    A token that was exchanged and turns up again before it expires takes down every token of its
    user, and nobody else's.
  */
  lemma ReuseRevokesAll(ttl: nat, s: State, child: nat, inserts: bool, t: nat)
    requires Reachable(ttl, s) && child < |s.tokens| && s.tokens[child].parent.Some?
    requires s.tokens[child].parent.value < |s.tokens| && s.now < s.tokens[s.tokens[child].parent.value].expiresAt
    ensures var s' := Next(ttl, s, Refresh(s.tokens[child].parent.value, inserts));
      && |s'.tokens| == |s.tokens|
      && (t < |s.tokens| && s.tokens[t].user == s.tokens[child].user ==> !Live(s', t))
      && (t < |s.tokens| && s.tokens[t].user != s.tokens[child].user ==> s'.tokens[t] == s.tokens[t])
  {
    InvReachable(ttl, s);
    assert ChildOk(s, child);
  }

  // ---------------------------------------------------------------- the handlers

  datatype Answer = Tokens(issued: nat) | InvalidToken | TokenReused | InternalError

  class TokenService {
    const ttl: nat
    var st: State

    ghost predicate Ok()
      reads this
    {
      Reachable(ttl, st)
    }

    constructor (ttl: nat)
      ensures Ok() && st == NONE_YET && this.ttl == ttl
    {
      this.ttl := ttl;
      st := NONE_YET;
      new;
      ReachableInit(ttl);
    }

    method Do(step: Step)
      requires Ok()
      modifies this
      ensures Ok() && st == Next(ttl, old(st), step)
    {
      ReachableStep(ttl, st, step, Next(ttl, st, step));
      st := Next(ttl, st, step);
    }

    /** `createTokens` after a login or a registration. */
    method CreateTokens(user: nat) returns (issued: nat)
      requires Ok()
      modifies this
      ensures Ok() && issued == old(|st.tokens|) && |st.tokens| == issued + 1 && st.tokens[..issued] == old(st.tokens)
      ensures st.tokens[issued] == Token(user, old(st.now) + ttl, None, None) && Root(st, issued) == issued
    {
      issued := |st.tokens|;
      Do(Grant(user));
    }

    /** POST /v1/auth/refresh. */
    method RefreshToken(presented: nat, inserts: bool) returns (answer: Answer)
      requires Ok()
      modifies this
      ensures Ok() && |st.tokens| >= old(|st.tokens|)
      ensures answer == InvalidToken <==>
        presented >= old(|st.tokens|) || old(st.tokens)[presented].expiresAt <= old(st.now)
      ensures answer == InvalidToken ==> st == old(st)
      ensures answer == TokenReused ==>
        (forall t: nat | Live(st, t) :: st.tokens[t].user != old(st.tokens)[presented].user)
      ensures answer == TokenReused ==> |st.tokens| == old(|st.tokens|)
      ensures answer == TokenReused ==>
        (forall t | 0 <= t < |st.tokens| :: st.tokens[t].user != old(st.tokens)[presented].user ==>
          st.tokens[t] == old(st.tokens)[t])
      ensures answer.Tokens? || answer.InternalError? <==> Live(old(st), presented)
      ensures answer.Tokens? ==>
        inserts && !Live(st, presented) && answer.issued == old(|st.tokens|) && Replaces(st, answer.issued, presented)
      ensures answer.Tokens? ==> |st.tokens| == answer.issued + 1
      ensures answer.Tokens? ==>
        st.tokens[answer.issued] == Token(old(st.tokens)[presented].user, old(st.now) + ttl, None, Some(presented))
      ensures answer.Tokens? || answer.InternalError? ==>
        st.tokens[presented] == old(st.tokens)[presented].(revokedAt := Some(old(st.now)))
      ensures answer.Tokens? || answer.InternalError? ==> OthersKept(old(st), st, presented)
      ensures answer.InternalError? ==> !inserts && !Live(st, presented) && |st.tokens| == old(|st.tokens|)
    {
      var verdict := Judge(st, presented);
      answer := match verdict
        case Invalid => InvalidToken
        case Reused(_) => TokenReused
        case Rotate(_) => if inserts then Tokens(|st.tokens|) else InternalError;
      Do(Refresh(presented, inserts));
    }

    /** POST /v1/auth/logout: the token presented, whosever it is, is revoked. */
    method LogOut(presented: nat)
      requires Ok()
      modifies this
      ensures Ok() && !Live(st, presented) && |st.tokens| == old(|st.tokens|)
      ensures presented < |st.tokens| ==>
        st.tokens[presented] == old(st.tokens)[presented].(revokedAt := Some(old(st.now)))
      ensures forall t | 0 <= t < |st.tokens| && t != presented :: st.tokens[t] == old(st.tokens)[t]
    {
      Do(Logout(presented));
    }
  }

  /** No token but `t` has changed. */
  ghost predicate OthersKept(s: State, s': State, t: nat) {
    |s.tokens| <= |s'.tokens| && forall u | 0 <= u < |s.tokens| && u != t :: s'.tokens[u] == s.tokens[u]
  }

  /** `issued` is a valid token of the same user in the place of `t`. */
  ghost predicate Replaces(s: State, issued: nat, t: nat) {
    Unrevoked(s, issued) && t < issued && s.tokens[issued].parent == Some(t)
      && s.tokens[issued].user == s.tokens[t].user
  }
}
