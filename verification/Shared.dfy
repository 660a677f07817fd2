/**
  What the packages share: the status machine of an order, an optional value, a little arithmetic.
*/
module Shared {

  datatype Option<T> = None | Some(value: T)

  function Max(a: int, b: int): int { if a < b then b else a }
  function Min(a: int, b: int): int { if a < b then a else b }

  lemma MulMonotone(a: int, b: int, p: nat)
    requires a <= b
    ensures a * p <= b * p
  {
  }

  datatype Status = Pending | Confirmed | Shipped | Delivered | Cancelled

  function Transitions(from: Status): seq<Status> {
    match from
    case Pending => [Confirmed, Cancelled]
    case Confirmed => [Shipped, Cancelled]
    case Shipped => [Delivered]
    case Delivered => []
    case Cancelled => []
  }

  predicate IsAllowed(from: Status, to: Status) { from == to || to in Transitions(from) }

  predicate Terminal(s: Status) { s.Delivered? || s.Cancelled? }

  /** The changes an order can make. */
  const CHANGES := {(Pending, Confirmed), (Pending, Cancelled), (Confirmed, Shipped), (Confirmed, Cancelled),
    (Shipped, Delivered)}

  /** The table and the set of changes say the same; a terminal status is one without a way on. */
  lemma AllowedPairs(from: Status, to: Status)
    ensures to in Transitions(from) <==> (from, to) in CHANGES
    ensures IsAllowed(from, to) <==> from == to || (from, to) in CHANGES
    ensures Terminal(from) <==> forall x :: (from, x) !in CHANGES
    ensures forall i, j | 0 <= i < j < |Transitions(from)| :: Transitions(from)[i] != Transitions(from)[j]
  {
    if !Terminal(from) { assert (from, Transitions(from)[0]) in CHANGES; }
  }

  /** From `from` to `to` in that many real changes. */
  ghost predicate ReachesIn(from: Status, to: Status, n: nat)
    decreases n
  {
    if n == 0 then from == to else exists via :: via in Transitions(from) && ReachesIn(via, to, n - 1)
  }

  /** How far a status is from the start. */
  function Rank(s: Status): nat {
    match s
    case Pending => 0
    case Confirmed => 1
    case Shipped => 2
    case Delivered => 3
    case Cancelled => 3
  }

  /** A status never comes back, whatever the changes; every change climbs, and at most three are possible. */
  lemma {:induction false} StatusesClimb(from: Status, to: Status, n: nat)
    requires ReachesIn(from, to, n)
    ensures Rank(from) + n <= Rank(to) <= 3
    ensures n > 0 ==> from != to && !Terminal(from)
    decreases n
  {
    if n > 0 {
      var via :| via in Transitions(from) && ReachesIn(via, to, n - 1);
      StatusesClimb(via, to, n - 1);
    }
  }
}
