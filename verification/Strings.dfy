/**
  Strings as the original sorts and prints them: decimal numbers, alphabetical order, sorting by name.
*/
module Strings {

  function Digits(n: nat): string {
    if n < 10 then ['0' + n as char] else Digits(n / 10) + ['0' + (n % 10) as char]
  }

  /** The number a string of digits denotes. */
  function Number10(t: string): int {
    if t == "" then 0 else 10 * Number10(t[..|t| - 1]) + (t[|t| - 1] as int - '0' as int)
  }

  lemma {:induction false} DigitsRead(n: nat)
    ensures Number10(Digits(n)) == n && ':' !in Digits(n)
  {
    if n >= 10 {
      DigitsRead(n / 10);
      var t := Digits(n);
      assert t[..|t| - 1] == Digits(n / 10);
    } else {
      assert Digits(n)[..0] == "";
    }
  }

  // ---------------------------------------------------------------- alphabetical order

  predicate AtMost(a: string, b: string) {
    a == "" || (b != "" && (a[0] < b[0] || (a[0] == b[0] && AtMost(a[1..], b[1..]))))
  }

  lemma {:induction false} AtMostTotal(a: string, b: string)
    ensures AtMost(a, b) || AtMost(b, a)
  {
    if a != "" && b != "" && a[0] == b[0] { AtMostTotal(a[1..], b[1..]); }
  }

  lemma {:induction false} AtMostAntisymmetric(a: string, b: string)
    requires AtMost(a, b) && AtMost(b, a)
    ensures a == b
  {
    if a != "" {
      AtMostAntisymmetric(a[1..], b[1..]);
      assert a == [a[0]] + a[1..] && b == [b[0]] + b[1..];
    }
  }

  lemma {:induction false} AtMostTransitive(a: string, b: string, c: string)
    requires AtMost(a, b) && AtMost(b, c)
    ensures AtMost(a, c)
  {
    if a != "" && a[0] == b[0] && b[0] == c[0] { AtMostTransitive(a[1..], b[1..], c[1..]); }
  }

  // ---------------------------------------------------------------- sorting by name

  function Insert<T>(name: T -> string, x: T, sorted: seq<T>): seq<T> {
    if sorted == [] || AtMost(name(x), name(sorted[0])) then [x] + sorted
    else [sorted[0]] + Insert(name, x, sorted[1..])
  }

  function SortBy<T>(name: T -> string, xs: seq<T>): seq<T> {
    if xs == [] then [] else Insert(name, xs[0], SortBy(name, xs[1..]))
  }

  ghost predicate Ascending<T>(name: T -> string, xs: seq<T>) {
    forall i, j | 0 <= i < j < |xs| :: AtMost(name(xs[i]), name(xs[j]))
  }

  /** No name occurs twice. */
  ghost predicate DistinctBy<T>(name: T -> string, xs: seq<T>) {
    forall i, j | 0 <= i < j < |xs| :: name(xs[i]) != name(xs[j])
  }

  lemma {:induction false} InsertSorted<T>(name: T -> string, x: T, sorted: seq<T>)
    requires Ascending(name, sorted)
    ensures Ascending(name, Insert(name, x, sorted))
    ensures multiset(Insert(name, x, sorted)) == multiset{x} + multiset(sorted)
  {
    if sorted == [] || AtMost(name(x), name(sorted[0])) {
      forall j | 0 <= j < |sorted| ensures AtMost(name(x), name(sorted[j])) {
        if j > 0 { AtMostTransitive(name(x), name(sorted[0]), name(sorted[j])); }
      }
    } else {
      AtMostTotal(name(x), name(sorted[0]));
      InsertSorted(name, x, sorted[1..]);
      assert sorted == [sorted[0]] + sorted[1..];
      Below(name, sorted[0], Insert(name, x, sorted[1..]), multiset{x} + multiset(sorted[1..]));
    }
  }

  /** A lower bound of the elements, whatever their order. */
  lemma Below<T>(name: T -> string, x: T, xs: seq<T>, elements: multiset<T>)
    requires multiset(xs) == elements && forall y | y in elements :: AtMost(name(x), name(y))
    ensures forall j | 0 <= j < |xs| :: AtMost(name(x), name(xs[j]))
  {
    forall j | 0 <= j < |xs| ensures AtMost(name(x), name(xs[j])) {
      assert xs[j] in multiset(xs);
    }
  }

  /** Sorting puts the elements in order and keeps every one of them. */
  lemma {:induction false} SortByOk<T>(name: T -> string, xs: seq<T>)
    ensures Ascending(name, SortBy(name, xs)) && multiset(SortBy(name, xs)) == multiset(xs)
  {
    if xs != [] {
      SortByOk(name, xs[1..]);
      InsertSorted(name, xs[0], SortBy(name, xs[1..]));
      assert xs == [xs[0]] + xs[1..];
    }
  }

  lemma {:induction false} InsertDistinct<T>(name: T -> string, x: T, sorted: seq<T>)
    requires Ascending(name, sorted) && DistinctBy(name, sorted) && forall j | 0 <= j < |sorted| ::
      name(sorted[j]) != name(x)
    ensures DistinctBy(name, Insert(name, x, sorted))
  {
    if sorted != [] && !AtMost(name(x), name(sorted[0])) {
      InsertDistinct(name, x, sorted[1..]);
      InsertSorted(name, x, sorted[1..]);
      var rest := Insert(name, x, sorted[1..]);
      forall j | 0 <= j < |rest| ensures name(rest[j]) != name(sorted[0]) {
        assert rest[j] in multiset(rest);
      }
    }
  }

  lemma {:induction false} SortByDistinct<T>(name: T -> string, xs: seq<T>)
    requires DistinctBy(name, xs)
    ensures DistinctBy(name, SortBy(name, xs))
  {
    if xs != [] {
      SortByDistinct(name, xs[1..]);
      SortByOk(name, xs[1..]);
      forall j | 0 <= j < |SortBy(name, xs[1..])| ensures name(SortBy(name, xs[1..])[j]) != name(xs[0]) {
        assert SortBy(name, xs[1..])[j] in multiset(xs[1..]);
      }
      InsertDistinct(name, xs[0], SortBy(name, xs[1..]));
    }
  }
}
