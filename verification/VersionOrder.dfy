/**
  The order in which migrations are loaded, alphabetical by file name, and the order of their
  version numbers: exactly when the two agree.
*/
module VersionOrder {
  import opened Shared
  import opened Strings
  import opened Migrations
  import opened MigrationFiles

  lemma {:induction false} PrefixOrder(a: string, b: string, n: nat)
    requires n <= |a| && n <= |b| && AtMost(a, b)
    ensures AtMost(a[..n], b[..n])
  {
    if n > 0 && a[0] == b[0] {
      PrefixOrder(a[1..], b[1..], n - 1);
      assert a[..n][1..] == a[1..][..n - 1] && b[..n][1..] == b[1..][..n - 1];
    }
  }

  function Pow10(n: nat): nat { if n == 0 then 1 else 10 * Pow10(n - 1) }

  lemma Shift(f: int, p: int, rest: int, d: int)
    ensures 10 * (f * p + rest) + d == f * (10 * p) + (10 * rest + d)
  {
  }

  /** Reading the number from its first digit. */
  lemma {:induction false} FromFirst(t: string)
    requires t != "" && AllDigits(t)
    ensures Number10(t) == (t[0] as int - '0' as int) * Pow10(|t| - 1) + Number10(t[1..])
    ensures 0 <= Number10(t[1..]) < Pow10(|t| - 1)
  {
    if |t| == 1 {
      assert t[..0] == "" && t[1..] == "";
    } else {
      var front := t[..|t| - 1];
      FromFirst(front);
      assert front[1..] == t[1..][..|t| - 2] && t[1..][|t| - 2] == t[|t| - 1];
      var d := t[|t| - 1] as int - '0' as int;
      assert Number10(t) == 10 * Number10(front) + d && Number10(t[1..]) == 10 * Number10(front[1..]) + d;
      Shift(t[0] as int - '0' as int, Pow10(|t| - 2), Number10(front[1..]), d);
    }
  }

  lemma Carry(a: int, b: int, p: nat)
    requires a < b
    ensures a * p + p <= b * p
  {
    assert (a + 1) * p <= b * p;
  }

  /** Among numbers of one width, alphabetical order is numeric order. */
  lemma {:induction false} SameWidthOrder(x: string, y: string)
    requires |x| == |y| && AllDigits(x) && AllDigits(y) && AtMost(x, y)
    ensures Number10(x) <= Number10(y)
  {
    if x != "" {
      FromFirst(x);
      FromFirst(y);
      if x[0] == y[0] {
        SameWidthOrder(x[1..], y[1..]);
      } else {
        Carry(x[0] as int - '0' as int, y[0] as int - '0' as int, Pow10(|x| - 1));
      }
    }
  }

  /** The other way round: the smaller number comes first. */
  lemma SameWidthExact(x: string, y: string)
    requires |x| == |y| && AllDigits(x) && AllDigits(y)
    ensures Number10(x) <= Number10(y) <==> AtMost(x, y)
  {
    if AtMost(x, y) {
      SameWidthOrder(x, y);
    } else {
      AtMostTotal(x, y);
      SameWidthOrder(y, x);
      if Number10(x) == Number10(y) { SameNumber(x, y); }
    }
  }

  lemma {:induction false} SameNumber(x: string, y: string)
    requires |x| == |y| && AllDigits(x) && AllDigits(y) && Number10(x) == Number10(y)
    ensures x == y
  {
    if x != "" {
      var n := |x| - 1;
      SameNumber(x[..n], y[..n]);
      assert x == x[..n] + [x[n]] && y == y[..n] + [y[n]];
    }
  }

  predicate AllZero(t: string) { forall i | 0 <= i < |t| :: t[i] == '0' }

  lemma FirstDigit(t: string)
    requires t != "" && AllDigits(t)
    ensures if t[0] == '0' then Number10(t) == Number10(t[1..]) else Number10(t) >= Pow10(|t| - 1)
  {
    FromFirst(t);
    Leading(t[0] as int - '0' as int, Pow10(|t| - 1), Number10(t[1..]));
  }

  lemma Leading(d: nat, p: nat, rest: nat)
    ensures if d == 0 then d * p + rest == rest else d * p + rest >= p
  {
    if d > 0 { MulMonotone(1, d, p); }
  }

  /** Digits in front of a number only count if they are not all zero. */
  lemma {:induction false} DigitsInFront(t: string, n: nat)
    requires n <= |t| && AllDigits(t)
    ensures if AllZero(t[..n]) then Number10(t) == Number10(t[n..]) else Number10(t) >= Pow10(|t| - n)
  {
    if n == 0 {
      assert t[0..] == t;
    } else {
      assert t[..n] == [t[0]] + t[1..][..n - 1];
      FirstDigit(t);
      if t[0] == '0' {
        DigitsInFront(t[1..], n - 1);
        assert t[1..][n - 1..] == t[n..];
      } else {
        PowMonotone(|t| - n, |t| - 1);
      }
    }
  }

  lemma {:induction false} PowMonotone(m: nat, n: nat)
    requires m <= n
    ensures 0 < Pow10(m) <= Pow10(n)
  {
    if m < n { PowMonotone(m, n - 1); } else if m > 0 { PowMonotone(m - 1, n - 1); }
  }

  lemma Below10(t: string)
    requires t != "" && AllDigits(t)
    ensures 0 <= Number10(t) < Pow10(|t|)
  {
    FromFirst(t);
    MulMonotone(0, t[0] as int - '0' as int, Pow10(|t| - 1));
    Carry(t[0] as int - '0' as int, 10, Pow10(|t| - 1));
  }

  /** A prefix of a number is no larger. */
  lemma {:induction false} PrefixNoLarger(t: string, n: nat)
    requires n <= |t| && AllDigits(t)
    ensures 0 <= Number10(t[..n]) <= Number10(t)
    decreases |t|
  {
    if n < |t| {
      PrefixNoLarger(t[..|t| - 1], n);
      assert t[..|t| - 1][..n] == t[..n];
    } else {
      assert t[..n] == t;
      if t != "" { Below10(t); }
    }
  }

  // ---------------------------------------------------------------- when the two orders agree

  /** `x` is no longer than `y`, or its excess digits are zeros and the rest is alphabetically no later. */
  predicate Fits(x: string, y: string) {
    |x| <= |y| || (AllZero(x[..|x| - |y|]) && AtMost(x[|x| - |y|..], y))
  }

  /**
    Of two files in alphabetical order, the first has no larger version number exactly if its version
    fits the second's.
  */
  lemma PairInOrder(a: string, b: string)
    requires VersionLength(a).Some? && VersionLength(b).Some? && AtMost(a, b)
    ensures var x, y := a[..VersionLength(a).value], b[..VersionLength(b).value];
      Number10(x) <= Number10(y) <==> Fits(x, y)
  {
    var x, y := a[..VersionLength(a).value], b[..VersionLength(b).value];
    if |x| <= |y| {
      PrefixOrder(a, b, |x|);
      assert b[..|x|] == y[..|x|];
      SameWidthOrder(x, y[..|x|]);
      PrefixNoLarger(y, |x|);
    } else {
      var n := |x| - |y|;
      DigitsInFront(x, n);
      Below10(y);
      SameWidthExact(x[n..], y);
    }
  }

  ghost predicate InVersionOrder(ms: seq<Migration>) {
    forall i, j | 0 <= i < j < |ms| :: Number10(ms[i].version) <= Number10(ms[j].version)
  }

  /** What `loadMigrationFiles` returns. */
  ghost predicate FromFiles(ms: seq<Migration>, read: string -> string, checksum: string -> string) {
    Ascending(FileOf, ms) && forall i | 0 <= i < |ms| :: FromFile(ms[i], read, checksum)
  }

  ghost predicate Neighbours(ms: seq<Migration>, i: int)
    requires 0 <= i < |ms| - 1
  {
    Number10(ms[i].version) <= Number10(ms[i + 1].version)
  }

  lemma {:induction false} NeighboursSuffice(ms: seq<Migration>, i: nat, j: nat)
    requires i <= j < |ms| && forall k | 0 <= k < |ms| - 1 :: Neighbours(ms, k)
    ensures Number10(ms[i].version) <= Number10(ms[j].version)
    decreases j
  {
    if i < j {
      NeighboursSuffice(ms, i, j - 1);
      assert Neighbours(ms, j - 1);
    }
  }

  /** The migrations loaded are in version order exactly if each version fits the next. */
  lemma LoadsInVersionOrder(ms: seq<Migration>, read: string -> string, checksum: string -> string)
    requires FromFiles(ms, read, checksum)
    ensures InVersionOrder(ms) <==> forall i | 0 <= i < |ms| - 1 :: Fits(ms[i].version, ms[i + 1].version)
  {
    forall i | 0 <= i < |ms| - 1 ensures Neighbours(ms, i) <==> Fits(ms[i].version, ms[i + 1].version) {
      assert FromFile(ms[i], read, checksum) && FromFile(ms[i + 1], read, checksum);
      assert AtMost(FileOf(ms[i]), FileOf(ms[i + 1]));
      PairInOrder(ms[i].filename, ms[i + 1].filename);
    }
    if forall k | 0 <= k < |ms| - 1 :: Neighbours(ms, k) {
      forall i, j | 0 <= i < j < |ms| ensures Number10(ms[i].version) <= Number10(ms[j].version) {
        NeighboursSuffice(ms, i, j);
      }
    }
  }

  /** Without leading zeros: exactly if no version is shorter than the one before it. */
  lemma LoadsInWidthOrder(ms: seq<Migration>, read: string -> string, checksum: string -> string)
    requires FromFiles(ms, read, checksum) && forall i | 0 <= i < |ms| :: ms[i].version[..1] != "0"
    ensures InVersionOrder(ms) <==> forall i | 0 <= i < |ms| - 1 :: |ms[i].version| <= |ms[i + 1].version|
  {
    LoadsInVersionOrder(ms, read, checksum);
    forall i | 0 <= i < |ms| - 1
      ensures Fits(ms[i].version, ms[i + 1].version) <==> |ms[i].version| <= |ms[i + 1].version|
    {
      assert FromFile(ms[i], read, checksum);
      HasVersion(ms[i].filename, read, checksum);
      FitsByWidth(ms[i].version, ms[i + 1].version);
    }
  }

  lemma HasVersion(file: string, read: string -> string, checksum: string -> string)
    requires VersionLength(file).Some?
    ensures Loaded(file, read, checksum).version != ""
  {
  }

  lemma FitsByWidth(x: string, y: string)
    requires x != "" && x[..1] != "0"
    ensures Fits(x, y) <==> |x| <= |y|
  {
    assert x[0] != '0' by { assert x[..1] == [x[0]]; }
  }

  /** Version 10 is applied before version 9. */
  lemma TenBeforeNine(read: string -> string, checksum: string -> string)
    ensures VersionLength("10_b.sql") == Some(2) && VersionLength("9_a.sql") == Some(1) && AtMost("10_b.sql", "9_a.sql")
    ensures Number10(Loaded("9_a.sql", read, checksum).version) < Number10(Loaded("10_b.sql", read, checksum).version)
  {
    var a, b := "10_b.sql", "9_a.sql";
    assert a[1..] == "0_b.sql" && "0_b.sql"[1..] == "_b.sql" && b[1..] == "_a.sql";
    assert LeadingDigits("_b.sql") == 0 && LeadingDigits("0_b.sql") == 1 && LeadingDigits(a) == 2;
    assert LeadingDigits("_a.sql") == 0 && LeadingDigits(b) == 1;
    assert a[4..] == ".sql" && b[3..] == ".sql";
    assert a[..2] == "10" && b[..1] == "9" && "10"[..1] == "1" && "1"[..0] == "" && "9"[..0] == "";
    assert Number10("1") == 1 && Number10("10") == 10 && Number10("9") == 9;
  }
}
