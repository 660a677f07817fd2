/**
  `GET /v1/orders`: the parameterised SQL the handler builds step by step, what it means, and
  how its pages tile the matching rows.
*/
module OrderListing {

  import opened Shared

  /** One row of `orders`; times as seconds. */
  datatype Order = Order(id: nat, user: string, email: string, status: Status, createdAt: int)

  /** A timestamp as the client wrote it, and the instant it denotes. */
  datatype Instant = Instant(text: string, at: int)

  /** The optional filters of a request, always under the authenticated user. */
  datatype Filter = Filter(user: string, status: Option<Status>, email: Option<string>, after: Option<Instant>,
                           before: Option<Instant>)

  datatype Query = Query(filter: Filter, page: nat, pageSize: nat)

  /** What the schema admits: page from 1, page size 1 to 100. */
  predicate ValidQuery(q: Query) { q.page >= 1 && 1 <= q.pageSize <= 100 }

  function Lower(c: char): char { if 'A' <= c <= 'Z' then c - 'A' + 'a' else c }

  function ToLower(s: string): string { seq(|s|, i requires 0 <= i < |s| => Lower(s[i])) }

  // ---------------------------------------------------------------- what the caller means

  predicate Matches(f: Filter, o: Order) {
    && o.user == f.user
    && (f.status.Some? ==> o.status == f.status.value)
    && (f.email.Some? ==> o.email == ToLower(f.email.value))
    && (f.after.Some? ==> o.createdAt >= f.after.value.at)
    && (f.before.Some? ==> o.createdAt <= f.before.value.at)
  }

  /** The filter as the count cache keys it: the e-mail address in lower case. */
  function Normal(f: Filter): Filter {
    f.(email := if f.email.Some? then Some(ToLower(f.email.value)) else None)
  }

  /** It selects the same rows. */
  lemma {:induction false} NormalMatching(f: Filter, table: seq<Order>)
    ensures Matching(Normal(f), table) == Matching(f, table)
  {
    if table != [] {
      NormalMatching(f, table[1..]);
      if f.email.Some? { assert ToLower(ToLower(f.email.value)) == ToLower(f.email.value); }
    }
  }

  /** The rows that match, in table order (newest first, ties in any fixed order). */
  function Matching(f: Filter, table: seq<Order>): seq<Order> {
    if table == [] then []
    else (if Matches(f, table[0]) then [table[0]] else []) + Matching(f, table[1..])
  }

  /** LIMIT and OFFSET. */
  function Slice<T>(rows: seq<T>, limit: nat, offset: nat): seq<T> {
    var lo := if offset < |rows| then offset else |rows|;
    var hi := if lo + limit < |rows| then lo + limit else |rows|;
    rows[lo..hi]
  }

  function PageRows(q: Query, table: seq<Order>): seq<Order>
    requires q.page >= 1
  {
    Slice(Matching(q.filter, table), q.pageSize, Offset(q))
  }

  function Count(f: Filter, table: seq<Order>): nat { |Matching(f, table)| }

  // ---------------------------------------------------------------- pagination

  function Offset(q: Query): nat
    requires q.page >= 1
  {
    (q.page - 1) * q.pageSize
  }

  function CeilDiv(n: nat, d: nat): nat
    requires d > 0
  {
    (n + d - 1) / d
  }

  datatype Meta = Meta(page: nat, pageSize: nat, total: nat, totalPages: nat, hasNext: bool, hasPrev: bool)

  function BuildMeta(total: nat, page: nat, pageSize: nat): Meta
    requires pageSize > 0
  {
    var totalPages := if total == 0 then 0 else CeilDiv(total, pageSize);
    Meta(page, pageSize, total, totalPages, page < totalPages, page > 1)
  }

  // ---------------------------------------------------------------- the SQL that is built

  datatype Value = UserValue(user: string) | StatusValue(status: Status) | TextValue(text: string)
                 | TimeValue(time: int) | NumberValue(number: nat)

  datatype Column = UserId | StatusColumn | CustomerEmail | CreatedAt

  datatype Op = Equal | AtLeast | AtMost

  /** `column op $n` */
  datatype Clause = Clause(column: Column, op: Op, n: nat)

  datatype Sql = Sql(clauses: seq<Clause>, limit: Option<nat>, offset: Option<nat>)

  function Cell(c: Column, o: Order): Value {
    match c
    case UserId => UserValue(o.user)
    case StatusColumn => StatusValue(o.status)
    case CustomerEmail => TextValue(o.email)
    case CreatedAt => TimeValue(o.createdAt)
  }

  predicate Compare(op: Op, x: Value, y: Value) {
    match op
    case Equal => x == y
    case AtLeast => x.TimeValue? && y.TimeValue? && x.time >= y.time
    case AtMost => x.TimeValue? && y.TimeValue? && x.time <= y.time
  }

  /** One clause on one row, its placeholder bound to `params` (numbered from 1). */
  predicate Holds(c: Clause, params: seq<Value>, o: Order) {
    1 <= c.n <= |params| && Compare(c.op, Cell(c.column, o), params[c.n - 1])
  }

  /** The conjunction of all clauses. */
  predicate Satisfies(clauses: seq<Clause>, params: seq<Value>, o: Order) {
    forall i | 0 <= i < |clauses| :: Holds(clauses[i], params, o)
  }

  function Where(clauses: seq<Clause>, params: seq<Value>, table: seq<Order>): seq<Order> {
    if table == [] then []
    else (if Satisfies(clauses, params, table[0]) then [table[0]] else []) + Where(clauses, params, table[1..])
  }

  function Bound(n: Option<nat>, params: seq<Value>): Option<nat> {
    if n.Some? && 1 <= n.value <= |params| && params[n.value - 1].NumberValue?
    then Some(params[n.value - 1].number) else None
  }

  /** The rows a SELECT with these parameters returns. */
  function Run(sql: Sql, params: seq<Value>, table: seq<Order>): seq<Order> {
    var rows := Where(sql.clauses, params, table);
    var offset := Bound(sql.offset, params);
    var limit := Bound(sql.limit, params);
    Slice(rows, if limit.Some? then limit.value else |rows|, if offset.Some? then offset.value else 0)
  }

  /** Each clause denotes its own filter. */
  ghost predicate Means(clauses: seq<Clause>, params: seq<Value>, f: Filter) {
    forall o: Order :: Satisfies(clauses, params, o) <==> Matches(f, o)
  }

  lemma {:induction false} WhereIsMatching(clauses: seq<Clause>, params: seq<Value>, f: Filter, table: seq<Order>)
    requires Means(clauses, params, f)
    ensures Where(clauses, params, table) == Matching(f, table)
    decreases |table|
  {
    if table != [] { WhereIsMatching(clauses, params, f, table[1..]); }
  }

  /** Adding a clause with its parameter adds its condition and changes no other clause. */
  lemma AddClause(clauses: seq<Clause>, params: seq<Value>, c: Column, op: Op, v: Value, o: Order)
    requires forall i | 0 <= i < |clauses| :: 1 <= clauses[i].n <= |params|
    ensures var ps := params + [v];
      Satisfies(clauses + [Clause(c, op, |ps|)], ps, o) <==> Satisfies(clauses, params, o) && Compare(op, Cell(c, o), v)
  {
    var ps := params + [v];
    var cs := clauses + [Clause(c, op, |ps|)];
    assert cs[|clauses|] == Clause(c, op, |ps|);
    forall i | 0 <= i < |clauses| ensures Holds(cs[i], ps, o) <==> Holds(clauses[i], params, o) {
      assert cs[i] == clauses[i];
    }
    if Satisfies(cs, ps, o) {
      assert Holds(cs[|clauses|], ps, o);
      forall i | 0 <= i < |clauses| ensures Holds(clauses[i], params, o) { assert Holds(cs[i], ps, o); }
    }
  }

  /** Every clause of `clauses` has a parameter, and together they mean `f`. */
  ghost predicate Built(clauses: seq<Clause>, params: seq<Value>, f: Filter) {
    && (forall i | 0 <= i < |clauses| :: 1 <= clauses[i].n <= |params|)
    && Means(clauses, params, f)
  }

  lemma BuiltWith(clauses: seq<Clause>, params: seq<Value>, f: Filter, c: Column, op: Op, v: Value, f': Filter)
    requires Built(clauses, params, f)
    requires forall o: Order :: Matches(f', o) <==> Matches(f, o) && Compare(op, Cell(c, o), v)
    ensures Built(clauses + [Clause(c, op, |params| + 1)], params + [v], f')
  {
    forall o: Order
      ensures Satisfies(clauses + [Clause(c, op, |params| + 1)], params + [v], o) <==> Matches(f', o)
    {
      AddClause(clauses, params, c, op, v, o);
    }
  }

  /** Parameters after the ones a clause uses do not matter to it. */
  lemma MoreParams(clauses: seq<Clause>, params: seq<Value>, more: seq<Value>, f: Filter)
    requires Built(clauses, params, f)
    ensures Built(clauses, params + more, f)
  {
    forall o: Order ensures Satisfies(clauses, params + more, o) <==> Matches(f, o) {
      forall i | 0 <= i < |clauses| ensures Holds(clauses[i], params + more, o) <==> Holds(clauses[i], params, o) {
      }
      assert Satisfies(clauses, params, o) <==> Matches(f, o);
    }
  }

  /** The clauses and parameters `fetchOrdersPage` pushes, one filter after another. */
  method BuildWhere(f: Filter) returns (clauses: seq<Clause>, params: seq<Value>)
    ensures Built(clauses, params, f)
  {
    clauses, params := [Clause(UserId, Equal, 1)], [UserValue(f.user)];
    ghost var g := Filter(f.user, None, None, None, None);
    assert Built(clauses, params, g) by { OnlyUser(f.user); }
    if f.status.Some? {
      BuiltWith(clauses, params, g, StatusColumn, Equal, StatusValue(f.status.value), g.(status := f.status));
      params := params + [StatusValue(f.status.value)];
      clauses := clauses + [Clause(StatusColumn, Equal, |params|)];
    }
    g := g.(status := f.status);
    if f.email.Some? {
      BuiltWith(clauses, params, g, CustomerEmail, Equal, TextValue(ToLower(f.email.value)), g.(email := f.email));
      params := params + [TextValue(ToLower(f.email.value))];
      clauses := clauses + [Clause(CustomerEmail, Equal, |params|)];
    }
    clauses, params := BuildDates(f, clauses, params);
  }

  method BuildDates(f: Filter, given: seq<Clause>, givenParams: seq<Value>)
    returns (clauses: seq<Clause>, params: seq<Value>)
    requires Built(given, givenParams, f.(after := None, before := None))
    ensures Built(clauses, params, f)
  {
    clauses, params := given, givenParams;
    ghost var g := f.(after := None, before := None);
    if f.after.Some? {
      BuiltWith(clauses, params, g, CreatedAt, AtLeast, TimeValue(f.after.value.at), g.(after := f.after));
      params := params + [TimeValue(f.after.value.at)];
      clauses := clauses + [Clause(CreatedAt, AtLeast, |params|)];
    }
    g := g.(after := f.after);
    if f.before.Some? {
      BuiltWith(clauses, params, g, CreatedAt, AtMost, TimeValue(f.before.value.at), g.(before := f.before));
      params := params + [TimeValue(f.before.value.at)];
      clauses := clauses + [Clause(CreatedAt, AtMost, |params|)];
    }
  }

  lemma OnlyUser(user: string)
    ensures Built([Clause(UserId, Equal, 1)], [UserValue(user)], Filter(user, None, None, None, None))
  {
    forall o: Order
      ensures Satisfies([Clause(UserId, Equal, 1)], [UserValue(user)], o) <==>
        Matches(Filter(user, None, None, None, None), o)
    {
      assert Holds([Clause(UserId, Equal, 1)][0], [UserValue(user)], o) <==> o.user == user;
    }
  }

  /** Both queries of the handler return what the caller means, on every table. */
  method BuildQueries(q: Query) returns (page: Sql, pageParams: seq<Value>, count: Sql, countParams: seq<Value>)
    requires q.page >= 1
    ensures forall table :: Run(page, pageParams, table) == PageRows(q, table)
    ensures forall table :: |Run(count, countParams, table)| == Count(q.filter, table)
  {
    var clauses, params := BuildWhere(q.filter);
    var listParams := params + [NumberValue(q.pageSize), NumberValue(Offset(q))];
    page, pageParams := Sql(clauses, Some(|listParams| - 1), Some(|listParams|)), listParams;
    count, countParams := Sql(clauses, None, None), params;
    MoreParams(clauses, params, [NumberValue(q.pageSize), NumberValue(Offset(q))], q.filter);
    forall table ensures Run(page, pageParams, table) == PageRows(q, table) {
      WhereIsMatching(clauses, pageParams, q.filter, table);
    }
    forall table ensures |Run(count, countParams, table)| == Count(q.filter, table) {
      WhereIsMatching(clauses, countParams, q.filter, table);
    }
  }

  // ---------------------------------------------------------------- pages tile the rows

  /** Pages 1 to `n`, one after another. */
  ghost function PagesUpTo(f: Filter, pageSize: nat, n: nat, table: seq<Order>): seq<Order> {
    if n == 0 then [] else PagesUpTo(f, pageSize, n - 1, table) + PageRows(Query(f, n, pageSize), table)
  }

  /** LIMIT and OFFSET take up where the first `offset` rows end. */
  lemma SliceContinues<T>(rows: seq<T>, limit: nat, offset: nat)
    ensures rows[..Min(offset, |rows|)] + Slice(rows, limit, offset) == rows[..Min(offset + limit, |rows|)]
  {
  }

  lemma OnePageMore(n: nat, pageSize: nat)
    requires n > 0
    ensures n * pageSize == (n - 1) * pageSize + pageSize && 0 <= (n - 1) * pageSize
  {
  }

  lemma {:induction false} PagesArePrefix(f: Filter, pageSize: nat, n: nat, table: seq<Order>)
    requires pageSize > 0
    ensures 0 <= n * pageSize
    ensures PagesUpTo(f, pageSize, n, table) == Matching(f, table)[..Min(n * pageSize, Count(f, table))]
    decreases n
  {
    if n > 0 {
      PagesArePrefix(f, pageSize, n - 1, table);
      OnePageMore(n, pageSize);
      SliceContinues(Matching(f, table), pageSize, (n - 1) * pageSize);
    }
  }

  /** The ceiling the handler computes: enough pages, and none too many. */
  lemma CeilBounds(total: nat, pageSize: nat)
    requires pageSize > 0 && total > 0
    ensures (CeilDiv(total, pageSize) - 1) * pageSize < total <= CeilDiv(total, pageSize) * pageSize
    ensures CeilDiv(total, pageSize) > 0
  {
    var n := total + pageSize - 1;
    assert n == pageSize * (n / pageSize) + n % pageSize;
    assert (CeilDiv(total, pageSize) - 1) * pageSize == CeilDiv(total, pageSize) * pageSize - pageSize;
  }

  /** On an unchanged table, pages 1 to `totalPages` are exactly the matching rows, each once, in order. */
  lemma PagesTile(f: Filter, pageSize: nat, table: seq<Order>)
    requires pageSize > 0
    ensures PagesUpTo(f, pageSize, BuildMeta(Count(f, table), 1, pageSize).totalPages, table) == Matching(f, table)
  {
    var total := Count(f, table);
    var n := BuildMeta(total, 1, pageSize).totalPages;
    PagesArePrefix(f, pageSize, n, table);
    if total > 0 { CeilBounds(total, pageSize); }
    assert Matching(f, table)[..total] == Matching(f, table);
  }

  /** `hasNext` is true exactly if the next page has rows. */
  lemma HasNextExact(q: Query, table: seq<Order>)
    requires ValidQuery(q)
    ensures BuildMeta(Count(q.filter, table), q.page, q.pageSize).hasNext
      <==> PageRows(q.(page := q.page + 1), table) != []
  {
    var total := Count(q.filter, table);
    if total > 0 {
      CeilBounds(total, q.pageSize);
      var n := CeilDiv(total, q.pageSize);
      if q.page < n {
        MulMonotone(q.page, n - 1, q.pageSize);
      } else {
        MulMonotone(n, q.page, q.pageSize);
      }
    }
  }

  lemma {:induction false} InMatching(f: Filter, table: seq<Order>, o: Order)
    ensures o in Matching(f, table) <==> o in table && Matches(f, o)
    decreases |table|
  {
    if table != [] { InMatching(f, table[1..], o); }
  }

  /** The ASCII letters of the two differ in case only, and everything else is the same. */
  ghost predicate SameButCase(x: string, y: string) {
    |x| == |y| && forall i | 0 <= i < |x| :: SameLetter(x[i], y[i])
  }

  ghost predicate SameLetter(c: char, d: char) {
    || c == d
    || ('A' <= c <= 'Z' && d as int == c as int + 32)
    || ('A' <= d <= 'Z' && c as int == d as int + 32)
  }

  ghost predicate NoCapitals(x: string) { forall i | 0 <= i < |x| :: !('A' <= x[i] <= 'Z') }

  /** An address in lower case equals the lower-cased filter exactly if the two differ in case only. */
  lemma LowerCase(x: string, y: string)
    ensures x == ToLower(y) <==> SameButCase(x, y) && NoCapitals(x)
  {
    if x == ToLower(y) {
      forall i | 0 <= i < |x| ensures SameLetter(x[i], y[i]) && !('A' <= x[i] <= 'Z') { LowerLetter(x[i], y[i]); }
    }
    if SameButCase(x, y) && NoCapitals(x) {
      forall i | 0 <= i < |x| ensures x[i] == ToLower(y)[i] { LowerLetter(x[i], y[i]); }
    }
  }

  lemma LowerLetter(c: char, d: char)
    ensures c == Lower(d) <==> SameLetter(c, d) && !('A' <= c <= 'Z')
  {
  }

  /**
    A row is listed exactly if it is in the table, the user's, and passes every filter given: the status,
    the address whatever its case, and both dates, the bounds included.
  */
  lemma MatchingExact(f: Filter, table: seq<Order>, o: Order)
    ensures o in Matching(f, table) <==>
      && o in table && o.user == f.user
      && (f.status.Some? ==> f.status.value == o.status)
      && (f.email.Some? ==> SameButCase(o.email, f.email.value) && NoCapitals(o.email))
      && (f.after.Some? ==> f.after.value.at <= o.createdAt)
      && (f.before.Some? ==> o.createdAt <= f.before.value.at)
  {
    InMatching(f, table, o);
    if f.email.Some? { LowerCase(o.email, f.email.value); }
  }

  /** The case of the address asked for makes no difference. */
  lemma {:induction false} CaseInsensitive(f: Filter, g: Filter, table: seq<Order>)
    requires f.email.Some? && g.email.Some? && SameButCase(f.email.value, g.email.value) && g == f.(email := g.email)
    ensures Matching(g, table) == Matching(f, table)
    decreases |table|
  {
    if table != [] {
      CaseInsensitive(f, g, table[1..]);
      forall i | 0 <= i < |f.email.value| ensures Lower(f.email.value[i]) == Lower(g.email.value[i]) {
        assert SameLetter(f.email.value[i], g.email.value[i]);
      }
      assert ToLower(f.email.value) == ToLower(g.email.value);
    }
  }

  /**
    The metadata of a page: its own number and size, the number of rows that match, just as many pages as
    these fill, and a page before it exactly if some page number is smaller.
  */
  lemma MetaExact(q: Query, table: seq<Order>)
    requires ValidQuery(q)
    ensures var m := BuildMeta(Count(q.filter, table), q.page, q.pageSize);
      && m.page == q.page && m.pageSize == q.pageSize
      && m.total == |Matching(q.filter, table)|
      && m.total <= m.totalPages * m.pageSize
      && (m.totalPages > 0 ==> (m.totalPages - 1) * m.pageSize < m.total)
      && (m.hasPrev <==> exists p: nat :: ValidQuery(q.(page := p)) && p < q.page)
  {
    if Count(q.filter, table) > 0 { CeilBounds(Count(q.filter, table), q.pageSize); }
    if q.page > 1 { assert ValidQuery(q.(page := 1)) && 1 < q.page; }
  }
}
