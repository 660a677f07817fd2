/**
  The strings the list and count caches are keyed by, and why they are canonical and injective:
  the reason why `VersionedCache` may key its entries by version and query.
*/
module CacheKeys {
  import opened Shared
  import opened UriEncoding
  import opened OrderListing
  import opened Strings

  /** A field value: absent (null or undefined), a string or a whole number. */
  datatype Content = Missing | Text(text: string) | Number(n: nat)

  datatype Field = Field(name: string, value: Content)

  /** The value as the string that reaches the key, before encoding. */
  function Shown(v: Content): string {
    match v
    case Missing => "*"
    case Text(t) => t
    case Number(n) => Digits(n)
  }

  /** `*` for a missing value, otherwise the encoded string. */
  function Rendered(v: Content): string {
    match v
    case Missing => "*"
    case Text(t) => Encode(t)
    case Number(n) => Encode(Digits(n))
  }

  function Part(f: Field): string { f.name + "=" + Rendered(f.value) }

  function Parts(fields: seq<Field>): seq<string> {
    if fields == [] then [] else [Part(fields[0])] + Parts(fields[1..])
  }

  function Join(parts: seq<string>): string {
    if parts == [] then "" else if |parts| == 1 then parts[0] else parts[0] + ":" + Join(parts[1..])
  }

  function NameOf(f: Field): string { f.name }

  function Sorted(fields: seq<Field>): seq<Field> { SortBy(NameOf, fields) }

  function ListKey(namespace: string, version: nat, fields: seq<Field>): string {
    namespace + ":v" + (Digits(version) + ":" + Join(Parts(Sorted(fields))))
  }

  function CountKey(namespace: string, version: nat, fields: seq<Field>): string {
    namespace + ":count:v" + (Digits(version) + ":" + Join(Parts(Sorted(fields))))
  }

  // ---------------------------------------------------------------- records

  /** A record has each name once. */
  ghost predicate IsRecord(fields: seq<Field>) { DistinctBy(NameOf, fields) }

  /** The record shows `t` under `name`. */
  ghost predicate Says(fields: seq<Field>, name: string, t: string) {
    exists i :: SaysAt(fields, i, name, t)
  }

  ghost predicate SaysAt(fields: seq<Field>, i: int, name: string, t: string) {
    0 <= i < |fields| && fields[i].name == name && Shown(fields[i].value) == t
  }

  lemma PermutedSays(f: seq<Field>, g: seq<Field>, name: string, t: string)
    requires multiset(f) == multiset(g) && Says(f, name, t)
    ensures Says(g, name, t)
  {
    var i :| SaysAt(f, i, name, t);
    assert f[i] in multiset(g);
    var j :| 0 <= j < |g| && g[j] == f[i];
    assert SaysAt(g, j, name, t);
  }

  lemma SortedSays(fields: seq<Field>, name: string, t: string)
    ensures Says(Sorted(fields), name, t) <==> Says(fields, name, t)
  {
    SortByOk(NameOf, fields);
    if Says(fields, name, t) { PermutedSays(fields, Sorted(fields), name, t); }
    if Says(Sorted(fields), name, t) { PermutedSays(Sorted(fields), fields, name, t); }
  }

  // ---------------------------------------------------------------- parts

  predicate PlainName(name: string) { ':' !in name && '=' !in name }

  ghost predicate PlainNames(fields: seq<Field>) { forall i | 0 <= i < |fields| :: PlainName(fields[i].name) }

  lemma RenderedShown(v: Content)
    ensures Rendered(v) == Encode(Shown(v)) && ':' !in Rendered(v) && '=' !in Rendered(v)
  {
    EncodePlain(Shown(v));
    if v.Missing? { EncodeUnreserved("*"); }
  }

  /** Cutting a string at the first `c` is unique. */
  lemma FirstCut(c: char, x: string, y: string, u: string, v: string)
    requires c !in x && c !in u && x + [c] + y == u + [c] + v
    ensures x == u && y == v
  {
    var s := x + [c] + y;
    var s' := u + [c] + v;
    assert s[|x|] == c && s'[|u|] == c;
    assert forall i | 0 <= i < |x| :: s[i] == x[i];
    assert forall i | 0 <= i < |u| :: s'[i] == u[i];
    assert |x| == |u|;
    assert x == s[..|x|] && u == s'[..|u|];
    assert y == s[|x| + 1..] && v == s'[|u| + 1..];
  }

  /** A part tells the name and the shown value. */
  lemma PartInjective(f: Field, g: Field)
    requires PlainName(f.name) && PlainName(g.name)
    ensures Part(f) == Part(g) <==> f.name == g.name && Shown(f.value) == Shown(g.value)
  {
    RenderedShown(f.value);
    RenderedShown(g.value);
    if Part(f) == Part(g) {
      FirstCut('=', f.name, Rendered(f.value), g.name, Rendered(g.value));
      Injective(Shown(f.value), Shown(g.value));
    }
  }

  lemma {:induction false} PartsAt(fields: seq<Field>)
    ensures |Parts(fields)| == |fields|
    ensures forall i | 0 <= i < |fields| :: Parts(fields)[i] == Part(fields[i])
  {
    if fields != [] { PartsAt(fields[1..]); }
  }

  ghost predicate Joinable(parts: seq<string>) { forall i | 0 <= i < |parts| :: parts[i] != "" && ':' !in parts[i] }

  lemma PartsJoinable(fields: seq<Field>)
    requires PlainNames(fields)
    ensures Joinable(Parts(fields))
  {
    PartsAt(fields);
    forall i | 0 <= i < |fields| ensures Parts(fields)[i] != "" && ':' !in Parts(fields)[i] {
      RenderedShown(fields[i].value);
    }
  }

  lemma {:induction false} JoinInjective(p: seq<string>, q: seq<string>)
    requires Joinable(p) && Joinable(q) && Join(p) == Join(q)
    ensures p == q
  {
    if |p| >= 2 && |q| >= 2 {
      assert Join(p) == p[0] + [':'] + Join(p[1..]) && Join(q) == q[0] + [':'] + Join(q[1..]);
      FirstCut(':', p[0], Join(p[1..]), q[0], Join(q[1..]));
      JoinInjective(p[1..], q[1..]);
      assert p == [p[0]] + p[1..] && q == [q[0]] + q[1..];
    } else if |p| >= 2 {
      JoinHasColon(p);
    } else if |q| >= 2 {
      JoinHasColon(q);
    }
  }

  lemma JoinHasColon(p: seq<string>)
    requires |p| >= 2
    ensures ':' in Join(p)
  {
    assert Join(p)[|p[0]|] == ':';
  }

  // ---------------------------------------------------------------- the two keys

  /** Two records show the same: the same strings under the same names, `*` where a value is missing. */
  ghost predicate SameShown(f: seq<Field>, g: seq<Field>) {
    forall name, t :: Says(f, name, t) <==> Says(g, name, t)
  }

  lemma TailSays(f: seq<Field>, name: string, t: string)
    requires f != [] && IsRecord(f)
    ensures Says(f[1..], name, t) <==> Says(f, name, t) && name != f[0].name
  {
    if Says(f[1..], name, t) {
      var i :| SaysAt(f[1..], i, name, t);
      assert SaysAt(f, i + 1, name, t);
    }
    if Says(f, name, t) && name != f[0].name {
      var i :| SaysAt(f, i, name, t);
      assert SaysAt(f[1..], i - 1, name, t);
    }
  }

  /** Sorted records that show the same begin with the same part. */
  lemma SameHead(f: seq<Field>, g: seq<Field>)
    requires f != [] && Ascending(NameOf, f) && Ascending(NameOf, g) && IsRecord(f) && IsRecord(g) && SameShown(f, g)
    ensures g != [] && f[0].name == g[0].name && Shown(f[0].value) == Shown(g[0].value)
  {
    assert SaysAt(f, 0, f[0].name, Shown(f[0].value));
    assert Says(g, f[0].name, Shown(f[0].value));
    var j :| SaysAt(g, j, f[0].name, Shown(f[0].value));
    assert SaysAt(g, 0, g[0].name, Shown(g[0].value));
    assert Says(f, g[0].name, Shown(g[0].value));
    var i :| SaysAt(f, i, g[0].name, Shown(g[0].value));
    if i > 0 && j > 0 { AtMostAntisymmetric(f[0].name, g[0].name); }
  }

  lemma {:induction false} SameParts(f: seq<Field>, g: seq<Field>)
    requires Ascending(NameOf, f) && Ascending(NameOf, g) && IsRecord(f) && IsRecord(g) && SameShown(f, g)
    ensures Parts(f) == Parts(g)
  {
    if f == [] {
      if g != [] { SameHead(g, f); }
    } else {
      SameHead(f, g);
      forall name, t ensures Says(f[1..], name, t) <==> Says(g[1..], name, t) {
        TailSays(f, name, t);
        TailSays(g, name, t);
      }
      SameParts(f[1..], g[1..]);
      RenderedShown(f[0].value);
      RenderedShown(g[0].value);
    }
  }

  lemma PartsShow(f: seq<Field>, g: seq<Field>, name: string, t: string)
    requires PlainNames(f) && PlainNames(g) && Parts(f) == Parts(g) && Says(f, name, t)
    ensures Says(g, name, t)
  {
    var i :| SaysAt(f, i, name, t);
    PartsAt(f);
    PartsAt(g);
    PartInjective(f[i], g[i]);
    assert SaysAt(g, i, name, t);
  }

  lemma SortedPlain(f: seq<Field>)
    requires PlainNames(f)
    ensures PlainNames(Sorted(f))
  {
    SortByOk(NameOf, f);
    forall i | 0 <= i < |Sorted(f)| ensures PlainName(Sorted(f)[i].name) { assert Sorted(f)[i] in multiset(f); }
  }

  function Tail(version: nat, fields: seq<Field>): string { Digits(version) + ":" + Join(Parts(Sorted(fields))) }

  lemma TailExact(v: nat, f: seq<Field>, w: nat, g: seq<Field>)
    requires IsRecord(f) && IsRecord(g) && PlainNames(f) && PlainNames(g)
    ensures Tail(v, f) == Tail(w, g) <==> v == w && SameShown(f, g)
  {
    SortedPlain(f);
    SortedPlain(g);
    forall name, t
      ensures (Says(Sorted(f), name, t) <==> Says(f, name, t)) && (Says(Sorted(g), name, t) <==> Says(g, name, t))
    {
      SortedSays(f, name, t);
      SortedSays(g, name, t);
    }
    if Tail(v, f) == Tail(w, g) {
      DigitsRead(v);
      DigitsRead(w);
      FirstCut(':', Digits(v), Join(Parts(Sorted(f))), Digits(w), Join(Parts(Sorted(g))));
      PartsJoinable(Sorted(f));
      PartsJoinable(Sorted(g));
      JoinInjective(Parts(Sorted(f)), Parts(Sorted(g)));
      forall name, t ensures Says(Sorted(f), name, t) <==> Says(Sorted(g), name, t) {
        if Says(Sorted(f), name, t) { PartsShow(Sorted(f), Sorted(g), name, t); }
        if Says(Sorted(g), name, t) { PartsShow(Sorted(g), Sorted(f), name, t); }
      }
    }
    if v == w && SameShown(f, g) {
      SortByOk(NameOf, f);
      SortByOk(NameOf, g);
      SortByDistinct(NameOf, f);
      SortByDistinct(NameOf, g);
      SameParts(Sorted(f), Sorted(g));
    }
  }

  /**
    Canonical and injective: two list keys of a namespace are equal exactly when the versions are
    and the records show the same strings under the same names, in whatever order the fields come.
    The one thing a key does not tell apart is a missing value and the string `*`.
  */
  lemma ListKeyExact(namespace: string, v: nat, f: seq<Field>, w: nat, g: seq<Field>)
    requires IsRecord(f) && IsRecord(g) && PlainNames(f) && PlainNames(g)
    ensures ListKey(namespace, v, f) == ListKey(namespace, w, g) <==> v == w && SameShown(f, g)
  {
    TailExact(v, f, w, g);
    assert ListKey(namespace, v, f)[|namespace + ":v"|..] == Tail(v, f);
    assert ListKey(namespace, w, g)[|namespace + ":v"|..] == Tail(w, g);
  }

  lemma CountKeyExact(namespace: string, v: nat, f: seq<Field>, w: nat, g: seq<Field>)
    requires IsRecord(f) && IsRecord(g) && PlainNames(f) && PlainNames(g)
    ensures CountKey(namespace, v, f) == CountKey(namespace, w, g) <==> v == w && SameShown(f, g)
  {
    TailExact(v, f, w, g);
    assert CountKey(namespace, v, f)[|namespace + ":count:v"|..] == Tail(v, f);
    assert CountKey(namespace, w, g)[|namespace + ":count:v"|..] == Tail(w, g);
  }

  /** The order of the fields does not matter. */
  lemma KeysPermuted(namespace: string, version: nat, f: seq<Field>, g: seq<Field>)
    requires IsRecord(f) && IsRecord(g) && PlainNames(f) && PlainNames(g) && multiset(f) == multiset(g)
    ensures ListKey(namespace, version, f) == ListKey(namespace, version, g)
    ensures CountKey(namespace, version, f) == CountKey(namespace, version, g)
  {
    forall name, t ensures Says(f, name, t) <==> Says(g, name, t) {
      if Says(f, name, t) { PermutedSays(f, g, name, t); }
      if Says(g, name, t) { PermutedSays(g, f, name, t); }
    }
    ListKeyExact(namespace, version, f, version, g);
    CountKeyExact(namespace, version, f, version, g);
  }

  // ---------------------------------------------------------------- the queries of the order list

  function StatusText(s: Status): string {
    match s
    case Pending => "pending"
    case Confirmed => "confirmed"
    case Shipped => "shipped"
    case Delivered => "delivered"
    case Cancelled => "cancelled"
  }

  function StatusContent(s: Option<Status>): Content { if s.Some? then Text(StatusText(s.value)) else Missing }

  function TextContent(t: Option<string>): Content { if t.Some? then Text(t.value) else Missing }

  function TimeContent(t: Option<Instant>): Content { if t.Some? then Text(t.value.text) else Missing }

  /** A field of the list query is there only if the client sent it. */
  function Present(name: string, v: Content): seq<Field> { if v.Missing? then [] else [Field(name, v)] }

  /** `{ ...query, userId }`. */
  function ListFields(q: Query): seq<Field> {
    [Field("page", Number(q.page)), Field("pageSize", Number(q.pageSize))]
    + Present("status", StatusContent(q.filter.status))
    + Present("customerEmail", TextContent(q.filter.email))
    + Present("createdAfter", TimeContent(q.filter.after))
    + Present("createdBefore", TimeContent(q.filter.before))
    + [Field("userId", Text(q.filter.user))]
  }

  /** `countCacheQuery`: page and page size left out, the address in lower case, `null` where nothing was sent. */
  function CountFields(f: Filter): seq<Field> {
    [Field("userId", Text(f.user)), Field("status", StatusContent(f.status)),
     Field("customerEmail", TextContent(Normal(f).email)),
     Field("createdAfter", TimeContent(f.after)), Field("createdBefore", TimeContent(f.before))]
  }

  /**
    What the schema admits, as far as the keys depend on it: an address holds an `@`, a timestamp
    begins with a digit and means one instant.
  */
  ghost predicate ValidFilter(parse: string -> int, f: Filter) {
    && (f.email.Some? ==> '@' in f.email.value)
    && (f.after.Some? ==> ValidInstant(parse, f.after.value))
    && (f.before.Some? ==> ValidInstant(parse, f.before.value))
  }

  ghost predicate ValidInstant(parse: string -> int, t: Instant) {
    t.text != "" && '0' <= t.text[0] <= '9' && t.at == parse(t.text)
  }

  lemma SaysConcat(f: seq<Field>, x: Field, name: string, t: string)
    ensures Says(f + [x], name, t) <==> Says(f, name, t) || (name == x.name && t == Shown(x.value))
  {
    if Says(f + [x], name, t) {
      var i :| SaysAt(f + [x], i, name, t);
      assert i < |f| ==> SaysAt(f, i, name, t);
    }
    if Says(f, name, t) {
      var i :| SaysAt(f, i, name, t);
      assert SaysAt(f + [x], i, name, t);
    }
    if name == x.name && t == Shown(x.value) { assert SaysAt(f + [x], |f|, name, t); }
  }

  /** A record whose names are among `names`. */
  ghost predicate Named(f: seq<Field>, names: set<string>) {
    IsRecord(f) && PlainNames(f) && forall i | 0 <= i < |f| :: f[i].name in names
  }

  predicate IsShown(v: Content, t: string) { !v.Missing? && t == Shown(v) }

  /** One more field, under a new name. */
  lemma Extend(f: seq<Field>, names: set<string>, x: Field)
    requires Named(f, names) && PlainName(x.name) && x.name !in names
    ensures Named(f + [x], names + {x.name})
    ensures forall name, t :: Says(f + [x], name, t) <==> Says(f, name, t) || (name == x.name && t == Shown(x.value))
  {
    forall name, t ensures Says(f + [x], name, t) <==> Says(f, name, t) || (name == x.name && t == Shown(x.value)) {
      SaysConcat(f, x, name, t);
    }
  }

  lemma ExtendPresent(f: seq<Field>, names: set<string>, n: string, v: Content)
    requires Named(f, names) && PlainName(n) && n !in names
    ensures Named(f + Present(n, v), names + {n})
    ensures forall name, t :: Says(f + Present(n, v), name, t) <==> Says(f, name, t) || (name == n && IsShown(v, t))
  {
    if v.Missing? { assert f + Present(n, v) == f; } else { Extend(f, names, Field(n, v)); }
  }

  function PageFields(q: Query): seq<Field> {
    [Field("page", Number(q.page)), Field("pageSize", Number(q.pageSize))]
      + Present("status", StatusContent(q.filter.status))
  }

  function TextFields(q: Query): seq<Field> {
    PageFields(q) + Present("customerEmail", TextContent(q.filter.email))
      + Present("createdAfter", TimeContent(q.filter.after))
  }

  ghost predicate PageSays(q: Query, name: string, t: string) {
    || (name == "page" && t == Digits(q.page))
    || (name == "pageSize" && t == Digits(q.pageSize))
    || (name == "status" && IsShown(StatusContent(q.filter.status), t))
  }

  ghost predicate TextSays(q: Query, name: string, t: string) {
    || PageSays(q, name, t)
    || (name == "customerEmail" && IsShown(TextContent(q.filter.email), t))
    || (name == "createdAfter" && IsShown(TimeContent(q.filter.after), t))
  }

  ghost predicate ListSays(q: Query, name: string, t: string) {
    || TextSays(q, name, t)
    || (name == "createdBefore" && IsShown(TimeContent(q.filter.before), t))
    || (name == "userId" && t == q.filter.user)
  }

  const PAGE_NAMES := {"page", "pageSize", "status"}
  const TEXT_NAMES := {"page", "pageSize", "status", "customerEmail", "createdAfter"}

  lemma PageFieldsSay(q: Query)
    ensures Named(PageFields(q), PAGE_NAMES)
    ensures forall name, t :: Says(PageFields(q), name, t) <==> PageSays(q, name, t)
  {
    assert "pageSize" != "page" && "status" !in {"page", "pageSize"};
    Extend([], {}, Field("page", Number(q.page)));
    var f1 := [] + [Field("page", Number(q.page))];
    Extend(f1, {} + {"page"}, Field("pageSize", Number(q.pageSize)));
    var f2 := f1 + [Field("pageSize", Number(q.pageSize))];
    ExtendPresent(f2, {} + {"page"} + {"pageSize"}, "status", StatusContent(q.filter.status));
    assert PageFields(q) == f2 + Present("status", StatusContent(q.filter.status));
  }

  lemma TextFieldsSay(q: Query)
    ensures Named(TextFields(q), TEXT_NAMES)
    ensures forall name, t :: Says(TextFields(q), name, t) <==> TextSays(q, name, t)
  {
    assert "customerEmail"[1] == 'u';
    assert "customerEmail" !in PAGE_NAMES && "createdAfter" !in PAGE_NAMES + {"customerEmail"};
    PageFieldsSay(q);
    ExtendPresent(PageFields(q), PAGE_NAMES, "customerEmail", TextContent(q.filter.email));
    var f := PageFields(q) + Present("customerEmail", TextContent(q.filter.email));
    ExtendPresent(f, PAGE_NAMES + {"customerEmail"}, "createdAfter", TimeContent(q.filter.after));
    assert PAGE_NAMES + {"customerEmail"} + {"createdAfter"} == TEXT_NAMES;
  }

  lemma ListFieldsSay(q: Query)
    ensures IsRecord(ListFields(q)) && PlainNames(ListFields(q))
    ensures forall name, t :: Says(ListFields(q), name, t) <==> ListSays(q, name, t)
  {
    assert "createdBefore"[7] == 'B' && "createdBefore"[1] == 'r';
    assert "createdBefore" !in TEXT_NAMES && "userId" !in TEXT_NAMES + {"createdBefore"};
    TextFieldsSay(q);
    ExtendPresent(TextFields(q), TEXT_NAMES, "createdBefore", TimeContent(q.filter.before));
    var f := TextFields(q) + Present("createdBefore", TimeContent(q.filter.before));
    Extend(f, TEXT_NAMES + {"createdBefore"}, Field("userId", Text(q.filter.user)));
    assert ListFields(q) == f + [Field("userId", Text(q.filter.user))];
  }

  // ---------------------------------------------------------------- keys of queries

  const ORDERS_LIST := "orders-list"

  function ListKeyOf(version: nat, q: Query): string { ListKey(ORDERS_LIST, version, ListFields(q)) }

  function CountKeyOf(version: nat, f: Filter): string { CountKey(ORDERS_LIST, version, CountFields(f)) }

  lemma ShownNumber(x: nat, y: nat)
    requires Digits(x) == Digits(y)
    ensures x == y
  {
    DigitsRead(x);
    DigitsRead(y);
  }

  /** Two optional strings are equal if they are shown alike. */
  lemma SameContent(x: Content, y: Content)
    requires !x.Number? && !y.Number? && forall t :: IsShown(x, t) <==> IsShown(y, t)
    ensures x == y
  {
    if !x.Missing? { assert IsShown(x, Shown(x)); }
    if !y.Missing? { assert IsShown(y, Shown(y)); }
  }

  lemma StatusTextInjective(x: Status, y: Status)
    requires StatusText(x) == StatusText(y)
    ensures x == y
  {
    var a, b := StatusText(x), StatusText(y);
    assert a[0] == b[0] && a[1] == b[1] && |a| == |b|;
  }

  ghost predicate SameListSays(q: Query, r: Query) { forall name, t :: ListSays(q, name, t) <==> ListSays(r, name, t) }

  /** What each name of a list query tells. */
  lemma OneName(q: Query, t: string)
    ensures ListSays(q, "page", t) <==> t == Digits(q.page)
    ensures ListSays(q, "pageSize", t) <==> t == Digits(q.pageSize)
    ensures ListSays(q, "userId", t) <==> t == q.filter.user
    ensures ListSays(q, "status", t) <==> IsShown(StatusContent(q.filter.status), t)
    ensures ListSays(q, "customerEmail", t) <==> IsShown(TextContent(q.filter.email), t)
    ensures ListSays(q, "createdAfter", t) <==> IsShown(TimeContent(q.filter.after), t)
    ensures ListSays(q, "createdBefore", t) <==> IsShown(TimeContent(q.filter.before), t)
  {
    assert "customerEmail"[1] == 'u' && "createdBefore"[7] == 'B' && "createdBefore"[1] == 'r'
      && "createdAfter"[7] == 'A';
  }

  lemma SameNames(q: Query, r: Query)
    requires SameListSays(q, r)
    ensures Digits(q.page) == Digits(r.page) && Digits(q.pageSize) == Digits(r.pageSize)
      && q.filter.user == r.filter.user
    ensures StatusContent(q.filter.status) == StatusContent(r.filter.status)
    ensures TextContent(q.filter.email) == TextContent(r.filter.email)
    ensures TimeContent(q.filter.after) == TimeContent(r.filter.after)
    ensures TimeContent(q.filter.before) == TimeContent(r.filter.before)
  {
    OneName(q, Digits(q.page));
    OneName(r, Digits(q.page));
    OneName(q, Digits(q.pageSize));
    OneName(r, Digits(q.pageSize));
    OneName(q, q.filter.user);
    OneName(r, q.filter.user);
    SameOptional(q, r);
    SameTimes(q, r);
  }

  lemma SameOptional(q: Query, r: Query)
    requires SameListSays(q, r)
    ensures StatusContent(q.filter.status) == StatusContent(r.filter.status)
    ensures TextContent(q.filter.email) == TextContent(r.filter.email)
  {
    forall t ensures
      && (IsShown(StatusContent(q.filter.status), t) <==> IsShown(StatusContent(r.filter.status), t))
      && (IsShown(TextContent(q.filter.email), t) <==> IsShown(TextContent(r.filter.email), t))
    {
      OneName(q, t);
      OneName(r, t);
    }
    SameContent(StatusContent(q.filter.status), StatusContent(r.filter.status));
    SameContent(TextContent(q.filter.email), TextContent(r.filter.email));
  }

  lemma SameTimes(q: Query, r: Query)
    requires SameListSays(q, r)
    ensures TimeContent(q.filter.after) == TimeContent(r.filter.after)
    ensures TimeContent(q.filter.before) == TimeContent(r.filter.before)
  {
    forall t ensures
      && (IsShown(TimeContent(q.filter.after), t) <==> IsShown(TimeContent(r.filter.after), t))
      && (IsShown(TimeContent(q.filter.before), t) <==> IsShown(TimeContent(r.filter.before), t))
    {
      OneName(q, t);
      OneName(r, t);
    }
    SameContent(TimeContent(q.filter.after), TimeContent(r.filter.after));
    SameContent(TimeContent(q.filter.before), TimeContent(r.filter.before));
  }

  /** Equal list keys mean the same version, user, page and filters. */
  lemma ListKeysDistinct(parse: string -> int, v: nat, q: Query, w: nat, r: Query)
    requires ValidFilter(parse, q.filter) && ValidFilter(parse, r.filter)
    ensures ListKeyOf(v, q) == ListKeyOf(w, r) <==> v == w && q == r
  {
    ListFieldsSay(q);
    ListFieldsSay(r);
    ListKeyExact(ORDERS_LIST, v, ListFields(q), w, ListFields(r));
    if ListKeyOf(v, q) == ListKeyOf(w, r) {
      forall name, t ensures ListSays(q, name, t) <==> ListSays(r, name, t) {
        assert Says(ListFields(q), name, t) <==> Says(ListFields(r), name, t);
      }
      SameNames(q, r);
      ShownNumber(q.page, r.page);
      ShownNumber(q.pageSize, r.pageSize);
      if q.filter.status.Some? { StatusTextInjective(q.filter.status.value, r.filter.status.value); }
    }
  }

  // ---------------------------------------------------------------- count keys

  lemma CountFieldsRecord(f: Filter)
    ensures |CountFields(f)| == 5 && IsRecord(CountFields(f))
  {
    var x := CountFields(f);
    assert x[0].name[1] == 's' && x[1].name[1] == 't' && x[2].name[1] == 'u' && x[3].name[1] == 'r'
      && x[4].name[1] == 'r';
    assert |x[3].name| != |x[4].name|;
  }

  lemma PlainFilterNames()
    ensures PlainName("userId") && PlainName("status") && PlainName("customerEmail")
  {
  }

  lemma PlainTimeNames()
    ensures PlainName("createdAfter") && PlainName("createdBefore")
  {
  }

  lemma CountFieldsPlain(f: Filter)
    ensures PlainNames(CountFields(f))
  {
    PlainFilterNames();
    PlainTimeNames();
  }

  /** Records with the same names in the same places that show the same show it in the same places. */
  lemma SameAt(f: seq<Field>, g: seq<Field>, i: nat)
    requires IsRecord(g) && |f| == |g| && i < |f| && f[i].name == g[i].name && SameShown(f, g)
    ensures Shown(f[i].value) == Shown(g[i].value)
  {
    assert SaysAt(f, i, f[i].name, Shown(f[i].value));
    assert Says(g, f[i].name, Shown(f[i].value));
    var j :| SaysAt(g, j, f[i].name, Shown(f[i].value));
  }

  /** No valid value is shown as `*`, so a missing one is never mistaken for it. */
  lemma StarIsMissing(parse: string -> int, f: Filter)
    requires ValidFilter(parse, f)
    ensures Shown(StatusContent(f.status)) == "*" <==> f.status.None?
    ensures Shown(TextContent(Normal(f).email)) == "*" <==> f.email.None?
    ensures Shown(TimeContent(f.after)) == "*" <==> f.after.None?
    ensures Shown(TimeContent(f.before)) == "*" <==> f.before.None?
  {
    if f.status.Some? { assert StatusText(f.status.value)[0] != '*'; }
    if f.email.Some? {
      var i :| 0 <= i < |f.email.value| && f.email.value[i] == '@';
      assert ToLower(f.email.value)[i] == '@';
    }
    if f.after.Some? { assert f.after.value.text[0] != '*'; }
    if f.before.Some? { assert f.before.value.text[0] != '*'; }
  }

  /** Equal count keys mean the same version and the same filter, but for the case of the address. */
  lemma CountKeysDistinct(parse: string -> int, v: nat, f: Filter, w: nat, g: Filter)
    requires ValidFilter(parse, f) && ValidFilter(parse, g)
    ensures CountKeyOf(v, f) == CountKeyOf(w, g) <==> v == w && Normal(f) == Normal(g)
  {
    CountFieldsRecord(f);
    CountFieldsRecord(g);
    CountFieldsPlain(f);
    CountFieldsPlain(g);
    CountKeyExact(ORDERS_LIST, v, CountFields(f), w, CountFields(g));
    if CountKeyOf(v, f) == CountKeyOf(w, g) {
      CountSame(parse, f, g);
    }
    if Normal(f) == Normal(g) {
      assert CountFields(f) == CountFields(g);
    }
  }

  lemma CountSame(parse: string -> int, f: Filter, g: Filter)
    requires ValidFilter(parse, f) && ValidFilter(parse, g) && SameShown(CountFields(f), CountFields(g))
    ensures Normal(f) == Normal(g)
  {
    CountFieldsRecord(f);
    CountFieldsRecord(g);
    var x, y := CountFields(f), CountFields(g);
    SameAt(x, y, 0);
    SameAt(x, y, 1);
    SameAt(x, y, 2);
    SameAt(x, y, 3);
    SameAt(x, y, 4);
    StarIsMissing(parse, f);
    StarIsMissing(parse, g);
    if f.status.Some? { StatusTextInjective(f.status.value, g.status.value); }
  }

  // ---------------------------------------------------------------- key families

  /** Every kind of key the API puts into the one Redis key space. */
  datatype Family = ListEntry | CountEntry | Entity | NamespaceVersion | IdempotencyRecord | RateCounter | LoginFailures

  function Prefix(f: Family): string {
    match f
    case ListEntry => ORDERS_LIST + ":v"
    case CountEntry => ORDERS_LIST + ":count:v"
    case Entity => "order:"
    case NamespaceVersion => "cache:ver:"
    case IdempotencyRecord => "idempotency:"
    case RateCounter => "rate:"
    case LoginFailures => "auth:failed-ip:"
  }

  /** Keys of different families are different, whatever follows the prefix. */
  lemma FamiliesDisjoint(f: Family, x: string, g: Family, y: string)
    requires f != g
    ensures Prefix(f) + x != Prefix(g) + y
  {
    var a, b := Prefix(f) + x, Prefix(g) + y;
    assert a[0] == Prefix(f)[0] && b[0] == Prefix(g)[0];
    assert 5 < |Prefix(f)| ==> a[5] == Prefix(f)[5];
    assert 5 < |Prefix(g)| ==> b[5] == Prefix(g)[5];
    assert 12 < |Prefix(f)| ==> a[12] == Prefix(f)[12];
    assert 12 < |Prefix(g)| ==> b[12] == Prefix(g)[12];
  }
}
