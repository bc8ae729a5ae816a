/** Keyset pagination (internal/hub/executive.go, exposure.go, device_fleet.go): the
    cursor predicates and the pages they cut from a fixed table. */
module Paging {
  import opened Options
  import opened Sorting

  // ----- The order of an ORDER BY clause -----

  datatype Value = Number(number: int) | Text(text: string)

  predicate Less(a: Value, b: Value) {
    match a
    case Number(x) => b.Number? && x < b.number
    case Text(x) => b.Number? || Before(x, b.text)
  }

  /** Row `a` comes before row `b` under columns that ascend where `up` says so. */
  predicate Precedes(up: seq<bool>, a: seq<Value>, b: seq<Value>)
    requires |a| == |b| == |up|
    decreases |up|
  {
    up != []
    && ((if up[0] then Less(a[0], b[0]) else Less(b[0], a[0]))
        || (a[0] == b[0] && Precedes(up[1..], a[1..], b[1..])))
  }

  // ----- The listings and their cursor predicates -----

  datatype Named = Named(name: string, id: string)
  datatype Seen = Seen(seenAt: int, id: string)
  datatype Severity = Critical | High | Medium | Low
  datatype Exposure = Exposure(severity: Severity, seenAt: int, id: string)

  /** severityRank, and the CASE of the query. */
  function SeverityRank(s: Severity): nat {
    match s
    case Critical => 1
    case High => 2
    case Medium => 3
    case Low => 4
  }

  /** The decoded cursor of an exposure. */
  datatype ExposureKey = ExposureKey(rank: int, seenAt: int, id: string)

  function KeyOf(e: Exposure): ExposureKey {
    ExposureKey(SeverityRank(e.severity), e.seenAt, e.id)
  }

  /** ORDER BY lower(name), id. The database's order of texts is taken to be byte order. */
  predicate NamedBefore(a: Named, b: Named) {
    Precedes([true, true], [Text(a.name), Text(a.id)], [Text(b.name), Text(b.id)])
  }

  /** ORDER BY last_seen_at DESC, entity_id DESC. */
  predicate SeenBefore(a: Seen, b: Seen) {
    Precedes([false, false], [Number(a.seenAt), Text(a.id)], [Number(b.seenAt), Text(b.id)])
  }

  /** ORDER BY severity rank, last_seen_at DESC, id DESC. */
  predicate ExposureBefore(a: Exposure, b: Exposure) {
    Precedes([true, false, false],
             [Number(SeverityRank(a.severity)), Number(a.seenAt), Text(a.id)],
             [Number(SeverityRank(b.severity)), Number(b.seenAt), Text(b.id)])
  }

  /** (lower(name), id) > cursor */
  predicate NamedAfter(row: Named, cursor: Named) {
    Before(cursor.name, row.name) || (row.name == cursor.name && Before(cursor.id, row.id))
  }

  /** (last_seen_at, entity_id) < cursor */
  predicate SeenAfter(row: Seen, cursor: Seen) {
    row.seenAt < cursor.seenAt || (row.seenAt == cursor.seenAt && Before(row.id, cursor.id))
  }

  /** The nested disjunction of listExposures. */
  predicate ExposureAfter(row: Exposure, cursor: ExposureKey) {
    SeverityRank(row.severity) > cursor.rank
    || (SeverityRank(row.severity) == cursor.rank
        && (row.seenAt < cursor.seenAt || (row.seenAt == cursor.seenAt && Before(row.id, cursor.id))))
  }

  lemma PrecedesTwo(up: seq<bool>, a: seq<Value>, b: seq<Value>)
    requires |a| == |b| == |up| == 2
    ensures Precedes(up, a, b) <==>
              || (if up[0] then Less(a[0], b[0]) else Less(b[0], a[0]))
              || (a[0] == b[0] && (if up[1] then Less(a[1], b[1]) else Less(b[1], a[1])))
  {
    assert Precedes(up[1..], a[1..], b[1..]) <==> (if up[1] then Less(a[1], b[1]) else Less(b[1], a[1])) by {
      assert !Precedes(up[1..][1..], a[1..][1..], b[1..][1..]);
    }
  }

  /** Each cursor predicate selects exactly the rows that come strictly after the cursor
      in the order of its listing. */
  lemma CursorIsStrictlyAfter(n: Named, nc: Named, s: Seen, sc: Seen, e: Exposure, ec: Exposure)
    ensures NamedAfter(n, nc) <==> NamedBefore(nc, n)
    ensures SeenAfter(s, sc) <==> SeenBefore(sc, s)
    ensures ExposureAfter(e, KeyOf(ec)) <==> ExposureBefore(ec, e)
  {
    PrecedesTwo([true, true], [Text(nc.name), Text(nc.id)], [Text(n.name), Text(n.id)]);
    PrecedesTwo([false, false], [Number(sc.seenAt), Text(sc.id)], [Number(s.seenAt), Text(s.id)]);
    var up, a, b := [true, false, false], [Number(SeverityRank(ec.severity)), Number(ec.seenAt), Text(ec.id)], [Number(SeverityRank(e.severity)), Number(e.seenAt), Text(e.id)];
    assert up[1..] == [false, false] && a[1..] == [Number(ec.seenAt), Text(ec.id)] && b[1..] == [Number(e.seenAt), Text(e.id)];
    PrecedesTwo(up[1..], a[1..], b[1..]);
  }

  /** The orders of the listings: by name and then by id; the latest first and then the
      greatest id; the most severe first, then the latest, then the greatest id. */
  lemma OrdersAre(n: Named, m: Named, s: Seen, t: Seen, e: Exposure, f: Exposure)
    ensures NamedBefore(n, m) <==> Before(n.name, m.name) || (n.name == m.name && Before(n.id, m.id))
    ensures SeenBefore(s, t) <==> s.seenAt > t.seenAt || (s.seenAt == t.seenAt && Before(t.id, s.id))
    ensures e.severity == f.severity ==> (ExposureBefore(e, f) <==> e.seenAt > f.seenAt || (e.seenAt == f.seenAt && Before(f.id, e.id)))
    ensures e.severity != f.severity ==>
              (ExposureBefore(e, f) <==> e.severity == Critical || (e.severity == High && f.severity != Critical) || (e.severity == Medium && f.severity == Low))
  {
    CursorIsStrictlyAfter(m, n, t, s, f, e);
  }

  lemma NamedOrders(rows: set<Named>)
    ensures Orders(NamedBefore, rows)
  {
    forall x, y ensures NamedBefore(x, y) <==> NamedAfter(y, x) { CursorIsStrictlyAfter(y, x, Seen(0, ""), Seen(0, ""), Exposure(Low, 0, ""), Exposure(Low, 0, "")); }
    forall x: Named ensures !NamedBefore(x, x) { BeforeIrreflexive(x.name); BeforeIrreflexive(x.id); }
    forall x, y, z | NamedBefore(x, y) && NamedBefore(y, z) ensures NamedBefore(x, z) {
      if Before(x.name, y.name) && Before(y.name, z.name) { BeforeTransitive(x.name, y.name, z.name); }
      if Before(x.id, y.id) && Before(y.id, z.id) { BeforeTransitive(x.id, y.id, z.id); }
    }
    forall x, y | x in rows && y in rows && x != y ensures NamedBefore(x, y) || NamedBefore(y, x) {
      if x.name != y.name { BeforeTotal(x.name, y.name); } else { BeforeTotal(x.id, y.id); }
    }
  }

  lemma SeenOrders(rows: set<Seen>)
    ensures Orders(SeenBefore, rows)
  {
    forall x, y ensures SeenBefore(x, y) <==> SeenAfter(y, x) { CursorIsStrictlyAfter(Named("", ""), Named("", ""), y, x, Exposure(Low, 0, ""), Exposure(Low, 0, "")); }
    forall x: Seen ensures !SeenBefore(x, x) { BeforeIrreflexive(x.id); }
    forall x, y, z | SeenBefore(x, y) && SeenBefore(y, z) ensures SeenBefore(x, z) {
      if Before(y.id, x.id) && Before(z.id, y.id) { BeforeTransitive(z.id, y.id, x.id); }
    }
    forall x, y | x in rows && y in rows && x != y ensures SeenBefore(x, y) || SeenBefore(y, x) {
      if x.id != y.id { BeforeTotal(x.id, y.id); }
    }
  }

  lemma ExposureOrders(rows: set<Exposure>)
    ensures Orders(ExposureBefore, rows)
  {
    forall x, y ensures ExposureBefore(x, y) <==> ExposureAfter(y, KeyOf(x)) { CursorIsStrictlyAfter(Named("", ""), Named("", ""), Seen(0, ""), Seen(0, ""), y, x); }
    forall x: Exposure ensures !ExposureBefore(x, x) { BeforeIrreflexive(x.id); }
    forall x, y, z | ExposureBefore(x, y) && ExposureBefore(y, z) ensures ExposureBefore(x, z) {
      if Before(y.id, x.id) && Before(z.id, y.id) { BeforeTransitive(z.id, y.id, x.id); }
    }
    forall x, y | x in rows && y in rows && x != y ensures ExposureBefore(x, y) || ExposureBefore(y, x) {
      if x.id != y.id { BeforeTotal(x.id, y.id); }
    }
  }

  // ----- Pages -----

  ghost function After<T(!new)>(less: (T, T) -> bool, table: set<T>, cursor: Option<T>): set<T> {
    set x | x in table && (cursor.Some? ==> less(cursor.value, x))
  }

  /** The rows of one request. */
  ghost function Page<T(!new)>(less: (T, T) -> bool, table: set<T>, cursor: Option<T>, limit: nat): seq<T>
    requires Orders(less, table)
  {
    var rows := Sort(less, After(less, table, cursor));
    if |rows| <= limit then rows else rows[..limit]
  }

  /** next_cursor is the last row, and absent when the page is not full. */
  ghost function NextCursor<T>(page: seq<T>, limit: nat): Option<T> {
    if |page| == limit && limit > 0 then Some(page[limit - 1]) else None
  }

  /** The list handler: it collects the rows and remembers the last one. */
  method List<T>(rows: seq<T>, limit: nat) returns (items: seq<T>, next: Option<T>)
    requires limit > 0 && |rows| <= limit
    ensures items == rows && next == NextCursor(rows, limit)
  {
    items, next := [], None;
    var i := 0;
    while i < |rows|
      invariant 0 <= i <= |rows| && items == rows[..i]
      invariant next == if i == 0 then None else Some(rows[i - 1])
    {
      items := items + [rows[i]];
      next := Some(rows[i]);
      i := i + 1;
    }
    if |items| != limit {
      next := None;
    }
  }

  ghost function Following<T(!new)>(less: (T, T) -> bool, s: set<T>, last: T): set<T> {
    set x | x in s && less(last, x)
  }

  lemma SplitSorted<T(!new)>(less: (T, T) -> bool, s: set<T>, k: nat)
    requires Orders(less, s) && 0 < k <= |Sort(less, s)|
    ensures var q := Sort(less, s); var rest := Following(less, s, q[k - 1]);
      Orders(less, rest) && Sort(less, rest) == q[k..] && |rest| == |s| - k
  {
    hide Sort;
    var q := Sort(less, s);
    var rest := Following(less, s, q[k - 1]);
    RestMembers(less, s, q, k);
    SortIs(less, rest, q[k..]);
  }

  lemma RestMembers<T(!new)>(less: (T, T) -> bool, s: set<T>, q: seq<T>, k: nat)
    requires StrictOrder(less) && SortedBy(less, q) && (forall x :: x in q <==> x in s) && 0 < k <= |q|
    ensures forall x :: x in q[k..] <==> x in Following(less, s, q[k - 1])
  {
    forall x | x in Following(less, s, q[k - 1])
      ensures x in q[k..]
    {
      var i :| 0 <= i < |q| && q[i] == x;
      assert i >= k;
      assert x == q[k..][i - k];
    }
  }

  /** All the pages a client gets that follows next_cursor from the given cursor on. */
  ghost function Follow<T(!new)>(less: (T, T) -> bool, table: set<T>, cursor: Option<T>, limit: nat): seq<seq<T>>
    requires Orders(less, table) && limit > 0
    decreases |After(less, table, cursor)|
  {
    var page := Page(less, table, cursor, limit);
    if NextCursor(page, limit).None? then [page]
    else
      PageShrinks(less, table, cursor, limit);
      [page] + Follow(less, table, NextCursor(page, limit), limit)
  }

  lemma AfterLast<T(!new)>(less: (T, T) -> bool, table: set<T>, cursor: Option<T>, last: T)
    requires Orders(less, table) && last in After(less, table, cursor)
    ensures After(less, table, Some(last)) == Following(less, After(less, table, cursor), last)
  {
    forall x | x in table && less(last, x)
      ensures x in After(less, table, cursor)
    {
    }
  }

  lemma FullPage<T(!new)>(less: (T, T) -> bool, table: set<T>, cursor: Option<T>, limit: nat)
    requires Orders(less, table) && limit > 0 && NextCursor(Page(less, table, cursor, limit), limit).Some?
    ensures var rows := After(less, table, cursor); var q := Sort(less, rows);
      && Orders(less, rows) && limit <= |q| && Page(less, table, cursor, limit) == q[..limit] && q[limit - 1] in rows
      && NextCursor(Page(less, table, cursor, limit), limit) == Some(q[limit - 1])
  {
    var q := Sort(less, After(less, table, cursor));
    assert |q| == limit ==> q == q[..limit];
  }

  lemma PageShrinks<T(!new)>(less: (T, T) -> bool, table: set<T>, cursor: Option<T>, limit: nat)
    requires Orders(less, table) && limit > 0 && NextCursor(Page(less, table, cursor, limit), limit).Some?
    ensures var page := Page(less, table, cursor, limit);
      var rest := After(less, table, NextCursor(page, limit));
      && |rest| < |After(less, table, cursor)|
      && Orders(less, rest) && Orders(less, After(less, table, cursor))
      && Sort(less, After(less, table, cursor)) == page + Sort(less, rest)
  {
    hide *;
    FullPage(less, table, cursor, limit);
    var rows := After(less, table, cursor);
    var q := Sort(less, rows);
    SplitSorted(less, rows, limit);
    AfterLast(less, table, cursor, q[limit - 1]);
    assert q == q[..limit] + q[limit..];
  }

  function Concat<T>(pages: seq<seq<T>>): seq<T> {
    if pages == [] then [] else pages[0] + Concat(pages[1..])
  }

  lemma {:induction false} FollowFrom<T(!new)>(less: (T, T) -> bool, table: set<T>, cursor: Option<T>, limit: nat)
    requires Orders(less, table) && limit > 0
    ensures Concat(Follow(less, table, cursor, limit)) == Sort(less, After(less, table, cursor))
    decreases |After(less, table, cursor)|
  {
    var page := Page(less, table, cursor, limit);
    var next := NextCursor(page, limit);
    if next.None? {
      assert Concat([page]) == page + Concat([]);
    } else {
      PageShrinks(less, table, cursor, limit);
      FollowFrom(less, table, next, limit);
      var rest := Follow(less, table, next, limit);
      assert ([page] + rest)[1..] == rest;
    }
  }

  /** Following next_cursor until it is absent ends, and the pages together are the whole
      sorted listing: no row is lost or repeated. */
  lemma PagesAreListing<T(!new)>(less: (T, T) -> bool, table: set<T>, limit: nat)
    requires Orders(less, table) && limit > 0
    ensures Concat(Follow(less, table, None, limit)) == Sort(less, table)
  {
    FollowFrom(less, table, None, limit);
    assert After(less, table, None) == table;
  }
}
