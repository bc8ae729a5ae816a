/** The cursor texts of the paged listings and what a client gets that follows them
    (internal/hub/executive.go, exposure.go, device_fleet.go). */
module Cursors {
  import opened Options
  import opened Sorting
  import opened Paging

  // ----- The text of a cursor -----

  datatype Cursor = Cursor(sort: string, value: string, id: string)

  /** Library code: a cursor as JSON in base64, and a time as RFC 3339 text. */
  datatype Codec = Codec(encode: Cursor -> string, decode: string -> Option<Cursor>, format: int -> string, parse: string -> Option<int>)

  ghost predicate Invertible(codec: Codec) {
    && (forall c :: codec.encode(c) != "" && codec.decode(codec.encode(c)) == Some(c))
    && (forall t :: codec.parse(codec.format(t)) == Some(t))
  }

  /** decodeCursor: None is the error; a missing text starts from the beginning, as a
      cursor without id. */
  function Decode(codec: Codec, raw: string, sort: string): Option<Cursor> {
    if raw == "" then Some(Cursor("", "", ""))
    else match codec.decode(raw)
      case None => None
      case Some(c) => if c.sort != sort || c.id == "" then None else Some(c)
  }

  function Digit(n: nat): char
    requires n < 10
  {
    "0123456789"[n]
  }

  /** strconv.Itoa on natural numbers. */
  function Itoa(n: nat): string {
    if n < 10 then [Digit(n)] else Itoa(n / 10) + [Digit(n % 10)]
  }

  predicate IsDigit(c: char) { '0' <= c <= '9' }

  function DigitValue(c: char): nat
    requires IsDigit(c)
  {
    c as int - '0' as int
  }

  function Digits(s: string): Option<nat> {
    if s == "" || !IsDigit(s[|s| - 1]) then None
    else if |s| == 1 then Some(DigitValue(s[0]))
    else
      var rest := Digits(s[..|s| - 1]);
      if rest.None? then None else Some(10 * rest.value + DigitValue(s[|s| - 1]))
  }

  /** strconv.Atoi: an optional sign and decimal digits. */
  function Atoi(s: string): Option<int> {
    var body := if s != "" && (s[0] == '+' || s[0] == '-') then s[1..] else s;
    var n := Digits(body);
    if n.None? then None else
    var value: int := n.value;
    Some(if s[0] == '-' then -value else value)
  }

  /** strings.SplitN(value, "|", 2). */
  function SplitTwo(value: string): (parts: seq<string>)
    ensures 1 <= |parts| <= 2
  {
    if value == "" then [""]
    else if value[0] == '|' then ["", value[1..]]
    else
      var rest := SplitTwo(value[1..]);
      [[value[0]] + rest[0]] + rest[1..]
  }

  /** The split is at the first bar, and there is one part without a bar. */
  lemma {:induction false} SplitIs(value: string)
    ensures '|' !in SplitTwo(value)[0]
    ensures if '|' in value then |SplitTwo(value)| == 2 && value == SplitTwo(value)[0] + "|" + SplitTwo(value)[1] else SplitTwo(value) == [value]
  {
    if value == "" || value[0] == '|' {
      assert value != "" ==> value == "" + "|" + value[1..];
    } else {
      SplitIs(value[1..]);
      var rest := SplitTwo(value[1..]);
      assert value == [value[0]] + value[1..];
      if '|' in value[1..] {
        assert [value[0]] + (rest[0] + "|" + rest[1]) == ([value[0]] + rest[0]) + "|" + rest[1];
      }
    }
  }

  /** The cursor value of an exposure. */
  function ExposureValue(codec: Codec, e: Exposure): string {
    Itoa(SeverityRank(e.severity)) + "|" + codec.format(e.seenAt)
  }

  /** How listExposures reads it back; None is the error. */
  function ReadExposure(codec: Codec, c: Cursor): Option<ExposureKey> {
    var parts := SplitTwo(c.value);
    var rank := Atoi(parts[0]);
    if |parts| != 2 || rank.None? || codec.parse(parts[1]).None? then None
    else Some(ExposureKey(rank.value, codec.parse(parts[1]).value, c.id))
  }

  /** Every exposure's key comes back from its cursor value. */
  lemma ReadIssued(codec: Codec, e: Exposure)
    requires Invertible(codec)
    ensures ReadExposure(codec, Cursor("exposure", ExposureValue(codec, e), e.id)) == Some(KeyOf(e))
  {
    var rank, time := Itoa(SeverityRank(e.severity)), codec.format(e.seenAt);
    var value := rank + "|" + time;
    assert value[|rank|] == '|';
    ItoaPlain(SeverityRank(e.severity));
    AtoiItoa(SeverityRank(e.severity));
    SplitIs(value);
    FirstBar(rank, time, SplitTwo(value)[0], SplitTwo(value)[1]);
  }

  lemma FirstBar(a: string, b: string, c: string, d: string)
    requires a + "|" + b == c + "|" + d && '|' !in a && '|' !in c
    ensures a == c && b == d
  {
    var s := a + "|" + b;
    assert s[|a|] == '|' && s[|c|] == '|';
    assert forall i :: 0 <= i < |a| ==> s[i] == a[i] && a[i] != '|';
    assert forall i :: 0 <= i < |c| ==> s[i] == c[i] && c[i] != '|';
    assert a == s[..|a|] && c == s[..|c|] && b == s[|a| + 1..] && d == s[|c| + 1..];
  }

  lemma {:induction false} ItoaPlain(n: nat)
    ensures Itoa(n) != "" && '|' !in Itoa(n) && forall i :: 0 <= i < |Itoa(n)| ==> IsDigit(Itoa(n)[i])
  {
    if n < 10 {
    } else {
      ItoaPlain(n / 10);
    }
  }

  lemma {:induction false} DigitsItoa(n: nat)
    ensures Digits(Itoa(n)) == Some(n)
  {
    ItoaPlain(n);
    if n < 10 {
    } else {
      DigitsItoa(n / 10);
      ItoaPlain(n / 10);
      assert Itoa(n)[..|Itoa(n)| - 1] == Itoa(n / 10);
    }
  }

  lemma AtoiItoa(n: nat)
    ensures Atoi(Itoa(n)) == Some(n)
  {
    ItoaPlain(n);
    DigitsItoa(n);
    assert IsDigit(Itoa(n)[0]);
  }

  // ----- A listing -----

  /** A list handler: its sort name, its ORDER BY, its cursor predicate, what it puts into
      a cursor and how it reads a cursor back. */
  datatype Listing<!T, !C> = Listing(
    sort: string, before: (T, T) -> bool, after: (T, C) -> bool,
    value: T -> string, id: T -> string, read: Cursor -> Option<C>)

  datatype Reply<T> = Reply(items: seq<T>, next: string)

  ghost function Issue<T, C>(codec: Codec, l: Listing<T, C>, last: Option<T>): string {
    if last.None? then "" else codec.encode(Cursor(l.sort, l.value(last.value), l.id(last.value)))
  }

  /** The rows that the cursor lets through; None is a refused cursor. */
  ghost function Selected<T(!new), C>(codec: Codec, l: Listing<T, C>, table: set<T>, raw: string): Option<set<T>> {
    match Decode(codec, raw, l.sort)
    case None => None
    case Some(c) =>
      if c.id == "" then Some(table)
      else match l.read(c)
        case None => None
        case Some(key) => Some(set x | x in table && l.after(x, key))
  }

  /** One request: None is the answer 400. */
  ghost function Answer<T(!new), C>(codec: Codec, l: Listing<T, C>, table: set<T>, raw: string, limit: nat): Option<Reply<T>>
    requires Orders(l.before, table)
  {
    match Selected(codec, l, table, raw)
    case None => None
    case Some(rows) =>
      var sorted := Sort(l.before, rows);
      var items := if |sorted| <= limit then sorted else sorted[..limit];
      Some(Reply(items, Issue(codec, l, NextCursor(items, limit))))
  }

  /** What a listing's cursor has to do for each row: it is read back, and selects the
      rows that come strictly after that row. */
  ghost predicate Sound<T(!new), C>(l: Listing<T, C>, table: set<T>) {
    forall x :: x in table ==>
      && l.id(x) != "" && l.read(Cursor(l.sort, l.value(x), l.id(x))).Some?
      && forall y :: y in table ==> (l.after(y, l.read(Cursor(l.sort, l.value(x), l.id(x))).value) <==> l.before(x, y))
  }

  /** The request with the text that was issued for a row is the page after that row. */
  lemma AnswerIsPage<T(!new), C>(codec: Codec, l: Listing<T, C>, table: set<T>, last: Option<T>, limit: nat)
    requires Invertible(codec) && Orders(l.before, table) && Sound(l, table) && (last.Some? ==> last.value in table)
    ensures var page := Page(l.before, table, last, limit);
      Answer(codec, l, table, Issue(codec, l, last), limit) == Some(Reply(page, Issue(codec, l, NextCursor(page, limit))))
  {
    if last.Some? {
      var c := Cursor(l.sort, l.value(last.value), l.id(last.value));
      assert Decode(codec, codec.encode(c), l.sort) == Some(c);
      var key := l.read(c).value;
      assert forall y :: y in table ==> (l.after(y, key) <==> l.before(last.value, y));
      assert (set x | x in table && l.after(x, key)) == After(l.before, table, last);
    } else {
      assert After(l.before, table, last) == table;
    }
    assert Selected(codec, l, table, Issue(codec, l, last)) == Some(After(l.before, table, last));
  }

  /** A text that is no cursor, the cursor of another listing and one without an id are
      refused; without a text the listing starts with its first page. */
  lemma ForeignRefused<T(!new), C>(codec: Codec, l: Listing<T, C>, table: set<T>, raw: string, limit: nat)
    requires Orders(l.before, table)
    ensures raw != "" && (codec.decode(raw).None? || codec.decode(raw).value.sort != l.sort || codec.decode(raw).value.id == "") ==>
              Answer(codec, l, table, raw, limit).None?
    ensures raw == "" ==> Answer(codec, l, table, raw, limit).Some? && Answer(codec, l, table, raw, limit).value.items == Page(l.before, table, None, limit)
  {
    assert After(l.before, table, None) == table;
  }

  /** The text that the client sends with its request number `k`, from the first without
      one on. */
  ghost function TextAt<T(!new), C>(codec: Codec, l: Listing<T, C>, table: set<T>, limit: nat, k: nat): string
    requires Orders(l.before, table)
  {
    if k == 0 then ""
    else
      var reply := Answer(codec, l, table, TextAt(codec, l, table, limit, k - 1), limit);
      if reply.None? then "" else reply.value.next
  }

  ghost function LastOf<T>(pages: seq<seq<T>>, k: nat, limit: nat): Option<T>
    requires k <= |pages|
  {
    if k == 0 then None else NextCursor(pages[k - 1], limit)
  }

  /** The pages from any point on are the pages that follow the last row before it. */
  lemma {:induction false} FollowSuffix<T(!new)>(less: (T, T) -> bool, table: set<T>, limit: nat, k: nat)
    requires Orders(less, table) && limit > 0 && k < |Follow(less, table, None, limit)|
    ensures var pages := Follow(less, table, None, limit); var last := LastOf(pages, k, limit);
      && (last.Some? ==> last.value in table) && (k > 0 ==> last.Some?)
      && pages[k..] == Follow(less, table, last, limit)
      && pages[k] == Page(less, table, last, limit)
  {
    var pages := Follow(less, table, None, limit);
    if k == 0 {
      assert pages[0..] == pages;
    } else {
      FollowSuffix(less, table, limit, k - 1);
      var last := LastOf(pages, k - 1, limit);
      assert pages[k - 1..][1..] == pages[k..];
      PageRows(less, table, last, limit);
      LastPage(less, table, last, limit);
    }
  }

  lemma PageRows<T(!new)>(less: (T, T) -> bool, table: set<T>, last: Option<T>, limit: nat)
    requires Orders(less, table) && limit > 0
    ensures var next := NextCursor(Page(less, table, last, limit), limit); next.Some? ==> next.value in table
  {
    if NextCursor(Page(less, table, last, limit), limit).Some? {
      FullPage(less, table, last, limit);
    }
  }

  lemma {:induction false} TextIsIssued<T(!new), C>(codec: Codec, l: Listing<T, C>, table: set<T>, limit: nat, k: nat)
    requires Invertible(codec) && Orders(l.before, table) && Sound(l, table) && limit > 0
    requires k < |Follow(l.before, table, None, limit)|
    ensures TextAt(codec, l, table, limit, k) == Issue(codec, l, LastOf(Follow(l.before, table, None, limit), k, limit))
  {
    hide Follow, Sound, Answer, Invertible;
    if k == 0 {
    } else {
      TextIsIssued(codec, l, table, limit, k - 1);
      FollowSuffix(l.before, table, limit, k - 1);
      AnswerIsPage(codec, l, table, LastOf(Follow(l.before, table, None, limit), k - 1, limit), limit);
    }
  }

  /** The reply to request `k` has page `k` and the text of the next request, which is
      missing for the last page only. */
  ghost predicate Replies<T(!new), C>(codec: Codec, l: Listing<T, C>, table: set<T>, limit: nat, pages: seq<seq<T>>, k: nat)
    requires Orders(l.before, table) && k < |pages|
  {
    && Answer(codec, l, table, TextAt(codec, l, table, limit, k), limit) == Some(Reply(pages[k], TextAt(codec, l, table, limit, k + 1)))
    && (TextAt(codec, l, table, limit, k + 1) == "" <==> k == |pages| - 1)
  }

  /** A client that sends each next_cursor text back gets, request by request, the pages of
      the listing; the text is missing in the last reply only, and all the pages together
      are the whole sorted table. */
  ghost predicate Delivers<T(!new), C>(codec: Codec, l: Listing<T, C>, table: set<T>, limit: nat)
    requires Orders(l.before, table) && limit > 0
  {
    var pages := Follow(l.before, table, None, limit);
    && pages != [] && Concat(pages) == Sort(l.before, table)
    && forall k: nat :: k < |pages| ==> Replies(codec, l, table, limit, pages, k)
  }

  /** A listing whose cursors are read back and select strictly after delivers its table. */
  lemma TextsGiveListing<T(!new), C>(codec: Codec, l: Listing<T, C>, table: set<T>, limit: nat)
    requires Invertible(codec) && Orders(l.before, table) && Sound(l, table) && limit > 0
    ensures Delivers(codec, l, table, limit)
  {
    var pages := Follow(l.before, table, None, limit);
    PagesAreListing(l.before, table, limit);
    forall k: nat | k < |pages|
      ensures Replies(codec, l, table, limit, pages, k)
    {
      ReplyAt(codec, l, table, limit, k);
    }
  }

  lemma ReplyAt<T(!new), C>(codec: Codec, l: Listing<T, C>, table: set<T>, limit: nat, k: nat)
    requires Invertible(codec) && Orders(l.before, table) && Sound(l, table) && limit > 0
    requires k < |Follow(l.before, table, None, limit)|
    ensures Replies(codec, l, table, limit, Follow(l.before, table, None, limit), k)
  {
    hide Sound, Answer, Orders, Follow, Page, Issue, NextCursor, Invertible;
    var pages := Follow(l.before, table, None, limit);
    TextIsIssued(codec, l, table, limit, k);
    FollowSuffix(l.before, table, limit, k);
    AnswerIsPage(codec, l, table, LastOf(pages, k, limit), limit);
    IssueEmpty(codec, l, NextCursor(pages[k], limit));
    LastPage(l.before, table, LastOf(pages, k, limit), limit);
    assert |pages[k..]| == |pages| - k;
  }

  lemma IssueEmpty<T, C>(codec: Codec, l: Listing<T, C>, last: Option<T>)
    requires Invertible(codec)
    ensures Issue(codec, l, last) == "" <==> last.None?
  {
  }

  lemma LastPage<T(!new)>(less: (T, T) -> bool, table: set<T>, last: Option<T>, limit: nat)
    requires Orders(less, table) && limit > 0
    ensures NextCursor(Page(less, table, last, limit), limit).None? <==> |Follow(less, table, last, limit)| == 1
  {
  }

  // ----- The three listings -----

  /** listTargets, the device list, and listSystems by name. */
  function ByName(sort: string): Listing<Named, Named> {
    Listing(sort, NamedBefore, NamedAfter, (x: Named) => x.name, (x: Named) => x.id, (c: Cursor) => Some(Named(c.value, c.id)))
  }

  /** listSystems by time. */
  function ByTime(codec: Codec): Listing<Seen, Seen> {
    Listing("last_seen", SeenBefore, SeenAfter, (x: Seen) => codec.format(x.seenAt), (x: Seen) => x.id,
            (c: Cursor) => if codec.parse(c.value).None? then None else Some(Seen(codec.parse(c.value).value, c.id)))
  }

  function BySeverity(codec: Codec): Listing<Exposure, ExposureKey> {
    Listing("exposure", ExposureBefore, ExposureAfter, (x: Exposure) => ExposureValue(codec, x), (x: Exposure) => x.id,
            (c: Cursor) => ReadExposure(codec, c))
  }

  /** Each of the listings reads its own cursors back and continues strictly after them;
      ids are not empty. */
  lemma ListingsByText(codec: Codec, sort: string, named: set<Named>, seen: set<Seen>, exposures: set<Exposure>)
    requires Invertible(codec)
    requires (forall x :: x in named ==> x.id != "") && (forall x :: x in seen ==> x.id != "") && (forall x :: x in exposures ==> x.id != "")
    ensures Orders(ByName(sort).before, named) && Sound(ByName(sort), named)
    ensures Orders(ByTime(codec).before, seen) && Sound(ByTime(codec), seen)
    ensures Orders(BySeverity(codec).before, exposures) && Sound(BySeverity(codec), exposures)
  {
    NamedOrders(named);
    SeenOrders(seen);
    ExposureOrders(exposures);
    var n, s, e := Named("", ""), Seen(0, ""), Exposure(Low, 0, "");
    forall x, y ensures NamedAfter(y, x) <==> NamedBefore(x, y) { CursorIsStrictlyAfter(y, x, s, s, e, e); }
    forall x, y ensures SeenAfter(y, x) <==> SeenBefore(x, y) { CursorIsStrictlyAfter(n, n, y, x, e, e); }
    forall x, y ensures ExposureAfter(y, KeyOf(x)) <==> ExposureBefore(x, y) { CursorIsStrictlyAfter(n, n, s, s, y, x); }
    forall x | x in exposures ensures ReadExposure(codec, Cursor("exposure", ExposureValue(codec, x), x.id)) == Some(KeyOf(x)) { ReadIssued(codec, x); }
  }

  /** So a client that follows the texts of any of them gets its whole sorted table. */
  lemma ListingsDeliver(codec: Codec, sort: string, named: set<Named>, seen: set<Seen>, exposures: set<Exposure>, limit: nat)
    requires Invertible(codec) && limit > 0
    requires (forall x :: x in named ==> x.id != "") && (forall x :: x in seen ==> x.id != "") && (forall x :: x in exposures ==> x.id != "")
    ensures Orders(ByName(sort).before, named) && Delivers(codec, ByName(sort), named, limit)
    ensures Orders(ByTime(codec).before, seen) && Delivers(codec, ByTime(codec), seen, limit)
    ensures Orders(BySeverity(codec).before, exposures) && Delivers(codec, BySeverity(codec), exposures, limit)
  {
    hide *;
    ListingsByText(codec, sort, named, seen, exposures);
    TextsGiveListing(codec, ByName(sort), named, limit);
    TextsGiveListing(codec, ByTime(codec), seen, limit);
    TextsGiveListing(codec, BySeverity(codec), exposures, limit);
  }

  /** queryLimit on the parsed parameter; 0 stands for a missing or malformed one. */
  function QueryLimit(value: int): (limit: nat)
    ensures 1 <= limit <= 1000 && (1 <= value <= 1000 ==> limit == value)
    ensures (value <= 0 ==> limit == 100) && (value > 1000 ==> limit == 1000)
  {
    if value <= 0 then 100 else if value > 1000 then 1000 else value
  }
}
