/**
 * Keyset pagination: the opaque cursor, one page, and a whole walk over a table that may change
 * between pages. Sort keys are milliseconds, the precision a cursor carries.
 */
module PageCursor {
  import opened Prelude
  import opened Domain

  // ----- base64url (RFC 4648, section 5), without padding ------------------------------------

  function Digit(n: nat): char
    requires n < 64
  {
    if n < 26 then 'A' + n as char
    else if n < 52 then 'a' + (n - 26) as char
    else if n < 62 then '0' + (n - 52) as char
    else if n == 62 then '-'
    else '_'
  }

  function DigitValue(c: char): Option<nat> {
    if 'A' <= c <= 'Z' then Some((c - 'A') as nat)
    else if 'a' <= c <= 'z' then Some((c - 'a') as nat + 26)
    else if '0' <= c <= '9' then Some((c - '0') as nat + 52)
    else if c == '-' then Some(62)
    else if c == '_' then Some(63)
    else None
  }

  lemma DigitRoundTrip(n: nat)
    requires n < 64
    ensures DigitValue(Digit(n)) == Some(n)
  {
  }

  predicate Bytes(b: seq<nat>) {
    forall i | 0 <= i < |b| :: b[i] < 256
  }

  predicate Sextets(q: seq<nat>) {
    forall i | 0 <= i < |q| :: q[i] < 64
  }

  /** Three bytes become four digits; one or two left over become two or three. */
  function Split(b: seq<nat>): (q: seq<nat>)
    requires Bytes(b)
    ensures Sextets(q)
  {
    if |b| == 0 then []
    else if |b| == 1 then [b[0] / 4, b[0] % 4 * 16]
    else if |b| == 2 then [b[0] / 4, b[0] % 4 * 16 + b[1] / 16, b[1] % 16 * 4]
    else [b[0] / 4, b[0] % 4 * 16 + b[1] / 16, b[1] % 16 * 4 + b[2] / 64, b[2] % 64] + Split(b[3..])
  }

  function Join(q: seq<nat>): seq<nat> {
    if |q| < 2 then []
    else if |q| == 2 then [q[0] * 4 + q[1] / 16]
    else if |q| == 3 then [q[0] * 4 + q[1] / 16, q[1] % 16 * 16 + q[2] / 4]
    else [q[0] * 4 + q[1] / 16, q[1] % 16 * 16 + q[2] / 4, q[2] % 4 * 64 + q[3]] + Join(q[4..])
  }

  lemma {:induction false} JoinSplit(b: seq<nat>)
    requires Bytes(b)
    ensures Join(Split(b)) == b
  {
    if |b| == 1 {
      assert b[0] / 4 * 4 + b[0] % 4 * 16 / 16 == b[0];
    } else if |b| == 2 {
      ThreeBytes(b[0], b[1], 0);
    } else if |b| >= 3 {
      var tail := b[3..];
      JoinSplit(tail);
      assert Split(b)[4..] == Split(tail);
      ThreeBytes(b[0], b[1], b[2]);
    }
  }

  lemma ThreeBytes(x: nat, y: nat, z: nat)
    requires x < 256 && y < 256 && z < 256
    ensures x / 4 * 4 + (x % 4 * 16 + y / 16) / 16 == x
    ensures (x % 4 * 16 + y / 16) % 16 * 16 + (y % 16 * 4 + z / 64) / 4 == y
    ensures (y % 16 * 4 + z / 64) % 4 * 64 + z % 64 == z
  {
  }

  function Print(q: seq<nat>): string
    requires Sextets(q)
  {
    if q == [] then "" else [Digit(q[0])] + Print(q[1..])
  }

  /** Characters outside the alphabet are skipped. */
  function Scan(s: string): seq<nat> {
    if s == "" then []
    else if DigitValue(s[0]).Some? then [DigitValue(s[0]).value] + Scan(s[1..])
    else Scan(s[1..])
  }

  lemma {:induction false} ScanPrint(q: seq<nat>)
    requires Sextets(q)
    ensures Scan(Print(q)) == q
  {
    if q != [] {
      ScanPrint(q[1..]);
      DigitRoundTrip(q[0]);
      assert Print(q)[1..] == Print(q[1..]);
    }
  }

  function EncodeBytes(b: seq<nat>): string
    requires Bytes(b)
  {
    Print(Split(b))
  }

  function DecodeBytes(s: string): seq<nat> {
    Join(Scan(s))
  }

  /** Decoding inverts encoding for every byte string. */
  lemma BytesRoundTrip(b: seq<nat>)
    requires Bytes(b)
    ensures DecodeBytes(EncodeBytes(b)) == b
  {
    ScanPrint(Split(b));
    JoinSplit(b);
  }

  // ----- Cursors -----------------------------------------------------------------------------

  const CURSOR_VERSION := 1
  const MAXIMUM_CURSOR_LENGTH := 512
  const MAXIMUM_COMPONENT_LENGTH := 128

  /** The last row of a page: its leading sort value and its primary key, as text. */
  datatype Position = Position(sortKey: string, id: string)

  datatype Payload = Payload(version: int, sortKey: string, id: string)

  /** The runtime's JSON in UTF-8: what is shown reads back; `None` is no object of this shape. */
  datatype Json = Json(show: Payload -> seq<nat>, read: seq<nat> -> Option<Payload>)

  ghost predicate Faithful(json: Json) {
    forall p :: Bytes(json.show(p)) && json.read(json.show(p)) == Some(p)
  }

  ghost function EncodePageCursor(json: Json, p: Position): string
    requires Faithful(json)
  {
    EncodeBytes(json.show(Payload(CURSOR_VERSION, p.sortKey, p.id)))
  }

  predicate IsComponent(text: string) {
    0 < |text| <= MAXIMUM_COMPONENT_LENGTH
  }

  function DecodePageCursor(json: Json, cursor: string): Result<Position, DomainError> {
    if |cursor| == 0 || |cursor| > MAXIMUM_CURSOR_LENGTH then Err(ValidationFailed)
    else
      var payload := json.read(DecodeBytes(cursor));
      if payload.None? || payload.value.version != CURSOR_VERSION
         || !IsComponent(payload.value.sortKey) || !IsComponent(payload.value.id) then Err(ValidationFailed)
      else Ok(Position(payload.value.sortKey, payload.value.id))
  }

  /**
   * A cursor that was issued decodes to its position exactly when both components are non-empty
   * and within their bound and the token is within its own; otherwise it is refused.
   */
  lemma CursorRoundTrip(json: Json, p: Position)
    requires Faithful(json)
    ensures var cursor := EncodePageCursor(json, p);
            DecodePageCursor(json, cursor)
            == if IsComponent(p.sortKey) && IsComponent(p.id) && 0 < |cursor| <= MAXIMUM_CURSOR_LENGTH then Ok(p)
               else Err(ValidationFailed)
  {
    BytesRoundTrip(json.show(Payload(CURSOR_VERSION, p.sortKey, p.id)));
  }

  // ----- One page ----------------------------------------------------------------------------

  /** A row's place in the order: most recently updated first, identifiers breaking ties. */
  datatype Key = Key(updatedAt: int, id: nat)

  predicate Precedes(a: Key, b: Key) {
    a.updatedAt > b.updatedAt || (a.updatedAt == b.updatedAt && a.id > b.id)
  }

  /** The seek condition: rows strictly after the cursor in the order. */
  function After(table: set<Key>, cursor: Option<Key>): set<Key> {
    set key | key in table && (cursor.None? || Precedes(cursor.value, key))
  }

  lemma {:induction false} FirstExists(s: set<Key>) returns (first: Key)
    requires s != {}
    ensures first in s && forall key | key in s :: key == first || Precedes(first, key)
    decreases |s|
  {
    var some :| some in s;
    if s == {some} {
      first := some;
    } else {
      var best := FirstExists(s - {some});
      first := if Precedes(some, best) then some else best;
      forall key | key in s
        ensures key == first || Precedes(first, key)
      {
        assert key == some || key in s - {some};
      }
    }
  }

  lemma FirstIsThere(s: set<Key>)
    requires s != {}
    ensures exists first :: first in s && forall key | key in s :: key == first || Precedes(first, key)
  {
    var first := FirstExists(s);
  }

  ghost function First(s: set<Key>): (first: Key)
    requires s != {}
    ensures first in s && forall key | key in s :: key == first || Precedes(first, key)
  {
    FirstIsThere(s);
    var first :| first in s && forall key | key in s :: key == first || Precedes(first, key);
    first
  }

  /** The rows in order. */
  ghost function Ordered(s: set<Key>): (rows: seq<Key>)
    ensures |rows| == |s|
    ensures forall key :: key in rows <==> key in s
    decreases |s|
  {
    if s == {} then [] else [First(s)] + Ordered(s - {First(s)})
  }

  lemma {:induction false} OrderedDescends(s: set<Key>, i: nat, j: nat)
    requires i < j < |s|
    ensures Precedes(Ordered(s)[i], Ordered(s)[j])
    decreases |s|
  {
    var rest := s - {First(s)};
    if i == 0 {
      assert Ordered(s)[j] == Ordered(rest)[j - 1];
      assert Ordered(rest)[j - 1] in Ordered(rest);
    } else {
      OrderedDescends(rest, i - 1, j - 1);
    }
  }

  datatype Page = Page(items: seq<Key>, next: Option<Key>)

  /** Trims a result that was fetched one row too long; the extra row proves there is a next page. */
  function Paginate(rows: seq<Key>, limit: nat): Page {
    if |rows| <= limit then Page(rows, None)
    else if limit == 0 then Page([], None)
    else Page(rows[..limit], Some(rows[limit - 1]))
  }

  /** The query fetches at most one row more than the page holds. */
  ghost function Fetched(table: set<Key>, cursor: Option<Key>, limit: nat): seq<Key> {
    var rows := Ordered(After(table, cursor));
    if |rows| <= limit + 1 then rows else rows[..limit + 1]
  }

  ghost function PageAt(table: set<Key>, cursor: Option<Key>, limit: nat): Page {
    Paginate(Fetched(table, cursor, limit), limit)
  }

  lemma PageShape(table: set<Key>, cursor: Option<Key>, limit: nat)
    requires limit >= 1
    ensures var rows, page := Ordered(After(table, cursor)), PageAt(table, cursor, limit);
            if |rows| <= limit then page == Page(rows, None) else page == Page(rows[..limit], Some(rows[limit - 1]))
  {
  }

  ghost predicate Descending(rows: seq<Key>) {
    forall i, j | 0 <= i < j < |rows| :: Precedes(rows[i], rows[j])
  }

  lemma OrderedIsDescending(s: set<Key>)
    ensures Descending(Ordered(s))
  {
    forall i, j | 0 <= i < j < |s|
      ensures Precedes(Ordered(s)[i], Ordered(s)[j])
    {
      OrderedDescends(s, i, j);
    }
  }

  /** The first n rows are those not after the n-th. */
  lemma PrefixIsSegment(rows: seq<Key>, n: nat, key: Key)
    requires Descending(rows) && 1 <= n <= |rows|
    ensures key in rows[..n] <==> key in rows && !Precedes(rows[n - 1], key)
  {
    if key in rows {
      var k :| 0 <= k < |rows| && rows[k] == key;
      if k < n {
        assert rows[..n][k] == key;
      } else {
        assert forall j | 0 <= j < n :: Precedes(rows[..n][j], key);
      }
    }
  }

  /** A page holds the rows after its cursor, in order, up to the next cursor or to the end. */
  lemma PageIsSegment(table: set<Key>, cursor: Option<Key>, limit: nat)
    requires limit >= 1
    ensures var page := PageAt(table, cursor, limit);
            && (forall key :: key in page.items <==>
                  key in After(table, cursor) && (page.next.None? || !Precedes(page.next.value, key)))
            && (page.next.Some? ==> page.next.value in page.items && |page.items| == limit)
            && |page.items| <= limit
  {
    PageShape(table, cursor, limit);
    var s := After(table, cursor);
    if |s| > limit {
      assert Ordered(s)[..limit][limit - 1] == Ordered(s)[limit - 1];
      OrderedIsDescending(s);
      forall key
        ensures key in Ordered(s)[..limit] <==> key in s && !Precedes(Ordered(s)[limit - 1], key)
      {
        PrefixIsSegment(Ordered(s), limit, key);
      }
    }
  }

  // ----- A walk over a changing table --------------------------------------------------------

  /** Rows are identified by their primary key. */
  ghost predicate IdsDistinct(table: set<Key>) {
    forall a, b | a in table && b in table && a.id == b.id :: a == b
  }

  /**
   * What may happen to the table between two pages: no row appears after the cursor. Inserts and
   * updates that raise a row's key above the cursor, and deletes, are all of this kind.
   */
  ghost predicate OnlyRaises(before: set<Key>, after: set<Key>, cursor: Key) {
    After(after, Some(cursor)) <= After(before, Some(cursor))
  }

  /** The tables a walk's pages were read from, and the cursors it followed. */
  ghost predicate Walk(tables: seq<set<Key>>, cursors: seq<Option<Key>>, limit: nat) {
    && limit >= 1 && |tables| == |cursors| >= 1 && cursors[0] == None
    && (forall k | 0 <= k < |tables| :: IdsDistinct(tables[k]))
    && (forall k | 0 < k < |tables| :: Follows(tables, cursors, limit, k))
  }

  /** The k-th page was read from the cursor of the page before, on a table that changed harmlessly. */
  ghost predicate Follows(tables: seq<set<Key>>, cursors: seq<Option<Key>>, limit: nat, k: nat)
    requires |tables| == |cursors| && 0 < k < |tables|
  {
    && cursors[k].Some? && cursors[k] == PageAt(tables[k - 1], cursors[k - 1], limit).next
    && OnlyRaises(tables[k - 1], tables[k], cursors[k].value)
  }

  ghost predicate Complete(tables: seq<set<Key>>, cursors: seq<Option<Key>>, limit: nat)
    requires |tables| == |cursors| >= 1
  {
    PageAt(tables[|tables| - 1], cursors[|tables| - 1], limit).next.None?
  }

  ghost predicate Returned(tables: seq<set<Key>>, cursors: seq<Option<Key>>, limit: nat, k: nat, key: Key)
    requires |tables| == |cursors| && k < |tables|
  {
    key in PageAt(tables[k], cursors[k], limit).items
  }

  /** Each cursor lies strictly after the one before. */
  lemma CursorAdvances(tables: seq<set<Key>>, cursors: seq<Option<Key>>, limit: nat, k: nat)
    requires Walk(tables, cursors, limit) && 0 < k < |tables|
    ensures cursors[k].Some? && (cursors[k - 1].Some? ==> Precedes(cursors[k - 1].value, cursors[k].value))
  {
    assert Follows(tables, cursors, limit, k);
    PageIsSegment(tables[k - 1], cursors[k - 1], limit);
  }

  /** What lies after a later cursor lay there, with the same key, when an earlier page was read. */
  lemma {:induction false} LaterRowsWereThere(tables: seq<set<Key>>, cursors: seq<Option<Key>>, limit: nat, j: nat, k: nat, key: Key)
    requires Walk(tables, cursors, limit) && j < k < |tables| && key in After(tables[k], cursors[k])
    ensures cursors[j + 1].Some? && key in After(tables[j], cursors[j + 1])
    decreases k
  {
    CursorAdvances(tables, cursors, limit, k);
    assert Follows(tables, cursors, limit, k);
    if j + 1 < k {
      assert key in After(tables[k - 1], cursors[k - 1]);
      LaterRowsWereThere(tables, cursors, limit, j, k - 1, key);
    }
  }

  /** No row is returned twice, even if its key changed between the pages. */
  lemma NoRowTwice(tables: seq<set<Key>>, cursors: seq<Option<Key>>, limit: nat, j: nat, k: nat, a: Key, b: Key)
    requires Walk(tables, cursors, limit) && j < k < |tables|
    requires Returned(tables, cursors, limit, j, a) && Returned(tables, cursors, limit, k, b)
    ensures a.id != b.id
  {
    ItemsLieBetween(tables[k], cursors[k], limit, b);
    LaterRowsWereThere(tables, cursors, limit, j, k, b);
    ItemsLieBetween(tables[j], cursors[j], limit, a);
    assert Follows(tables, cursors, limit, j + 1);
    NotBoth(tables[j], cursors[j + 1].value, a, b);
  }

  /** An item lies after the page's cursor and not after the next one. */
  lemma ItemsLieBetween(table: set<Key>, cursor: Option<Key>, limit: nat, key: Key)
    requires limit >= 1 && key in PageAt(table, cursor, limit).items
    ensures key in After(table, cursor)
    ensures PageAt(table, cursor, limit).next.Some? ==> !Precedes(PageAt(table, cursor, limit).next.value, key)
  {
    PageIsSegment(table, cursor, limit);
  }

  lemma NotBoth(table: set<Key>, next: Key, a: Key, b: Key)
    requires IdsDistinct(table) && a in table && !Precedes(next, a) && b in After(table, Some(next))
    ensures a.id != b.id
  {
  }

  lemma AheadIsReturnedOrAhead(tables: seq<set<Key>>, cursors: seq<Option<Key>>, limit: nat, n: nat, key: Key)
    requires Walk(tables, cursors, limit) && 0 < n < |tables|
    requires key in After(tables[n - 1], cursors[n - 1]) && key in tables[n]
    ensures Returned(tables, cursors, limit, n - 1, key) || key in After(tables[n], cursors[n])
  {
    assert Follows(tables, cursors, limit, n);
    PageIsSegment(tables[n - 1], cursors[n - 1], limit);
  }

  lemma {:induction false} UntouchedIsReturnedOrAhead(tables: seq<set<Key>>, cursors: seq<Option<Key>>, limit: nat, n: nat, key: Key)
    requires Walk(tables, cursors, limit) && n < |tables|
    requires forall k | 0 <= k < |tables| :: key in tables[k]
    ensures (exists k: nat :: k < n && Returned(tables, cursors, limit, k, key)) || key in After(tables[n], cursors[n])
  {
    if n > 0 {
      UntouchedIsReturnedOrAhead(tables, cursors, limit, n - 1, key);
      if key in After(tables[n - 1], cursors[n - 1]) {
        AheadIsReturnedOrAhead(tables, cursors, limit, n, key);
      }
    }
  }

  /**
   * Every row that nobody touches during a complete walk is returned, on exactly one page; with
   * `NoRowTwice`, no row at all is returned twice.
   */
  lemma UntouchedRowsAreReturnedOnce(tables: seq<set<Key>>, cursors: seq<Option<Key>>, limit: nat, key: Key) returns (page: nat)
    requires Walk(tables, cursors, limit) && Complete(tables, cursors, limit)
    requires forall k | 0 <= k < |tables| :: key in tables[k]
    ensures page < |tables| && Returned(tables, cursors, limit, page, key)
    ensures forall k: nat | k < |tables| && Returned(tables, cursors, limit, k, key) :: k == page
  {
    var last := |tables| - 1;
    UntouchedIsReturnedOrAhead(tables, cursors, limit, last, key);
    PageIsSegment(tables[last], cursors[last], limit);
    if k: nat :| k < last && Returned(tables, cursors, limit, k, key) {
      page := k;
    } else {
      page := last;
    }
    forall k: nat | k < |tables| && Returned(tables, cursors, limit, k, key)
      ensures k == page
    {
      if k < page {
        NoRowTwice(tables, cursors, limit, k, page, key, key);
      } else if page < k {
        NoRowTwice(tables, cursors, limit, page, k, key, key);
      }
    }
  }

  // ----- A walk over a fixed table -----------------------------------------------------------

  /** All pages of a fixed table from a cursor on; each page that has a next one is not empty. */
  ghost function WalkFixed(table: set<Key>, cursor: Option<Key>, limit: nat): (rows: seq<Key>)
    requires limit >= 1
    decreases |After(table, cursor)|
  {
    var page := PageAt(table, cursor, limit);
    PageIsSegment(table, cursor, limit);
    if page.next.None? then page.items
    else
      FewerAfter(table, cursor, page.next.value);
      page.items + WalkFixed(table, page.next, limit)
  }

  lemma FewerAfter(table: set<Key>, cursor: Option<Key>, next: Key)
    requires next in After(table, cursor)
    ensures |After(table, Some(next))| < |After(table, cursor)|
  {
    assert After(table, Some(next)) <= After(table, cursor) - {next};
    SmallerThan(After(table, Some(next)), After(table, cursor) - {next});
  }

  lemma SmallerThan(a: set<Key>, b: set<Key>)
    requires a <= b
    ensures |a| <= |b|
  {
    assert b == a + (b - a);
  }

  /** Dropping the first rows of the order leaves the rows after the last one dropped. */
  lemma {:induction false} OrderedAfter(s: set<Key>, n: nat)
    requires 1 <= n <= |s|
    ensures Ordered(s)[n..] == Ordered(After(s, Some(Ordered(s)[n - 1])))
    decreases |s|
  {
    var rest := s - {First(s)};
    OrderedUnfolds(s);
    DropFrom(First(s), Ordered(rest), n);
    if n == 1 {
      AfterFirst(s);
      assert Ordered(rest)[0..] == Ordered(rest);
    } else {
      OrderedAfter(rest, n - 1);
      var last := Ordered(rest)[n - 2];
      assert last in Ordered(rest);
      FirstIsBefore(s, last);
    }
  }

  lemma OrderedUnfolds(s: set<Key>)
    requires s != {}
    ensures Ordered(s) == [First(s)] + Ordered(s - {First(s)})
  {
  }

  lemma DropFrom(key: Key, rest: seq<Key>, n: nat)
    requires 1 <= n <= |rest| + 1
    ensures ([key] + rest)[n..] == rest[n - 1..]
    ensures n >= 2 ==> ([key] + rest)[n - 1] == rest[n - 2]
  {
  }

  lemma AfterFirst(s: set<Key>)
    requires s != {}
    ensures After(s, Some(First(s))) == s - {First(s)}
  {
  }

  lemma FirstIsBefore(s: set<Key>, last: Key)
    requires last in s && s != {} && last != First(s)
    ensures After(s, Some(last)) == After(s - {First(s)}, Some(last))
  {
  }

  /**
   * Following the cursors over a table that does not change ends, and returns each of its rows
   * exactly once, in order.
   */
  lemma {:induction false} FixedWalkIsTheTable(table: set<Key>, cursor: Option<Key>, limit: nat)
    requires limit >= 1
    ensures WalkFixed(table, cursor, limit) == Ordered(After(table, cursor))
    decreases |After(table, cursor)|
  {
    WalkUnfolds(table, cursor, limit);
    PageShape(table, cursor, limit);
    if PageAt(table, cursor, limit).next.Some? {
      var next := PageAt(table, cursor, limit).next.value;
      PageLeavesTheRest(table, cursor, limit);
      FixedWalkIsTheTable(table, Some(next), limit);
    }
  }

  /** A page that has a next one, and the rows after that, are all the rows after the cursor. */
  lemma PageLeavesTheRest(table: set<Key>, cursor: Option<Key>, limit: nat)
    requires limit >= 1 && PageAt(table, cursor, limit).next.Some?
    ensures var page := PageAt(table, cursor, limit);
            && page.next.value in After(table, cursor)
            && |After(table, page.next)| < |After(table, cursor)|
            && Ordered(After(table, cursor)) == page.items + Ordered(After(table, page.next))
  {
    PageShape(table, cursor, limit);
    RestOfRows(table, cursor, limit, Ordered(After(table, cursor))[limit - 1]);
  }

  lemma RestOfRows(table: set<Key>, cursor: Option<Key>, n: nat, next: Key)
    requires 1 <= n <= |After(table, cursor)| && next == Ordered(After(table, cursor))[n - 1]
    ensures next in After(table, cursor) && |After(table, Some(next))| < |After(table, cursor)|
    ensures Ordered(After(table, cursor)) == Ordered(After(table, cursor))[..n] + Ordered(After(table, Some(next)))
  {
    var s := After(table, cursor);
    assert next in Ordered(s);
    FewerAfter(table, cursor, next);
    AfterTwice(table, cursor, next);
    RowsSplit(s, n);
  }

  lemma RowsSplit(s: set<Key>, n: nat)
    requires 1 <= n <= |s|
    ensures Ordered(s) == Ordered(s)[..n] + Ordered(After(s, Some(Ordered(s)[n - 1])))
  {
    OrderedAfter(s, n);
    SplitAt(Ordered(s), n);
  }

  lemma SplitAt(rows: seq<Key>, n: nat)
    requires n <= |rows|
    ensures rows == rows[..n] + rows[n..]
  {
  }

  lemma WalkUnfolds(table: set<Key>, cursor: Option<Key>, limit: nat)
    requires limit >= 1
    ensures var page := PageAt(table, cursor, limit);
            WalkFixed(table, cursor, limit)
            == if page.next.None? then page.items else page.items + WalkFixed(table, page.next, limit)
  {
  }

  lemma AfterTwice(table: set<Key>, cursor: Option<Key>, next: Key)
    requires next in After(table, cursor)
    ensures After(After(table, cursor), Some(next)) == After(table, Some(next))
  {
  }
}
