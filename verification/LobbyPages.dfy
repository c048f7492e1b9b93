/**
 Keyset pagination of lobbies (backend/internal/store/game_repository.go).

 A table is its rows in any physical order; a query is what the SQL text asks for: the rows
 below the cursor, by (updated_at, code) descending, at most `limit` of them. Codes are
 compared by the database's collation, which may be any strict total order on strings.
 */
module LobbyPages {
  import opened Prelude
  import Decimal
  import GoStrings
  import Nicknames

  const DEFAULT_LIMIT := 50
  const MAX_LIMIT := 100
  const MAX_INT := 0x7FFF_FFFF_FFFF_FFFF

  datatype Row = Row(updatedAt: int, code: string, state: string)
  datatype Cursor = Cursor(updatedAt: int, code: string)
  datatype Page = Page(lobbies: seq<Row>, hasMore: bool, nextCursor: string)

  type Collation = (string, string) -> bool

  ghost predicate Lawful(less: Collation) {
    && (forall a :: !less(a, a))
    && (forall a, b :: a != b ==> less(a, b) || less(b, a))
    && (forall a, b, c :: less(a, b) && less(b, c) ==> less(a, c))
  }

  // ---------------------------------------------------------------- the queries

  /** (updated_at, code) < ($1, $2). */
  predicate Below(less: Collation, r: Row, c: Cursor) {
    r.updatedAt < c.updatedAt || (r.updatedAt == c.updatedAt && less(r.code, c.code))
  }

  function Key(r: Row): (c: Cursor) {
    Cursor(r.updatedAt, r.code)
  }

  function Insert(less: Collation, x: Row, s: seq<Row>): (t: seq<Row>)
    ensures |t| == |s| + 1
  {
    if s == [] || Below(less, s[0], Key(x)) then [x] + s else [s[0]] + Insert(less, x, s[1..])
  }

  /** ORDER BY updated_at DESC, code DESC. */
  function Listing(less: Collation, rows: seq<Row>): (s: seq<Row>)
    ensures |s| == |rows|
  {
    if rows == [] then [] else Insert(less, rows[0], Listing(less, rows[1..]))
  }

  function RowsBelow(less: Collation, rows: seq<Row>, c: Cursor): (s: seq<Row>) {
    if rows == [] then []
    else (if Below(less, rows[0], c) then [rows[0]] else []) + RowsBelow(less, rows[1..], c)
  }

  function Take(s: seq<Row>, n: nat): (t: seq<Row>) {
    if |s| <= n then s else s[..n]
  }

  function QueryLobbies(less: Collation, rows: seq<Row>, cursor: Option<Cursor>, fetchLimit: nat): (s: seq<Row>) {
    match cursor
    case None => Take(Listing(less, rows), fetchLimit)
    case Some(c) => Take(Listing(less, RowsBelow(less, rows, c)), fetchLimit)
  }

  // ---------------------------------------------------------------- cursors

  /** fmt.Sprintf("%d|%s"). */
  function PrintCursor(r: Row): (s: string) {
    (if r.updatedAt < 0 then "-" + Decimal.Print(-r.updatedAt) else Decimal.Print(r.updatedAt)) + "|" + r.code
  }

  /** Position of the first separator. */
  function Separator(s: string): (i: nat)
    ensures i <= |s|
    ensures forall j :: 0 <= j < i ==> s[j] != '|'
    ensures i < |s| ==> s[i] == '|'
  {
    if s == [] || s[0] == '|' then 0 else 1 + Separator(s[1..])
  }

  function SkipSpace(s: string): (t: string) {
    if s != [] && s[0] != '\n' && Nicknames.IsSpace(GoStrings.Scalar(s[0])) then SkipSpace(s[1..]) else s
  }

  function DigitRun(s: string): (d: string)
    ensures forall i :: 0 <= i < |d| ==> Decimal.IsDigit(d[i])
  {
    if s != [] && Decimal.IsDigit(s[0]) then [s[0]] + DigitRun(s[1..]) else []
  }

  /** fmt.Sscanf("%d"): blanks, a sign, digits; whatever follows them is ignored. */
  function ScanInt(s: string): (n: Option<int>) {
    var t := SkipSpace(s);
    var signed := t != [] && (t[0] == '-' || t[0] == '+');
    var digits := DigitRun(if signed then t[1..] else t);
    if digits == [] then None else
    var n := if t[0] == '-' then 0 - Decimal.Value(digits) as int else Decimal.Value(digits) as int;
    if -MAX_INT - 1 <= n <= MAX_INT then Some(n) else None
  }

  datatype Parsed = First | At(cursor: Cursor) | Malformed

  /** parseLobbyCursor. */
  function ParseCursor(s: string): (p: Parsed) {
    if s == "" then First else
    var i := Separator(s);
    if i == |s| then Malformed else
    match ScanInt(s[..i])
    case None => Malformed
    case Some(n) => if n <= 0 || s[i + 1..] == "" then Malformed else At(Cursor(n, s[i + 1..]))
  }

  lemma {:induction false} DigitRunOfDigits(s: string)
    requires forall i :: 0 <= i < |s| ==> Decimal.IsDigit(s[i])
    ensures DigitRun(s) == s
  {
    if s != [] {
      DigitRunOfDigits(s[1..]);
      assert s == [s[0]] + s[1..];
    }
  }

  lemma ScanPrinted(n: nat)
    requires n <= MAX_INT
    ensures ScanInt(Decimal.Print(n)) == Some(n)
  {
    var s := Decimal.Print(n);
    assert Decimal.IsDigit(s[0]);
    assert SkipSpace(s) == s;
    DigitRunOfDigits(s);
    Decimal.ValueOfPrint(n);
  }

  lemma SeparatorOf(head: string, tail: string)
    requires forall i :: 0 <= i < |head| ==> head[i] != '|'
    ensures Separator(head + "|" + tail) == |head|
  {
    var s := head + "|" + tail;
    assert s[|head|] == '|';
    assert forall i :: 0 <= i < |head| ==> s[i] == head[i];
  }

  lemma ScanNegative(n: nat)
    requires 0 < n
    ensures ScanInt("-" + Decimal.Print(n)).None? || ScanInt("-" + Decimal.Print(n)).value <= 0
  {
    var s := "-" + Decimal.Print(n);
    assert SkipSpace(s) == s && s[0] == '-';
  }

  /** A printed cursor is read back exactly when its row has a positive time and a code. */
  lemma CursorRoundTripIff(r: Row)
    requires r.updatedAt <= MAX_INT
    ensures ParseCursor(PrintCursor(r)) == At(Key(r)) <==> r.updatedAt > 0 && r.code != ""
  {
    var head := if r.updatedAt < 0 then "-" + Decimal.Print(-r.updatedAt) else Decimal.Print(r.updatedAt);
    var s := PrintCursor(r);
    assert forall i :: 0 <= i < |head| ==> head[i] != '|';
    SeparatorOf(head, r.code);
    assert s[..|head|] == head && s[|head| + 1..] == r.code;
    if r.updatedAt >= 0 {
      ScanPrinted(r.updatedAt);
    } else {
      ScanNegative(-r.updatedAt);
    }
  }

  /** A cursor without separator, such as a bare lobby code, is refused. */
  lemma BareCodeIsMalformed(code: string)
    requires code != "" && forall i :: 0 <= i < |code| ==> code[i] != '|'
    ensures ParseCursor(code) == Malformed
  {
    assert Separator(code) == |code|;
  }

  // ---------------------------------------------------------------- one page

  function ClampLimit(limit: int): (n: nat)
    ensures 1 <= n <= MAX_LIMIT
  {
    if limit <= 0 then DEFAULT_LIMIT else if limit > MAX_LIMIT then MAX_LIMIT else limit
  }

  /** buildLobbyListResult. */
  function BuildPage(lobbies: seq<Row>, limit: nat): (p: Page) {
    var hasMore := |lobbies| > limit;
    var shown := if hasMore then lobbies[..limit] else lobbies;
    Page(shown, hasMore, if hasMore && |shown| > 0 then PrintCursor(shown[|shown| - 1]) else "")
  }

  /** LoadAllActiveLobbies; None is its error. */
  function Load(less: Collation, rows: seq<Row>, limit: int, cursor: string): (p: Option<Page>) {
    var n := ClampLimit(limit);
    match ParseCursor(cursor)
    case Malformed => None
    case First => Some(BuildPage(QueryLobbies(less, rows, None, n + 1), n))
    case At(c) => Some(BuildPage(QueryLobbies(less, rows, Some(c), n + 1), n))
  }

  // ---------------------------------------------------------------- listings

  /** Strictly descending by (updated_at, code). */
  ghost predicate Descending(less: Collation, s: seq<Row>) {
    forall i, j :: 0 <= i < j < |s| ==> Below(less, s[j], Key(s[i]))
  }

  ghost predicate DistinctCodes(rows: seq<Row>) {
    forall i, j :: 0 <= i < j < |rows| ==> rows[i].code != rows[j].code
  }

  /** What the schema and its writers guarantee: unique nonempty codes, positive int64 times. */
  ghost predicate TableOk(rows: seq<Row>) {
    DistinctCodes(rows) && forall i :: 0 <= i < |rows| ==> 0 < rows[i].updatedAt <= MAX_INT && rows[i].code != ""
  }

  lemma {:induction false} InsertElements(less: Collation, x: Row, s: seq<Row>)
    ensures multiset(Insert(less, x, s)) == multiset(s) + multiset{x}
  {
    if s != [] {
      InsertElements(less, x, s[1..]);
      assert s == [s[0]] + s[1..];
    }
  }

  /** Every row once: the listing is a permutation of the table. */
  lemma {:induction false} ListingElements(less: Collation, rows: seq<Row>)
    ensures multiset(Listing(less, rows)) == multiset(rows)
  {
    if rows != [] {
      ListingElements(less, rows[1..]);
      InsertElements(less, rows[0], Listing(less, rows[1..]));
      assert rows == [rows[0]] + rows[1..];
    }
  }

  lemma BelowTransitive(less: Collation, a: Row, b: Row, c: Cursor)
    requires Lawful(less) && Below(less, a, Key(b)) && Below(less, b, c)
    ensures Below(less, a, c)
  {
  }

  lemma BelowTotal(less: Collation, a: Row, b: Row)
    requires Lawful(less) && a.code != b.code
    ensures Below(less, a, Key(b)) || Below(less, b, Key(a))
  {
  }

  lemma InsertFirst(less: Collation, x: Row, s: seq<Row>)
    requires Lawful(less) && Descending(less, s) && s != [] && Below(less, s[0], Key(x))
    ensures Descending(less, [x] + s)
  {
    var t := [x] + s;
    forall i, j | 0 <= i < j < |t|
      ensures Below(less, t[j], Key(t[i]))
    {
      if i == 0 && j > 1 {
        assert Below(less, s[j - 1], Key(s[0]));
        BelowTransitive(less, s[j - 1], s[0], Key(x));
      }
    }
  }

  lemma PutFirst(less: Collation, h: Row, t: seq<Row>)
    requires Descending(less, t) && forall i :: 0 <= i < |t| ==> Below(less, t[i], Key(h))
    ensures Descending(less, [h] + t)
  {
    hide Below;
    var s := [h] + t;
    forall i, j | 0 <= i < j < |s|
      ensures Below(less, s[j], Key(s[i]))
    {
      assert s[j] == t[j - 1];
    }
  }

  lemma TailDescends(less: Collation, s: seq<Row>)
    requires Descending(less, s) && s != []
    ensures Descending(less, s[1..]) && forall i :: 0 <= i < |s[1..]| ==> Below(less, s[1..][i], Key(s[0]))
  {
    hide Below;
  }

  lemma {:induction false} InsertDescends(less: Collation, x: Row, s: seq<Row>)
    requires Lawful(less) && Descending(less, s) && forall i :: 0 <= i < |s| ==> s[i].code != x.code
    ensures Descending(less, Insert(less, x, s))
  {
    hide Below, Lawful, Descending;
    if s == [] {
      PutFirst(less, x, s) by { assert Descending(less, s); }
    } else if Below(less, s[0], Key(x)) {
      InsertFirst(less, x, s);
    } else {
      TailDescends(less, s);
      BelowTotal(less, x, s[0]);
      InsertDescends(less, x, s[1..]);
      InsertElements(less, x, s[1..]);
      var t := Insert(less, x, s[1..]);
      forall i | 0 <= i < |t|
        ensures Below(less, t[i], Key(s[0]))
      {
        assert t[i] in multiset(t);
        assert t[i] == x || t[i] in s[1..];
      }
      PutFirst(less, s[0], t);
    }
  }

  lemma {:induction false} ListingDescends(less: Collation, rows: seq<Row>)
    requires Lawful(less) && DistinctCodes(rows)
    ensures Descending(less, Listing(less, rows))
  {
    hide Lawful, Below;
    if rows != [] {
      ListingDescends(less, rows[1..]);
      ListingElements(less, rows[1..]);
      var s := Listing(less, rows[1..]);
      forall i | 0 <= i < |s|
        ensures s[i].code != rows[0].code
      {
        assert s[i] in multiset(rows[1..]);
      }
      InsertDescends(less, rows[0], s);
    }
  }

  /** Later updates come first, and of equal times the larger code. */
  ghost predicate NewestFirst(less: Collation, s: seq<Row>) {
    forall i, j :: 0 <= i < j < |s| ==>
      s[i].updatedAt > s[j].updatedAt || (s[i].updatedAt == s[j].updatedAt && less(s[j].code, s[i].code))
  }

  lemma ListingIsNewestFirst(less: Collation, rows: seq<Row>)
    requires Lawful(less) && DistinctCodes(rows)
    ensures NewestFirst(less, Listing(less, rows))
  {
    hide Listing, Lawful;
    ListingDescends(less, rows);
    var s := Listing(less, rows);
    forall i, j | 0 <= i < j < |s|
      ensures s[i].updatedAt > s[j].updatedAt || (s[i].updatedAt == s[j].updatedAt && less(s[j].code, s[i].code))
    {
      assert Below(less, s[j], Key(s[i]));
    }
  }

  // ---------------------------------------------------------------- the rows below a cursor

  /** In a descending sequence everything after a row below the cursor is below it too. */
  lemma {:induction false} AllBelow(less: Collation, s: seq<Row>, c: Cursor)
    requires forall i :: 0 <= i < |s| ==> Below(less, s[i], c)
    ensures RowsBelow(less, s, c) == s
  {
    hide Below;
    if s != [] {
      AllBelow(less, s[1..], c);
      assert s == [s[0]] + s[1..];
    }
  }

  lemma HeadBelow(less: Collation, s: seq<Row>, c: Cursor)
    requires Lawful(less) && Descending(less, s) && s != [] && Below(less, s[0], c)
    ensures RowsBelow(less, s, c) == s
  {
    forall i | 0 <= i < |s|
      ensures Below(less, s[i], c)
    {
      if i > 0 {
        BelowTransitive(less, s[i], s[0], c);
      }
    }
    hide Below, Lawful;
    AllBelow(less, s, c);
  }

  lemma BelowCons(less: Collation, h: Row, t: seq<Row>, c: Cursor)
    ensures RowsBelow(less, [h] + t, c) ==
            if Below(less, h, c) then [h] + RowsBelow(less, t, c) else RowsBelow(less, t, c)
  {
    assert ([h] + t)[1..] == t;
  }

  /** Filtering commutes with inserting, hence with listing. */
  lemma {:induction false} InsertBelow(less: Collation, x: Row, s: seq<Row>, c: Cursor)
    requires Lawful(less) && Descending(less, s)
    ensures RowsBelow(less, Insert(less, x, s), c) ==
            if Below(less, x, c) then Insert(less, x, RowsBelow(less, s, c)) else RowsBelow(less, s, c)
  {
    hide Below, Lawful, Descending, RowsBelow, Insert;
    if s == [] {
      BelowNone(less, x, c);
      BelowCons(less, x, [], c);
    } else {
      var h, t := s[0], s[1..];
      assert s == [h] + t;
      TailDescends(less, s);
      BelowCons(less, h, t, c);
      InsertCons(less, x, h, t);
      if Below(less, h, Key(x)) {
        BelowCons(less, x, s, c);
        if Below(less, x, c) {
          BelowTransitive(less, h, x, c);
          HeadBelow(less, s, c);
        }
      } else {
        InsertBelow(less, x, t, c);
        BelowCons(less, h, Insert(less, x, t), c);
        InsertCons(less, x, h, RowsBelow(less, t, c));
        if Below(less, h, c) {
          HeadBelow(less, s, c);
        }
      }
    }
  }

  lemma BelowNone(less: Collation, x: Row, c: Cursor)
    ensures RowsBelow(less, [], c) == [] && Insert(less, x, []) == [x] + []
  {
  }

  lemma InsertCons(less: Collation, x: Row, h: Row, t: seq<Row>)
    ensures Insert(less, x, [h] + t) == if Below(less, h, Key(x)) then [x] + ([h] + t) else [h] + Insert(less, x, t)
  {
    assert ([h] + t)[1..] == t;
  }

  lemma {:induction false} ListingBelow(less: Collation, rows: seq<Row>, c: Cursor)
    requires Lawful(less) && DistinctCodes(rows)
    ensures Listing(less, RowsBelow(less, rows, c)) == RowsBelow(less, Listing(less, rows), c)
  {
    hide Lawful, Below, Descending;
    if rows != [] {
      ListingBelow(less, rows[1..], c);
      ListingDescends(less, rows[1..]);
      InsertBelow(less, rows[0], Listing(less, rows[1..]), c);
      var rest := RowsBelow(less, rows[1..], c);
      if Below(less, rows[0], c) {
        assert RowsBelow(less, rows, c) == [rows[0]] + rest;
        assert ([rows[0]] + rest)[1..] == rest;
      } else {
        assert RowsBelow(less, rows, c) == rest;
      }
    }
  }

  lemma NotBelowItself(less: Collation, a: Row, b: Row)
    requires Lawful(less) && (a == b || Below(less, a, Key(b)))
    ensures !Below(less, b, Key(a))
  {
  }

  /** Below the k-th row of a descending sequence lies exactly what follows it. */
  lemma {:induction false} BelowIsSuffix(less: Collation, s: seq<Row>, k: nat)
    requires Lawful(less) && Descending(less, s) && k < |s|
    ensures RowsBelow(less, s, Key(s[k])) == s[k + 1..]
  {
    hide Below, Lawful;
    var c := Key(s[k]);
    if k == 0 {
      NotBelowItself(less, s[0], s[0]);
      TailDescends(less, s);
      AllBelow(less, s[1..], c);
    } else {
      NotBelowItself(less, s[k], s[0]) by { assert Below(less, s[k], Key(s[0])); }
      TailDescends(less, s);
      BelowIsSuffix(less, s[1..], k - 1);
      assert s[1..][k..] == s[k + 1..];
    }
  }

  // ---------------------------------------------------------------- following the cursors

  /** The page that shows `listing` from position `from` on. */
  function PageAt(listing: seq<Row>, from: nat, n: nat): (p: Page)
    requires from <= |listing| && n > 0
  {
    var end := if from + n < |listing| then from + n else |listing|;
    Page(listing[from..end], end < |listing|, if end < |listing| then PrintCursor(listing[end - 1]) else "")
  }

  lemma BuildIsPageAt(listing: seq<Row>, from: nat, n: nat)
    requires from <= |listing| && n > 0
    ensures BuildPage(Take(listing[from..], n + 1), n) == PageAt(listing, from, n)
  {
    hide PrintCursor;
    var rest := listing[from..];
    if |rest| > n {
      assert Take(rest, n + 1)[..n] == listing[from..from + n];
    }
  }

  lemma FirstPage(less: Collation, rows: seq<Row>, limit: int)
    ensures Load(less, rows, limit, "") == Some(PageAt(Listing(less, rows), 0, ClampLimit(limit)))
  {
    hide PrintCursor;
    BuildIsPageAt(Listing(less, rows), 0, ClampLimit(limit));
    assert Listing(less, rows)[0..] == Listing(less, rows);
  }

  lemma RowOfTable(less: Collation, rows: seq<Row>, k: nat)
    requires TableOk(rows) && k < |rows|
    ensures var r := Listing(less, rows)[k]; 0 < r.updatedAt <= MAX_INT && r.code != ""
  {
    ListingElements(less, rows);
    var r := Listing(less, rows)[k];
    assert r in multiset(Listing(less, rows));
    assert r in multiset(rows);
  }

  /** The cursor printed for the k-th row leads to the page that starts right after it. */
  lemma NextPage(less: Collation, rows: seq<Row>, limit: int, k: nat)
    requires Lawful(less) && TableOk(rows) && k < |rows|
    ensures Load(less, rows, limit, PrintCursor(Listing(less, rows)[k])) ==
            Some(PageAt(Listing(less, rows), k + 1, ClampLimit(limit)))
  {
    hide PrintCursor, ParseCursor, Lawful, TableOk, RowsBelow, Listing, Load, Take, BuildPage, PageAt, ClampLimit;
    var listing := Listing(less, rows);
    CursorOfRow(less, rows, k);
    LoadAt(less, rows, limit, PrintCursor(listing[k]), Key(listing[k]));
    RestOfListing(less, rows, k);
    BuildIsPageAt(listing, k + 1, ClampLimit(limit));
  }

  lemma CursorOfRow(less: Collation, rows: seq<Row>, k: nat)
    requires TableOk(rows) && k < |rows|
    ensures ParseCursor(PrintCursor(Listing(less, rows)[k])) == At(Key(Listing(less, rows)[k]))
  {
    hide PrintCursor, ParseCursor, Listing;
    RowOfTable(less, rows, k);
    CursorRoundTripIff(Listing(less, rows)[k]);
  }

  lemma LoadAt(less: Collation, rows: seq<Row>, limit: int, cursor: string, c: Cursor)
    requires ParseCursor(cursor) == At(c)
    ensures Load(less, rows, limit, cursor) ==
            Some(BuildPage(Take(Listing(less, RowsBelow(less, rows, c)), ClampLimit(limit) + 1), ClampLimit(limit)))
  {
    hide ParseCursor, Listing, RowsBelow, BuildPage, Take;
  }

  /** The rows below the k-th row of the listing, listed, are what follows it there. */
  lemma RestOfListing(less: Collation, rows: seq<Row>, k: nat)
    requires Lawful(less) && TableOk(rows) && k < |rows|
    ensures Listing(less, RowsBelow(less, rows, Key(Listing(less, rows)[k]))) == Listing(less, rows)[k + 1..]
  {
    hide Lawful, Descending, RowsBelow, Listing;
    ListingBelow(less, rows, Key(Listing(less, rows)[k]));
    ListingDescends(less, rows);
    BelowIsSuffix(less, Listing(less, rows), k);
  }

  /**
   Following NextCursor from the empty cursor until HasMore is false: it terminates, no cursor
   is refused, and the pages together are the whole table in listing order, each row once.
   */
  method FollowCursors(less: Collation, rows: seq<Row>, limit: int) returns (all: seq<Row>, pages: nat)
    requires Lawful(less) && TableOk(rows)
    ensures all == Listing(less, rows)
    ensures multiset(all) == multiset(rows) && NewestFirst(less, all)
    ensures (pages - 1) * ClampLimit(limit) <= |rows| <= pages * ClampLimit(limit)
  {
    hide PrintCursor, Lawful, Load, NewestFirst, Listing;
    ghost var listing := Listing(less, rows);
    ListingElements(less, rows);
    ListingIsNewestFirst(less, rows);
    FirstPage(less, rows, limit);
    var n := ClampLimit(limit);
    var page := Load(less, rows, limit, "").value;
    all, pages := page.lobbies, 1;
    while page.hasMore
      invariant |all| <= |listing| && all == listing[..|all|]
      invariant page.hasMore ==> 0 < |all| < |listing| && page.nextCursor == PrintCursor(listing[|all| - 1])
      invariant page.hasMore ==> |all| == pages * n
      invariant !page.hasMore ==> |all| == |listing|
      invariant pages >= 1 && (pages - 1) * n <= |all| <= pages * n
      decreases |listing| - |all|
    {
      NextPage(less, rows, limit, |all| - 1);
      OnePageMore(listing, |all|, n, pages);
      page := Load(less, rows, limit, page.nextCursor).value;
      all, pages := all + page.lobbies, pages + 1;
    }
  }

  lemma OnePageMore(listing: seq<Row>, from: nat, n: nat, pages: nat)
    requires from < |listing| && n > 0 && from == pages * n
    ensures var p := PageAt(listing, from, n);
            && 0 < |p.lobbies| && listing[..from] + p.lobbies == listing[..from + |p.lobbies|]
            && (p.hasMore ==> from + |p.lobbies| == (pages + 1) * n)
            && pages * n <= from + |p.lobbies| <= (pages + 1) * n
  {
    hide PrintCursor;
    assert (pages + 1) * n == pages * n + n;
  }

  /** LoadAllActiveLobbies: parse, query one row more than the limit, build the page. */
  method LoadAllActiveLobbies(less: Collation, rows: seq<Row>, limit: int, cursor: string) returns (p: Option<Page>)
    ensures p == Load(less, rows, limit, cursor)
  {
    hide PrintCursor, ParseCursor, Listing, RowsBelow;
    var n := ClampLimit(limit);
    var parsed := ParseCursor(cursor);
    if parsed.Malformed? {
      return None;
    }
    var lobbies := QueryLobbies(less, rows, if parsed.At? then Some(parsed.cursor) else None, n + 1);
    return Some(BuildPage(lobbies, n));
  }

  // ---------------------------------------------------------------- RestoreRooms

  predicate NoBars(code: string) {
    forall i :: 0 <= i < |code| ==> code[i] != '|'
  }

  /**
   The paging loop of RestoreRooms, which passes the last code of a full page as cursor. Over
   codes without a bar it visits the newest 100 rows and succeeds exactly when there are fewer.
   */
  method RestorePages(less: Collation, rows: seq<Row>) returns (ok: bool, visited: seq<Row>)
    requires Lawful(less) && TableOk(rows) && forall i :: 0 <= i < |rows| ==> NoBars(rows[i].code)
    ensures ok <==> |rows| < MAX_LIMIT
    ensures visited == Take(Listing(less, rows), MAX_LIMIT)
  {
    hide PrintCursor, Listing, Lawful, Below, RowsBelow, NoBars;
    var cursor := "";
    visited := [];
    ghost var listing := Listing(less, rows);
    while true
      invariant cursor == "" ==> visited == []
      invariant cursor != "" ==> Load(less, rows, MAX_LIMIT, cursor).None? && |rows| >= MAX_LIMIT
      invariant cursor != "" ==> visited == Take(listing, MAX_LIMIT)
      decreases cursor == ""
    {
      var page := Load(less, rows, MAX_LIMIT, cursor);
      if page.None? {
        FirstPage(less, rows, MAX_LIMIT);
        return false, visited;
      }
      FirstPage(less, rows, MAX_LIMIT);
      FullPage(less, rows);
      if |page.value.lobbies| == 0 {
        return true, visited;
      }
      visited := visited + page.value.lobbies;
      if |page.value.lobbies| < MAX_LIMIT {
        return true, visited;
      }
      cursor := page.value.lobbies[MAX_LIMIT - 1].code;
    }
  }

  /** The first page, and the fate of its last code when the page is full. */
  lemma FullPage(less: Collation, rows: seq<Row>)
    requires TableOk(rows) && forall i :: 0 <= i < |rows| ==> NoBars(rows[i].code)
    ensures PageAt(Listing(less, rows), 0, MAX_LIMIT).lobbies == Take(Listing(less, rows), MAX_LIMIT)
    ensures |rows| >= MAX_LIMIT ==>
              var code := Listing(less, rows)[MAX_LIMIT - 1].code;
              code != "" && Load(less, rows, MAX_LIMIT, code).None?
  {
    hide PrintCursor, Listing, RowsBelow, Below;
    if |rows| >= MAX_LIMIT {
      RowOfTable(less, rows, MAX_LIMIT - 1);
      ListingElements(less, rows);
      var r := Listing(less, rows)[MAX_LIMIT - 1];
      assert r in multiset(Listing(less, rows));
      assert r in multiset(rows);
      BareCodeIsMalformed(r.code);
    }
  }

  // ---------------------------------------------------------------- page sizes

  /** A first page shows as many rows as were asked for, 50 if none were, at most 100, and at most all. */
  lemma FirstPageSize(less: Collation, rows: seq<Row>, limit: int)
    ensures var p := Load(less, rows, limit, "");
            var wanted := if limit < 1 then 50 else if limit > 100 then 100 else limit;
            && p.Some?
            && |p.value.lobbies| == (if |rows| < wanted then |rows| else wanted)
            && (p.value.hasMore <==> |rows| > wanted)
  {
    hide PrintCursor, Listing;
    FirstPage(less, rows, limit);
  }
}
