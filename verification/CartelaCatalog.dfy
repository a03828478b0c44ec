/** Keyset paging over the cartela table, ordered by (number, id). */
module CartelaCatalog {
  import opened Common
  import opened CartelaPrefix

  datatype Row = Row(number: nat, id: string)

  datatype Page = Page(items: seq<Row>, nextCursor: Option<string>)

  datatype CatalogError = InvalidCursor

  const MAX_PAGE_LIMIT: nat := 1000

  predicate IdLess(a: string, b: string) {
    b != "" && (a == "" || a[0] < b[0] || (a[0] == b[0] && IdLess(a[1..], b[1..])))
  }

  predicate KeyLess(a: Row, b: Row) {
    a.number < b.number || (a.number == b.number && IdLess(a.id, b.id))
  }

  lemma {:induction false} IdLessIsAsymmetric(a: string, b: string)
    requires IdLess(a, b)
    ensures !IdLess(b, a)
  {
    if a != "" && a[0] == b[0] {
      IdLessIsAsymmetric(a[1..], b[1..]);
    }
  }

  /** The table as `ORDER BY number, id` lists it: ids are primary keys, so the order is strict. */
  ghost predicate Ordered(rows: seq<Row>) {
    && (forall i, j | 0 <= i < j < |rows| :: KeyLess(rows[i], rows[j]))
    && (forall i | 0 <= i < |rows| :: rows[i].id != "")
  }

  // ---- Cursor text (what base64url carries) ----

  function EncodeCursor(row: Row): string {
    Text(row.number) + ":" + row.id
  }

  function IndexOfColon(s: string): (i: int)
    ensures -1 <= i < |s|
    ensures forall j | 0 <= j < if i == -1 then |s| else i :: s[j] != ':'
    ensures i >= 0 ==> s[i] == ':'
  {
    if s == "" then -1
    else if s[0] == ':' then 0
    else
      var rest := IndexOfColon(s[1..]);
      if rest == -1 then -1 else rest + 1
  }

  function DecodeCursor(cursor: string): Option<Row> {
    var separator := IndexOfColon(cursor);
    if separator <= 0 then None
    else
      var number, id := cursor[..separator], cursor[separator + 1..];
      if !AllDigits(number) || id == "" then None else Some(Row(Value(number), id))
  }

  /** Decoding undoes encoding, whatever characters (a colon included) the id holds. */
  lemma {:induction false} DecodeUndoesEncode(row: Row)
    ensures DecodeCursor(EncodeCursor(row)) == if row.id == "" then None else Some(row)
  {
    var text := Text(row.number);
    var cursor := EncodeCursor(row);
    var i := IndexOfColon(cursor);
    assert cursor[|text|] == ':';
    assert forall j | 0 <= j < |text| :: cursor[j] == text[j] && IsDigit(text[j]);
    assert cursor[..i] == text && cursor[i + 1..] == row.id;
    ValueOfText(row.number);
  }

  // ---- Queries ----

  function Filter(rows: seq<Row>, keep: Row -> bool): seq<Row> {
    if rows == [] then []
    else (if keep(rows[0]) then [rows[0]] else []) + Filter(rows[1..], keep)
  }

  function First(rows: seq<Row>, count: nat): seq<Row> {
    if |rows| <= count then rows else rows[..count]
  }

  /** `number::text LIKE prefix%` */
  function Matching(rows: seq<Row>, prefix: Option<string>): seq<Row> {
    match prefix
    case None => rows
    case Some(text) => Filter(rows, (row: Row) => text <= Text(row.number))
  }

  function After(rows: seq<Row>, key: Row): seq<Row> {
    Filter(rows, (row: Row) => KeyLess(key, row))
  }

  function SanitizeSearchPrefix(search: Option<string>): Option<string> {
    if search.None? then None
    else
      var trimmed := Trim(search.value);
      if AllDigits(trimmed) && |trimmed| <= MAX_CARTELA_DIGITS then Some(trimmed) else None
  }

  function QueryPagedRows(rows: seq<Row>, limit: nat, prefix: Option<string>, cursor: Option<string>)
    : Result<(seq<Row>, bool), CatalogError>
  {
    var matching := Matching(rows, prefix);
    if cursor.Some? && DecodeCursor(cursor.value).None? then Failure(InvalidCursor)
    else
      var candidates := if cursor.None? then matching else After(matching, DecodeCursor(cursor.value).value);
      var fetched := First(candidates, limit + 1);
      // Only the prefix-filtered query drops the extra row again.
      Success((if prefix.Some? then First(fetched, limit) else fetched, |fetched| > limit))
  }

  function PageLimit(requested: Option<nat>): nat {
    if requested.None? || requested.value > MAX_PAGE_LIMIT then MAX_PAGE_LIMIT else requested.value
  }

  /** A search text that is not blank and not a usable prefix finds nothing. */
  predicate Searchable(search: Option<string>) {
    search.None? || Trim(search.value) == "" || SanitizeSearchPrefix(search).Some?
  }

  function ToPage(items: seq<Row>, hasMore: bool): Page {
    Page(items, if hasMore && items != [] then Some(EncodeCursor(items[|items| - 1])) else None)
  }

  function CatalogPage(rows: seq<Row>, requested: Option<nat>, search: Option<string>, cursor: Option<string>)
    : Result<Page, CatalogError>
  {
    if !Searchable(search) then Success(Page([], None))
    else
      match QueryPagedRows(rows, PageLimit(requested), SanitizeSearchPrefix(search), cursor)
      case Failure(error) => Failure(error)
      case Success((items, hasMore)) => Success(ToPage(items, hasMore))
  }

  // ---- Completeness ----

  lemma {:induction false} FilterAll(rows: seq<Row>, keep: Row -> bool)
    requires forall i | 0 <= i < |rows| :: keep(rows[i])
    ensures Filter(rows, keep) == rows
  {
    if rows != [] {
      FilterAll(rows[1..], keep);
    }
  }

  /** Filtering keeps the order, and keeps nothing that was not there. */
  lemma {:induction false} FilterIsOrdered(rows: seq<Row>, keep: Row -> bool)
    requires Ordered(rows)
    ensures Ordered(Filter(rows, keep))
    ensures forall row | row in Filter(rows, keep) :: row in rows
  {
    if rows != [] {
      FilterIsOrdered(rows[1..], keep);
      var rest := Filter(rows[1..], keep);
      forall i | 0 <= i < |rest|
        ensures KeyLess(rows[0], rest[i])
      {
        assert rest[i] in rows[1..];
      }
    }
  }

  /** The rows past a row of an ordered listing are exactly the rest of the listing. */
  lemma {:induction false} AfterIsRest(rows: seq<Row>, k: nat)
    requires Ordered(rows) && k < |rows|
    ensures After(rows, rows[k]) == rows[k + 1..]
  {
    AfterFrom(rows, rows[k], 0, k);
  }

  lemma {:induction false} AfterFrom(rows: seq<Row>, key: Row, i: nat, k: nat)
    requires Ordered(rows) && i <= k < |rows| && key == rows[k]
    ensures After(rows[i..], key) == rows[k + 1..]
    decreases k - i
  {
    var keep := (row: Row) => KeyLess(key, row);
    assert !KeyLess(key, rows[i]) by {
      if KeyLess(key, rows[i]) {
        if rows[i].id == key.id {
          IdLessIsAsymmetric(key.id, key.id);
        }
        IdLessIsAsymmetric(key.id, rows[i].id);
        assert false;
      }
    }
    assert rows[i..][1..] == rows[i + 1..];
    if i == k {
      FilterAll(rows[k + 1..], keep);
    } else {
      AfterFrom(rows, key, i + 1, k);
    }
  }

  function CursorAt(matching: seq<Row>, done: nat): Option<string>
    requires done <= |matching|
  {
    if done == 0 then None else Some(EncodeCursor(matching[done - 1]))
  }

  lemma {:induction false} MatchingIsOrdered(rows: seq<Row>, prefix: Option<string>)
    requires Ordered(rows)
    ensures Ordered(Matching(rows, prefix))
  {
    if prefix.Some? {
      FilterIsOrdered(rows, (row: Row) => prefix.value <= Text(row.number));
    }
  }

  /** The rows a page takes off the front of what is left. */
  function Served(rest: seq<Row>, limit: nat, searching: bool): (served: seq<Row>)
    ensures |served| <= |rest| && served == rest[..|served|]
  {
    First(rest, if searching then limit else limit + 1)
  }

  /** A query from the cursor of row `done` serves the rows from there on. */
  lemma {:induction false} QueryIsNextBlock(rows: seq<Row>, limit: nat, prefix: Option<string>, done: nat)
    requires Ordered(rows) && done <= |Matching(rows, prefix)|
    ensures var matching := Matching(rows, prefix);
      QueryPagedRows(rows, limit, prefix, CursorAt(matching, done))
      == Success((Served(matching[done..], limit, prefix.Some?), |matching| - done > limit))
  {
    var rest := Matching(rows, prefix)[done..];
    MatchingIsOrdered(rows, prefix);
    if done > 0 {
      DecodeUndoesEncode(Matching(rows, prefix)[done - 1]);
      AfterIsRest(Matching(rows, prefix), done - 1);
    }
    assert First(First(rest, limit + 1), limit) == First(rest, limit);
  }

  /** What a page answers, seen from the listing it pages through: the rows from `done` to `stop`,
      with a cursor exactly when more than `limit` rows were left. Without a search that cursor can
      stand at the very end (limit + 1 rows were left and all were returned); with one, never. */
  lemma {:induction false} PageIsNextBlock(rows: seq<Row>, requested: Option<nat>, search: Option<string>,
                                           done: nat)
    returns (stop: nat)
    requires Ordered(rows) && (requested.Some? ==> requested.value > 0) && Searchable(search)
    requires done <= |Matching(rows, SanitizeSearchPrefix(search))|
    ensures var matching := Matching(rows, SanitizeSearchPrefix(search));
      var more := |matching| - done > PageLimit(requested);
      && done <= stop <= |matching|
      && (if more then done < stop else stop == |matching|)
      && (more && SanitizeSearchPrefix(search).Some? ==> stop < |matching|)
      && CatalogPage(rows, requested, search, CursorAt(matching, done))
         == Success(Page(matching[done..stop], if more then CursorAt(matching, stop) else None))
  {
    var prefix := SanitizeSearchPrefix(search);
    var limit := PageLimit(requested);
    QueryIsNextBlock(rows, limit, prefix, done);
    stop := BlockPage(Matching(rows, prefix), limit, prefix.Some?, done);
  }

  lemma {:induction false} BlockPage(matching: seq<Row>, limit: nat, searching: bool, done: nat)
    returns (stop: nat)
    requires done <= |matching| && limit > 0
    ensures var more := |matching| - done > limit;
      && done <= stop <= |matching|
      && (if more then done < stop else stop == |matching|)
      && (more && searching ==> stop < |matching|)
      && ToPage(Served(matching[done..], limit, searching), more)
         == Page(matching[done..stop], if more then CursorAt(matching, stop) else None)
  {
    var served := Served(matching[done..], limit, searching);
    stop := done + |served|;
    assert served == matching[done..stop];
    assert served != [] ==> served[|served| - 1] == matching[stop - 1];
  }

  method FetchPage(rows: seq<Row>, requested: Option<nat>, search: Option<string>, cursor: Option<string>,
                   ghost done: nat)
    returns (page: Page, ghost stop: nat)
    requires Ordered(rows) && (requested.Some? ==> requested.value > 0) && Searchable(search)
    requires done <= |Matching(rows, SanitizeSearchPrefix(search))|
    requires cursor == CursorAt(Matching(rows, SanitizeSearchPrefix(search)), done)
    ensures var matching := Matching(rows, SanitizeSearchPrefix(search));
      && done <= stop <= |matching|
      && page.items == matching[done..stop]
      && (page.nextCursor.Some? ==> done < stop && page.nextCursor == CursorAt(matching, stop))
      && (page.nextCursor.None? ==> stop == |matching|)
  {
    stop := PageIsNextBlock(rows, requested, search, done);
    page := CatalogPage(rows, requested, search, cursor).value;
  }

  /** A client that follows `nextCursor` until it is null: it stops, and has then read exactly the
      matching rows in order. */
  method FollowPages(rows: seq<Row>, requested: Option<nat>, search: Option<string>) returns (all: seq<Row>)
    requires Ordered(rows) && (requested.Some? ==> requested.value > 0)
    requires Searchable(search)
    ensures all == Matching(rows, SanitizeSearchPrefix(search))
  {
    ghost var matching := Matching(rows, SanitizeSearchPrefix(search));
    all := [];
    var cursor: Option<string> := None;
    var more := true;
    while more
      invariant |all| <= |matching| && all == matching[..|all|]
      invariant more ==> cursor == CursorAt(matching, |all|)
      invariant !more ==> all == matching
      decreases more, |matching| - |all|
    {
      ghost var done := |all|;
      var page, stop := FetchPage(rows, requested, search, cursor, done);
      all := all + page.items;
      cursor := page.nextCursor;
      more := cursor.Some?;
      assert all == matching[..stop];
    }
  }

  /** A page with rows left over holds `limit` rows when searching, one more when not. */
  lemma {:induction false} FullPageSize(rows: seq<Row>, limit: nat, prefix: Option<string>)
    requires 0 < limit <= MAX_PAGE_LIMIT && |Matching(rows, prefix)| > limit
    ensures var page := QueryPagedRows(rows, limit, prefix, None);
      page.Success? && page.value.1 && |page.value.0| == if prefix.Some? then limit else limit + 1
  {
    assert |First(Matching(rows, prefix), limit + 1)| == limit + 1;
  }
}
