/**
  Paginated listings (internal/monitor/repository.go, internal/monitor/service.go and
  internal/handler/target.go): monitors of a user by creation time, check logs of a monitor by check
  time, newest first, ties broken by id.
 */
module Pages {
  import opened Common

  /** A listed row: its time, its key, and the user or monitor it belongs to. */
  datatype Row = Row(at: Time, id: Id, owner: Id)

  datatype Filter = Filter(owner: Id, from: Option<Time>, to: Option<Time>)

  predicate Selects(f: Filter, r: Row) {
    && r.owner == f.owner
    && (f.from.Some? ==> r.at >= f.from.value)
    && (f.to.Some? ==> r.at <= f.to.value)
  }

  // ---------------------------------------------------------------------------------------------
  // The ordered listing
  // ---------------------------------------------------------------------------------------------

  /** `order by at desc, id desc`. */
  predicate Before(a: Row, b: Row) {
    a.at > b.at || (a.at == b.at && a.id > b.id)
  }

  function Insert(r: Row, listing: seq<Row>): seq<Row> {
    if listing == [] || Before(r, listing[0]) then [r] + listing
    else [listing[0]] + Insert(r, listing[1..])
  }

  /** The selected rows of a table, in order. */
  function Listing(table: seq<Row>, f: Filter): seq<Row> {
    if table == [] then []
    else
      var rest := Listing(table[1..], f);
      if Selects(f, table[0]) then Insert(table[0], rest) else rest
  }

  function Selected(table: seq<Row>, f: Filter): seq<Row> {
    if table == [] then []
    else (if Selects(f, table[0]) then [table[0]] else []) + Selected(table[1..], f)
  }

  ghost predicate Ordered(rows: seq<Row>) {
    forall i, j :: 0 <= i < j < |rows| ==> Before(rows[i], rows[j])
  }

  ghost predicate DistinctIds(rows: seq<Row>) {
    forall i, j :: 0 <= i < j < |rows| ==> rows[i].id != rows[j].id
  }

  lemma {:induction false} InsertAdds(r: Row, listing: seq<Row>)
    ensures multiset(Insert(r, listing)) == multiset(listing) + multiset{r}
    ensures forall s :: s in Insert(r, listing) <==> s == r || s in listing
  {
    if listing != [] && !Before(r, listing[0]) {
      InsertAdds(r, listing[1..]);
      assert listing == [listing[0]] + listing[1..];
    }
  }

  lemma OrderedCons(first: Row, rest: seq<Row>)
    requires Ordered(rest) && forall s :: s in rest ==> Before(first, s)
    ensures Ordered([first] + rest)
  {
  }

  lemma {:induction false} InsertOrders(r: Row, listing: seq<Row>)
    requires Ordered(listing) && forall s :: s in listing ==> s.id != r.id
    ensures Ordered(Insert(r, listing))
  {
    if listing == [] {
    } else if Before(r, listing[0]) {
      forall s | s in listing ensures Before(r, s) {
        var i :| 0 <= i < |listing| && listing[i] == s;
        assert i > 0 ==> Before(listing[0], listing[i]);
      }
      OrderedCons(r, listing);
    } else {
      var rest := listing[1..];
      InsertOrders(r, rest);
      InsertAdds(r, rest);
      assert listing[0] in listing;
      forall s | s in rest ensures Before(listing[0], s) {
        var i :| 0 <= i < |rest| && rest[i] == s;
        assert listing[i + 1] == s;
      }
      OrderedCons(listing[0], Insert(r, rest));
    }
  }

  /** The listing holds exactly the selected rows, each once, strictly in order. */
  lemma {:induction false} ListingIsOrderedSelection(table: seq<Row>, f: Filter)
    requires DistinctIds(table)
    ensures Ordered(Listing(table, f))
    ensures multiset(Listing(table, f)) == multiset(Selected(table, f))
    ensures forall r :: r in Listing(table, f) <==> r in table && Selects(f, r)
  {
    if table != [] {
      ListingIsOrderedSelection(table[1..], f);
      assert table == [table[0]] + table[1..];
      assert forall s :: s in table[1..] ==> s.id != table[0].id;
      if Selects(f, table[0]) {
        InsertOrders(table[0], Listing(table[1..], f));
        InsertAdds(table[0], Listing(table[1..], f));
      } else {
        assert Selected(table, f) == Selected(table[1..], f);
      }
    }
  }

  // ---------------------------------------------------------------------------------------------
  // Pages
  // ---------------------------------------------------------------------------------------------

  function Min(a: int, b: int): int {
    if a <= b then a else b
  }

  /** `limit pageSize offset offset`. */
  function Slice(listing: seq<Row>, offset: nat, pageSize: nat): seq<Row> {
    listing[Min(offset, |listing|)..Min(offset + pageSize, |listing|)]
  }

  function Offset(page: nat, pageSize: nat): nat
    requires page >= 1
  {
    (page - 1) * pageSize
  }

  /** What page number `page` should hold. */
  function TruePage(listing: seq<Row>, page: nat, pageSize: nat): seq<Row>
    requires page >= 1
  {
    Slice(listing, Offset(page, pageSize), pageSize)
  }

  /** The query at an offset whose exact value is `exact`. */
  function ServeAt(listing: seq<Row>, exact: nat, pageSize: nat): Result<seq<Row>, string> {
    var offset := WrapInt64(exact);
    if offset < 0 then Err("OFFSET must not be negative") else Ok(Slice(listing, offset, pageSize))
  }

  /** What the query returns: the offset is a Go `int`, and Postgres refuses a negative one. */
  function ServePage(listing: seq<Row>, page: nat, pageSize: nat): Result<seq<Row>, string>
    requires page >= 1
  {
    ServeAt(listing, Offset(page, pageSize), pageSize)
  }

  function Concat(listing: seq<Row>, pageSize: nat, pages: nat): seq<Row> {
    if pages == 0 then [] else Concat(listing, pageSize, pages - 1) + TruePage(listing, pages, pageSize)
  }

  lemma {:induction false} ConcatIsPrefix(listing: seq<Row>, pageSize: nat, pages: nat)
    ensures pages * pageSize >= 0
    ensures Concat(listing, pageSize, pages) == listing[..Min(pages * pageSize, |listing|)]
  {
    if pages > 0 {
      ConcatIsPrefix(listing, pageSize, pages - 1);
      assert pages * pageSize == (pages - 1) * pageSize + pageSize;
    }
  }

  /** The number of pages a client computes from the reported total. */
  function PageCount(total: nat, pageSize: nat): nat
    requires pageSize > 0
  {
    (total + pageSize - 1) / pageSize
  }

  lemma PageCountCovers(total: nat, pageSize: nat)
    requires pageSize > 0
    ensures PageCount(total, pageSize) * pageSize >= total
    ensures (PageCount(total, pageSize) - 1) * pageSize < total || total == 0
  {
    var n := PageCount(total, pageSize);
    assert total + pageSize - 1 == n * pageSize + (total + pageSize - 1) % pageSize;
    assert (n - 1) * pageSize == n * pageSize - pageSize;
  }

  lemma LaterPageStartsPastEnd(total: nat, pageSize: nat, page: nat)
    requires pageSize > 0 && page > PageCount(total, pageSize)
    ensures page >= 1 && (page - 1) * pageSize >= total
  {
    PageCountCovers(total, pageSize);
    TimesMonotone(PageCount(total, pageSize), page - 1, pageSize);
  }

  lemma SliceAtEnd(listing: seq<Row>, offset: nat, pageSize: nat)
    requires offset >= |listing|
    ensures Slice(listing, offset, pageSize) == []
  {
  }

  lemma PrefixIsWhole(listing: seq<Row>, n: nat)
    requires n >= |listing|
    ensures listing[..Min(n, |listing|)] == listing
  {
  }

  /** The true pages of a listing, put together, are the listing; later pages are empty. */
  lemma TruePagesPartition(listing: seq<Row>, pageSize: nat, page: nat)
    requires pageSize > 0
    ensures Concat(listing, pageSize, PageCount(|listing|, pageSize)) == listing
    ensures page > PageCount(|listing|, pageSize) ==> TruePage(listing, page, pageSize) == []
  {
    var n := PageCount(|listing|, pageSize);
    ConcatIsPrefix(listing, pageSize, n);
    PageCountCovers(|listing|, pageSize);
    PrefixIsWhole(listing, n * pageSize);
    if page > n {
      LaterPageStartsPastEnd(|listing|, pageSize, page);
      SliceAtEnd(listing, Offset(page, pageSize), pageSize);
    }
  }

  lemma ServedSliceIsTrueIff(listing: seq<Row>, exact: nat, pageSize: nat)
    requires pageSize >= 1 && |listing| <= MAX_INT64
    ensures ServeAt(listing, exact, pageSize) == Ok(Slice(listing, exact, pageSize)) <==>
              exact <= MAX_INT64 || WrapInt64(exact) >= |listing|
  {
    var w := WrapInt64(exact);
    if exact > MAX_INT64 {
      assert Slice(listing, exact, pageSize) == [];
      if 0 <= w < |listing| {
        assert Slice(listing, w, pageSize)[0] == listing[w];
      }
    }
  }

  /**
    The page served is the true one exactly when the offset fits the machine integer, or wraps to an
    offset past the end. All other page numbers beyond that bound are errors or repeat earlier rows.
   */
  lemma ServedPageIsTrueIff(listing: seq<Row>, page: nat, pageSize: nat)
    requires page >= 1 && pageSize >= 1 && |listing| <= MAX_INT64
    ensures ServePage(listing, page, pageSize) == Ok(TruePage(listing, page, pageSize)) <==>
              Offset(page, pageSize) <= MAX_INT64 || WrapInt64(Offset(page, pageSize)) >= |listing|
  {
    ServedSliceIsTrueIff(listing, Offset(page, pageSize), pageSize);
  }

  lemma PageStartsBeforeEnd(total: nat, pageSize: nat, page: nat)
    requires pageSize > 0 && 1 <= page <= PageCount(total, pageSize)
    ensures Offset(page, pageSize) <= total
  {
    PageCountCovers(total, pageSize);
    TimesMonotone(page - 1, PageCount(total, pageSize) - 1, pageSize);
  }

  /** What the query returns for pages 1 to `pages`, put together, or its first failure. */
  function Browse(listing: seq<Row>, pageSize: nat, pages: nat): Result<seq<Row>, string> {
    if pages == 0 then Ok([])
    else
      match (Browse(listing, pageSize, pages - 1), ServePage(listing, pages, pageSize))
      case (Ok(earlier), Ok(rows)) => Ok(earlier + rows)
      case (Err(e), _) => Err(e)
      case (_, Err(e)) => Err(e)
  }

  lemma {:induction false} BrowseIsConcat(listing: seq<Row>, pageSize: nat, pages: nat)
    requires pageSize >= 1 && |listing| <= MAX_INT64 && pages <= PageCount(|listing|, pageSize)
    ensures Browse(listing, pageSize, pages) == Ok(Concat(listing, pageSize, pages))
  {
    if pages > 0 {
      BrowseIsConcat(listing, pageSize, pages - 1);
      PageStartsBeforeEnd(|listing|, pageSize, pages);
      ServedPageIsTrueIff(listing, pages, pageSize);
    }
  }

  /**
    The pages that are served, put together, are the listing of the table: every selected row on exactly one
    page, newest first and then by greater id. Later pages whose offset fits the machine integer are served empty.
   */
  lemma PagesPartition(table: seq<Row>, f: Filter, pageSize: nat, page: nat)
    requires DistinctIds(table) && pageSize >= 1 && |Listing(table, f)| <= MAX_INT64
    ensures
      var listing := Listing(table, f);
      && Browse(listing, pageSize, PageCount(|listing|, pageSize)) == Ok(listing)
      && (forall i, j :: 0 <= i < j < |listing| ==>
            listing[i].at > listing[j].at || (listing[i].at == listing[j].at && listing[i].id > listing[j].id))
      && (forall r :: r in listing <==>
            && r in table && r.owner == f.owner
            && (f.from.Some? ==> f.from.value <= r.at) && (f.to.Some? ==> r.at <= f.to.value))
      && (page > PageCount(|listing|, pageSize) && Offset(page, pageSize) <= MAX_INT64 ==>
            ServePage(listing, page, pageSize) == Ok([]))
  {
    var listing := Listing(table, f);
    ListingIsOrderedSelection(table, f);
    TruePagesPartition(listing, pageSize, page);
    BrowseIsConcat(listing, pageSize, PageCount(|listing|, pageSize));
    if page >= 1 {
      ServedPageIsTrueIff(listing, page, pageSize);
    }
  }

  /** A page number the handler accepts, far past the end, that shows the first page again. */
  lemma HugePageRepeatsFirst(listing: seq<Row>)
    ensures 288230376151711745 <= MAX_INT64
    ensures ServePage(listing, 288230376151711745, 64) == Ok(TruePage(listing, 1, 64))
  {
    assert (288230376151711745 - 1) * 64 == TWO_64;
    assert WrapInt64(TWO_64) == 0;
  }

  // ---------------------------------------------------------------------------------------------
  // Query parameters
  // ---------------------------------------------------------------------------------------------

  /** A query parameter as `strconv.Atoi` sees it. */
  datatype Query = Absent | NotANumber | Number(n: int)

  datatype IntError = InvalidInteger | OutOfRange

  const DEFAULT_PAGE: int := 1
  const DEFAULT_PAGE_SIZE: int := 20
  const MAX_PAGE_SIZE: int := 100

  function ParsePositiveInt(q: Query, default: int): Result<int, IntError> {
    match q
    case Absent => Ok(default)
    case NotANumber => Err(InvalidInteger)
    case Number(n) => if n < 1 then Err(OutOfRange) else Ok(n)
  }

  const POSITIVE: string := "must be a positive integer"
  const BOUNDED: string := "must be between 1 and 100"

  predicate GoodPage(page: Query) {
    page.Absent? || (page.Number? && page.n >= 1)
  }

  predicate GoodPageSize(pageSize: Query) {
    pageSize.Absent? || (pageSize.Number? && 1 <= pageSize.n <= 100)
  }

  /**
    The page and page size, or the messages for the fields that are wrong. A page size above the maximum
    is reported only when the page is good: it is checked last.
   */
  method ParsePagination(page: Query, pageSize: Query) returns (r: Result<(int, int), map<string, string>>)
    ensures r.Ok? <==> GoodPage(page) && GoodPageSize(pageSize)
    ensures r.Ok? ==>
              && r.value.0 == (if page.Absent? then 1 else page.n) >= 1
              && r.value.1 == (if pageSize.Absent? then 20 else pageSize.n)
              && 1 <= r.value.1 <= 100
    ensures r.Err? ==>
              && r.error.Keys <= {"page", "page_size"}
              && ("page" in r.error <==> !GoodPage(page))
              && ("page" in r.error ==> r.error["page"] == POSITIVE)
              && ("page_size" in r.error <==>
                    !GoodPageSize(pageSize) && (GoodPage(page) || pageSize.NotANumber? || pageSize.n < 1))
              && ("page_size" in r.error ==>
                    r.error["page_size"] == if pageSize.NotANumber? then POSITIVE else BOUNDED)
  {
    var p := ParsePositiveInt(page, DEFAULT_PAGE);
    var size := ParsePositiveInt(pageSize, DEFAULT_PAGE_SIZE);
    var fields: map<string, string> := map[];
    if p.Err? {
      fields := fields["page" := "must be a positive integer"];
    }
    if size == Err(InvalidInteger) {
      fields := fields["page_size" := "must be a positive integer"];
    } else if size == Err(OutOfRange) {
      fields := fields["page_size" := "must be between 1 and 100"];
    }
    assert p.Err? ==> "page" in fields;
    assert size.Err? ==> "page_size" in fields;
    if fields != map[] {
      return Err(fields);
    }
    if size.value > MAX_PAGE_SIZE {
      return Err(map["page_size" := "must be between 1 and 100"]);
    }
    return Ok((p.value, size.value));
  }
}
