/** The pagination value objects of the domain layer: sort options,
    offset pagination (PageRequest, PageResult), cursor pagination
    (CursorRequest, CursorResult) and the cursor codec. Every value is
    immutable; "changing" one builds a new value. Go's `int` and `int64` are
    64-bit (GoInt.Int64); strings that meet the cursor codec are byte
    sequences. */
module Pagination {
  import opened Wrappers
  import opened GoInt
  import Base64Url

  type Byte = Base64Url.Byte
  type Bytes = seq<Byte>

  datatype PaginationError = InvalidPage | InvalidPageSize | InvalidCursor

  const DefaultPage: Int64 := 1
  const DefaultPageSize: Int64 := 20
  const MaxPageSize: Int64 := 1000

  // =======================================================================
  // Sort options
  // =======================================================================

  const SortAsc: string := "asc"
  const SortDesc: string := "desc"

  datatype SortOption = SortOption(field: string, direction: string) {
    predicate IsAscending() {
      direction == SortAsc
    }
  }

  /** Any direction other than "asc" or "desc" becomes "asc"; never an error. */
  function NewSortOption(field: string, direction: string): (o: SortOption)
    ensures o.field == field
    ensures o.direction == SortAsc || o.direction == SortDesc
    ensures direction == SortAsc || direction == SortDesc ==> o.direction == direction
    ensures o.IsAscending() <==> direction != SortDesc
  {
    var d := if direction != SortAsc && direction != SortDesc then SortAsc else direction;
    SortOption(field, d)
  }

  // =======================================================================
  // Offset pagination
  // =======================================================================

  /** True when `page` is a size-`size` page count for `total` items: that many
      pages hold them all and one page fewer does not (ceil(total / size)). */
  ghost predicate IsPageCount(pages: int, total: int, size: int) {
    pages >= 0 && total <= pages * size && (pages - 1) * size < total
  }

  /** The page-size rule shared by both request kinds. */
  predicate PageSizeInRange(pageSize: int) {
    1 <= pageSize <= MaxPageSize
  }

  datatype PageRequest = PageRequest(page: Int64, pageSize: Int64, sort: seq<SortOption>) {

    predicate Valid() {
      page >= 1 && PageSizeInRange(pageSize)
    }

    /** A new request with exactly `options` as its sort list: it replaces
        the old list rather than appending to it. */
    function WithSort(options: seq<SortOption>): (r: PageRequest)
      ensures r.page == page && r.pageSize == pageSize && r.sort == options
      ensures Valid() ==> r.Valid()
    {
      PageRequest(page, pageSize, options)
    }

    /** `(page - 1) * pageSize` as Go computes it, in a 64-bit int. */
    function OffsetAsWritten(): Int64 {
      Wrap64((page - 1) * pageSize)
    }

    /** The number of rows on the pages before this one, computed without
        overflow: never negative and short of this page's last row. */
    function Offset(): (n: int)
      ensures Valid() ==> 0 <= n && n + pageSize == page * pageSize
    {
      var n := (page - 1) * pageSize;
      assert n + pageSize == page * pageSize;
      assert Valid() ==> 0 <= n by {
        if Valid() { MulMonotone(0, page - 1, pageSize); }
      }
      n
    }

    function Limit(): (n: Int64)
      ensures Valid() ==> 1 <= n <= MaxPageSize
    {
      pageSize
    }
  }

  /** Checks the page first, so a bad page wins over a bad page size. */
  function NewPageRequest(page: Int64, pageSize: Int64): (r: Result<PageRequest, PaginationError>)
    ensures r.Ok? <==> page >= 1 && PageSizeInRange(pageSize)
    ensures page < 1 ==> r == Err(InvalidPage)
    ensures page >= 1 && !PageSizeInRange(pageSize) ==> r == Err(InvalidPageSize)
    ensures r.Ok? ==> r.value.Valid() && r.value == PageRequest(page, pageSize, [])
  {
    if page < 1 then Err(InvalidPage)
    else if pageSize < 1 || pageSize > MaxPageSize then Err(InvalidPageSize)
    else Ok(PageRequest(page, pageSize, []))
  }

  function NewPageRequestWithDefaults(): (r: PageRequest)
    ensures r.Valid() && r.page == DefaultPage && r.pageSize == DefaultPageSize && r.sort == []
    ensures NewPageRequest(DefaultPage, DefaultPageSize) == Ok(r)
  {
    PageRequest(DefaultPage, DefaultPageSize, [])
  }

  datatype PageResult<T> = PageResult(items: seq<T>, page: Int64, pageSize: Int64,
                                      totalItems: Int64, totalPages: Int64) {
    predicate HasNext() {
      page < totalPages
    }

    predicate HasPrev() {
      page > 1
    }

    predicate IsEmpty() {
      |items| == 0
    }
  }

  /** Go's integer division and remainder, rounded up when the remainder is
      positive. A page size of zero would make Go panic; callers pass the page
      size of a validated request. A negative total is never rounded up,
      because Go's remainder then is not positive. */
  function NewPageResult<T>(items: seq<T>, page: Int64, pageSize: Int64, totalItems: Int64): (r: PageResult<T>)
    requires pageSize >= 1
    ensures r.items == items && r.page == page && r.pageSize == pageSize && r.totalItems == totalItems
    ensures totalItems >= 0 ==> IsPageCount(r.totalPages, totalItems, pageSize)
    ensures totalItems >= 0 ==> (r.totalPages == 0 <==> totalItems == 0)
    ensures totalItems < 0 ==> r.totalPages <= 0 && r.totalPages * pageSize >= totalItems
  {
    var q := Quo(totalItems, pageSize);
    var totalPages := if Rem(totalItems, pageSize) > 0 then q + 1 else q;
    assert totalPages <= MaxInt64 by {
      if Rem(totalItems, pageSize) > 0 {
        assert pageSize >= 2;
        assert q * 2 <= q * pageSize <= totalItems;
      }
    }
    PageResult(items, page, pageSize, totalItems, totalPages)
  }

  function EmptyPageResult<T>(): (r: PageResult<T>)
    ensures r.IsEmpty() && !r.HasNext() && !r.HasPrev()
    ensures r.page == DefaultPage && r.pageSize == DefaultPageSize
    ensures r.totalItems == 0 && r.totalPages == 0
  {
    PageResult([], 1, DefaultPageSize, 0, 0)
  }

  // =======================================================================
  // Cursor pagination
  // =======================================================================

  datatype CursorRequest = CursorRequest(cursor: Bytes, pageSize: Int64, sort: seq<SortOption>) {

    predicate Valid() {
      PageSizeInRange(pageSize)
    }

    function WithSort(options: seq<SortOption>): (r: CursorRequest)
      ensures r.cursor == cursor && r.pageSize == pageSize && r.sort == options
      ensures Valid() ==> r.Valid()
    {
      CursorRequest(cursor, pageSize, options)
    }

    function Limit(): (n: Int64)
      ensures Valid() ==> 1 <= n <= MaxPageSize
    {
      pageSize
    }

    predicate HasCursor() {
      cursor != []
    }
  }

  /** Only the page size is checked; the cursor is kept as given, unread. */
  function NewCursorRequest(cursor: Bytes, pageSize: Int64): (r: Result<CursorRequest, PaginationError>)
    ensures r.Ok? <==> PageSizeInRange(pageSize)
    ensures r.Err? ==> r.error == InvalidPageSize
    ensures r.Ok? ==> r.value.Valid() && r.value == CursorRequest(cursor, pageSize, [])
    ensures r.Ok? ==> (r.value.HasCursor() <==> cursor != [])
  {
    if pageSize < 1 || pageSize > MaxPageSize then Err(InvalidPageSize)
    else Ok(CursorRequest(cursor, pageSize, []))
  }

  function NewCursorRequestWithDefaults(): (r: CursorRequest)
    ensures r.Valid() && !r.HasCursor() && r.pageSize == DefaultPageSize && r.sort == []
    ensures NewCursorRequest([], DefaultPageSize) == Ok(r)
  {
    CursorRequest([], DefaultPageSize, [])
  }

  datatype CursorResult<T> = CursorResult(items: seq<T>, nextCursor: Bytes, prevCursor: Bytes, hasMore: bool) {
    predicate IsEmpty() {
      |items| == 0
    }
  }

  /** Pure aggregation: `hasMore` is the caller's flag, not derived from
      whether a next cursor was supplied. */
  function NewCursorResult<T>(items: seq<T>, nextCursor: Bytes, prevCursor: Bytes, hasMore: bool): (r: CursorResult<T>)
    ensures r.items == items && r.nextCursor == nextCursor && r.prevCursor == prevCursor && r.hasMore == hasMore
    ensures r.IsEmpty() <==> items == []
  {
    CursorResult(items, nextCursor, prevCursor, hasMore)
  }

  function EmptyCursorResult<T>(): (r: CursorResult<T>)
    ensures r.IsEmpty() && r.nextCursor == [] && r.prevCursor == [] && !r.hasMore
  {
    CursorResult([], [], [], false)
  }

  // =======================================================================
  // Cursor codec
  // =======================================================================

  /** The separator between the values of one cursor, a NUL byte. */
  const Nul: Byte := 0

  predicate NoSeparator(values: seq<Bytes>, sep: Byte) {
    forall i :: 0 <= i < |values| ==> sep !in values[i]
  }

  /** `strings.Join`: the values with `sep` between neighbours. */
  function Join(values: seq<Bytes>, sep: Byte): (s: Bytes)
    ensures |values| >= 2 ==> sep in s
    ensures |values| == 1 ==> s == values[0]
    decreases |values|
  {
    if |values| == 0 then []
    else if |values| == 1 then values[0]
    else
      var rest := Join(values[1..], sep);
      assert ([sep] + rest)[0] == sep;
      values[0] + ([sep] + rest)
  }

  /** `strings.Split` with a one-byte separator: the maximal separator-free
      pieces, in order; the empty string splits into one empty piece. */
  function Split(s: Bytes, sep: Byte): (parts: seq<Bytes>)
    ensures |parts| >= 1
    ensures NoSeparator(parts, sep)
    decreases |s|
  {
    if |s| == 0 then [[]]
    else if s[0] == sep then [[]] + Split(s[1..], sep)
    else
      var rest := Split(s[1..], sep);
      [[s[0]] + rest[0]] + rest[1..]
  }

  /** No values give the empty token; otherwise the values joined by NUL and
      base64url-encoded. A single empty value gives the empty token too. */
  function EncodeCursor(values: seq<Bytes>): (token: Bytes)
    ensures token == [] <==> values == [] || values == [[]]
  {
    if |values| == 0 then []
    else Base64Url.Encode(Join(values, Nul))
  }

  /** The empty token decodes to no values and no error; a token that is not
      padded base64url is InvalidCursor; otherwise the bytes split at NUL. */
  function DecodeCursor(token: Bytes): (r: Result<seq<Bytes>, PaginationError>)
    ensures token == [] ==> r == Ok([])
    ensures r.Err? ==> r.error == InvalidCursor
    ensures r.Ok? && token != [] ==> |r.value| >= 1 && NoSeparator(r.value, Nul)
  {
    if token == [] then Ok([])
    else
      match Base64Url.Decode(token)
      case None => Err(InvalidCursor)
      case Some(decoded) => Ok(Split(decoded, Nul))
  }

  /** Decode errors pass through; any count of values other than one is
      InvalidCursor. */
  function DecodeCursorSingle(token: Bytes): (r: Result<Bytes, PaginationError>)
    ensures r.Ok? <==> DecodeCursor(token).Ok? && |DecodeCursor(token).value| == 1
    ensures r.Ok? ==> DecodeCursor(token).value == [r.value]
    ensures r.Err? ==> r.error == InvalidCursor
  {
    match DecodeCursor(token)
    case Err(e) => Err(e)
    case Ok(values) => if |values| != 1 then Err(InvalidCursor) else Ok(values[0])
  }

  // -----------------------------------------------------------------------
  // Join and Split are inverse
  // -----------------------------------------------------------------------

  lemma {:induction false} SplitSeparatorFree(a: Bytes, sep: Byte)
    requires sep !in a
    ensures Split(a, sep) == [a]
    decreases |a|
  {
    if |a| > 0 {
      SplitSeparatorFree(a[1..], sep);
      assert [a[0]] + a[1..] == a;
    }
  }

  lemma {:induction false} SplitAtFirstSeparator(a: Bytes, rest: Bytes, sep: Byte)
    requires sep !in a
    ensures Split(a + ([sep] + rest), sep) == [a] + Split(rest, sep)
    decreases |a|
  {
    var s := a + ([sep] + rest);
    if |a| == 0 {
      assert s == [sep] + rest;
      assert s[1..] == rest;
    } else {
      assert s[0] == a[0];
      assert s[1..] == a[1..] + ([sep] + rest);
      SplitAtFirstSeparator(a[1..], rest, sep);
      assert [a[0]] + a[1..] == a;
    }
  }

  /** Splitting what was joined gives the values back, when no value
      contains the separator. */
  lemma {:induction false} SplitJoin(values: seq<Bytes>, sep: Byte)
    requires |values| >= 1 && NoSeparator(values, sep)
    ensures Split(Join(values, sep), sep) == values
    decreases |values|
  {
    if |values| == 1 {
      SplitSeparatorFree(values[0], sep);
    } else {
      assert NoSeparator(values[1..], sep) by {
        forall i | 0 <= i < |values[1..]| ensures sep !in values[1..][i] {
          assert values[1..][i] == values[i + 1];
        }
      }
      SplitJoin(values[1..], sep);
      assert sep !in values[0];
      SplitAtFirstSeparator(values[0], Join(values[1..], sep), sep);
      assert [values[0]] + values[1..] == values;
    }
  }

  lemma JoinPrepend(c: Byte, parts: seq<Bytes>, sep: Byte)
    requires |parts| >= 1
    ensures Join([[c] + parts[0]] + parts[1..], sep) == [c] + Join(parts, sep)
  {
    var q := [[c] + parts[0]] + parts[1..];
    assert q[0] == [c] + parts[0] && q[1..] == parts[1..];
    if |parts| > 1 {
      assert Join(q, sep) == q[0] + ([sep] + Join(q[1..], sep));
    }
  }

  /** Joining the pieces of a split gives the bytes back, for every input. */
  lemma {:induction false} JoinSplit(s: Bytes, sep: Byte)
    ensures Join(Split(s, sep), sep) == s
    decreases |s|
  {
    if |s| > 0 {
      var parts := Split(s[1..], sep);
      JoinSplit(s[1..], sep);
      if s[0] == sep {
        var q := [[]] + parts;
        assert q[0] == [] && q[1..] == parts;
        assert Join(q, sep) == [] + ([sep] + Join(parts, sep));
        assert [s[0]] + s[1..] == s;
      } else {
        JoinPrepend(s[0], parts, sep);
        assert [s[0]] + s[1..] == s;
      }
    }
  }

  // -----------------------------------------------------------------------
  // Cursor properties
  // -----------------------------------------------------------------------

  /** Every list of NUL-free values survives encoding and decoding, except
      the single empty value (see EmptyValueCursor). */
  lemma CursorRoundTrip(values: seq<Bytes>)
    requires values != [[]] && NoSeparator(values, Nul)
    ensures DecodeCursor(EncodeCursor(values)) == Ok(values)
  {
    if |values| > 0 {
      var joined := Join(values, Nul);
      Base64Url.DecodeEncode(joined);
      SplitJoin(values, Nul);
    }
  }

  /** A single empty value encodes to the empty token, which decodes to no
      values at all. */
  lemma EmptyValueCursor()
    ensures EncodeCursor([[]]) == []
    ensures DecodeCursor(EncodeCursor([[]])) == Ok([])
    ensures DecodeCursorSingle(EncodeCursor([[]])) == Err(InvalidCursor)
  {
  }

  lemma CursorSingleRoundTrip(v: Bytes)
    requires v != [] && Nul !in v
    ensures DecodeCursorSingle(EncodeCursor([v])) == Ok(v)
  {
    CursorRoundTrip([v]);
  }

  /** A cursor of two values is not a single-value cursor. */
  lemma CursorSingleRejectsPair(a: Bytes, b: Bytes)
    requires Nul !in a && Nul !in b
    ensures DecodeCursorSingle(EncodeCursor([a, b])) == Err(InvalidCursor)
  {
    CursorRoundTrip([a, b]);
  }

  /** A token holding a byte outside the alphabet, such as '!', is rejected. */
  lemma ForeignByteCursor(token: Bytes, c: Byte)
    requires c in token && !Base64Url.IsAlphabet(c) && c != Base64Url.Pad
    requires c != Base64Url.CR && c != Base64Url.LF
    ensures DecodeCursor(token) == Err(InvalidCursor)
    ensures DecodeCursorSingle(token) == Err(InvalidCursor)
  {
    Base64Url.ForeignByteRejected(token, c);
  }

  // -----------------------------------------------------------------------
  // Offset and page-count properties
  // -----------------------------------------------------------------------

  /** Both request kinds accept exactly the same page sizes. */
  lemma SharedPageSizePolicy(page: Int64, pageSize: Int64, cursor: Bytes)
    requires page >= 1
    ensures NewPageRequest(page, pageSize).Ok? == NewCursorRequest(cursor, pageSize).Ok?
  {
  }

  /** For a validated request whose offset fits in 64 bits, Go's offset is the
      exact one. */
  lemma OffsetAsWrittenAgrees(r: PageRequest)
    requires r.Valid() && (r.page - 1) * r.pageSize <= MaxInt64
    ensures r.OffsetAsWritten() == r.Offset()
  {
  }

  /** Go's offset wraps around to a negative number for a request that
      NewPageRequest accepts. */
  lemma OffsetOverflows()
    ensures NewPageRequest(0x4000_0000_0000_0001, 2).Ok?
    ensures NewPageRequest(0x4000_0000_0000_0001, 2).value.OffsetAsWritten() == MinInt64
  {
    var r := NewPageRequest(0x4000_0000_0000_0001, 2).value;
    assert (r.page - 1) * r.pageSize == 0x8000_0000_0000_0000;
  }

  lemma MulMonotone(a: int, b: int, c: int)
    requires a <= b && c >= 0
    ensures a * c <= b * c
  {
    assert b * c - a * c == (b - a) * c;
  }

  /** Against any page count: a page lies before the last one exactly when
      the items up to and including it do not reach the total. */
  lemma BeforeLastPage(pages: int, total: int, size: int, page: int)
    requires size >= 1 && IsPageCount(pages, total, size)
    ensures page < pages <==> page * size < total
  {
    if page < pages {
      MulMonotone(page, pages - 1, size);
    } else {
      MulMonotone(pages, page, size);
    }
  }

  /** With a non-negative total, there is a next page exactly when the items
      on this page and the ones before it do not reach the total. */
  lemma HasNextIffItemsRemain<T>(items: seq<T>, page: Int64, pageSize: Int64, totalItems: Int64)
    requires pageSize >= 1 && totalItems >= 0
    ensures NewPageResult(items, page, pageSize, totalItems).HasNext() <==> page * pageSize < totalItems
  {
    var r := NewPageResult(items, page, pageSize, totalItems);
    BeforeLastPage(r.totalPages, totalItems, pageSize, page);
  }

  /** Chained WithSort calls keep only the last list: replace, not append. */
  lemma WithSortReplaces(p: PageRequest, c: CursorRequest, a: seq<SortOption>, b: seq<SortOption>)
    ensures p.WithSort(a).WithSort(b) == p.WithSort(b)
    ensures c.WithSort(a).WithSort(b) == c.WithSort(b)
  {
  }

  /** Fifty items in pages of twenty make three pages: the first has a next
      page and no previous one, the third the other way round. */
  lemma FiftyItemsInPagesOfTwenty<T>(items: seq<T>)
    ensures NewPageResult(items, 1, 20, 50).totalPages == 3
    ensures NewPageResult(items, 1, 20, 50).HasNext() && !NewPageResult(items, 1, 20, 50).HasPrev()
    ensures !NewPageResult(items, 3, 20, 50).HasNext() && NewPageResult(items, 3, 20, 50).HasPrev()
  {
    assert Quo(50, 20) == 2 && Rem(50, 20) == 10;
  }

  /** The empty sentinel is what NewPageResult builds for an empty first page
      of default size. */
  lemma EmptyPageResultIsFirstEmptyPage<T>()
    ensures EmptyPageResult<T>() == NewPageResult([], DefaultPage, DefaultPageSize, 0)
  {
  }
}
