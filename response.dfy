/** The uniform JSON envelope of the HTTP adapter. Each helper builds one
    response and hands it, with a status code, to the framework; here it
    returns that pair as a Reply. The request is represented by its context
    and the span active on it, which is all the envelope reads. */
module Response {
  import opened Wrappers
  import opened GoInt
  import Contextx
  import Pagination

  datatype FieldError = FieldError(field: string, message: string)

  datatype ErrorBody = ErrorBody(code: string, message: string, details: seq<FieldError>)

  datatype PaginationMeta = PaginationMeta(page: Int64, pageSize: Int64, total: Int64, totalPages: Int64)

  datatype Meta = Meta(traceID: string, pagination: Option<PaginationMeta>)

  datatype Response<D> = Response(success: bool, data: Option<D>, error: Option<ErrorBody>, meta: Meta) {
    /** A success carries no error; a failure carries an error and no data. */
    predicate WellFormed() {
      (success <==> error.None?) && (!success ==> data.None?)
    }
  }

  datatype Reply<D> = Reply(status: int, body: Response<D>)

  datatype Request = Request(ctx: Contextx.Context, span: Contextx.SpanContext)

  const StatusOK: int := 200
  const StatusCreated: int := 201

  /** The trace ID of the request: the active span's, else the one stored in
      the context, else none. No pagination block. */
  function NewMeta(req: Request): (m: Meta)
    ensures m.traceID == Contextx.GetTraceID(req.ctx, req.span)
    ensures req.span.traceID.Some? ==> m.traceID == req.span.traceID.value
    ensures m.pagination.None?
  {
    Meta(Contextx.GetTraceID(req.ctx, req.span), None)
  }

  function OK<D>(req: Request, data: D): (r: Reply<D>)
    ensures r.status == StatusOK && r.body.WellFormed()
    ensures r.body.success && r.body.data == Some(data) && r.body.meta == NewMeta(req)
  {
    Reply(StatusOK, Response(true, Some(data), None, NewMeta(req)))
  }

  function Created<D>(req: Request, data: D): (r: Reply<D>)
    ensures r.status == StatusCreated && r.body.WellFormed()
    ensures r.body.success && r.body.data == Some(data) && r.body.meta == NewMeta(req)
  {
    Reply(StatusCreated, Response(true, Some(data), None, NewMeta(req)))
  }

  function Err<D>(req: Request, status: int, code: string, message: string): (r: Reply<D>)
    ensures r.status == status && r.body.WellFormed() && !r.body.success
    ensures r.body.error == Some(ErrorBody(code, message, [])) && r.body.meta == NewMeta(req)
  {
    Reply(status, Response(false, None, Some(ErrorBody(code, message, [])), NewMeta(req)))
  }

  function ErrWithDetails<D>(req: Request, status: int, code: string, message: string,
                             details: seq<FieldError>): (r: Reply<D>)
    ensures r.status == status && r.body.WellFormed() && !r.body.success
    ensures r.body.error == Some(ErrorBody(code, message, details)) && r.body.meta == NewMeta(req)
  {
    Reply(status, Response(false, None, Some(ErrorBody(code, message, details)), NewMeta(req)))
  }

  // =======================================================================
  // List
  // =======================================================================

  /** `(total + pageSize - 1) / pageSize` as Go computes it in a 64-bit int:
      the sum wraps around before the division. */
  function ListTotalPagesAsWritten(pageSize: Int64, total: Int64): Int64 {
    if pageSize > 0 then Quo(Wrap64(total + pageSize - 1), pageSize) else 0
  }

  lemma QuoBoundsNonNegative(n: int, d: int)
    requires n >= 0 && d >= 1
    ensures 0 <= Quo(n, d) && Quo(n, d) * d <= n < Quo(n, d) * d + d
  {
  }

  /** The same division on exact integers. For a non-negative total it is
      the page count of Pagination: enough pages, and not one too many. */
  function ListTotalPages(pageSize: Int64, total: Int64): (n: Int64)
    ensures pageSize <= 0 ==> n == 0
    ensures pageSize > 0 && total >= 0 ==> Pagination.IsPageCount(n, total, pageSize)
  {
    if pageSize > 0 then
      var q := Quo(total + pageSize - 1, pageSize);
      assert MinInt64 <= q <= MaxInt64 && (total >= 0 ==> Pagination.IsPageCount(q, total, pageSize)) by {
        if total >= 0 {
          QuoBoundsNonNegative(total + pageSize - 1, pageSize);
          assert (q - 1) * pageSize == q * pageSize - pageSize;
          if q >= 1 {
            Pagination.MulMonotone(1, pageSize, q - 1);
          }
        } else if total + pageSize - 1 >= 0 {
          QuoBoundsNonNegative(total + pageSize - 1, pageSize);
          if q >= 1 {
            Pagination.MulMonotone(1, q, pageSize);
          }
        } else {
          Pagination.MulMonotone(q, 0, pageSize);
          if q < 0 {
            Pagination.MulMonotone(1, pageSize, -q);
          }
        }
      }
      q
    else 0
  }

  /** A 200 success whose pagination block copies page, page size and total
      and adds the page count. */
  function List<D>(req: Request, data: D, page: Int64, pageSize: Int64, total: Int64): (r: Reply<D>)
    ensures r.status == StatusOK && r.body.WellFormed() && r.body.success && r.body.data == Some(data)
    ensures r.body.meta.traceID == NewMeta(req).traceID
    ensures r.body.meta.pagination.Some?
    ensures var p := r.body.meta.pagination.value;
      p.page == page && p.pageSize == pageSize && p.total == total
      && p.totalPages == ListTotalPages(pageSize, total)
  {
    var meta := NewMeta(req).(pagination := Some(PaginationMeta(page, pageSize, total, ListTotalPages(pageSize, total))));
    Reply(StatusOK, Response(true, Some(data), None, meta))
  }

  // =======================================================================
  // Properties
  // =======================================================================

  /** A page count is unique: two counts for the same total and size agree. */
  lemma PageCountUnique(a: int, b: int, total: int, size: int)
    requires size >= 1 && Pagination.IsPageCount(a, total, size) && Pagination.IsPageCount(b, total, size)
    ensures a == b
  {
    if a < b {
      Pagination.MulMonotone(a, b - 1, size);
    } else if b < a {
      Pagination.MulMonotone(b, a - 1, size);
    }
  }

  /** For a non-negative total the envelope's page count is the one the
      domain's PageResult computes with its own rounding rule. */
  lemma ListAgreesWithPageResult<D, T>(req: Request, data: D, page: Int64, pageSize: Int64, total: Int64)
    requires pageSize >= 1 && total >= 0
    ensures List(req, data, page, pageSize, total).body.meta.pagination.value.totalPages
         == Pagination.NewPageResult<T>([], page, pageSize, total).totalPages
  {
    PageCountUnique(ListTotalPages(pageSize, total),
                    Pagination.NewPageResult<T>([], page, pageSize, total).totalPages, total, pageSize);
  }

  /** Whenever the sum does not overflow, Go's page count is the exact one. */
  lemma ListTotalPagesAsWrittenAgrees(pageSize: Int64, total: Int64)
    requires total + pageSize - 1 <= MaxInt64
    ensures ListTotalPagesAsWritten(pageSize, total) == ListTotalPages(pageSize, total)
  {
  }

  /** With the largest total, Go's sum wraps around and the page count comes
      out negative. */
  lemma ListTotalPagesOverflows()
    ensures ListTotalPagesAsWritten(2, MaxInt64) == -0x4000_0000_0000_0000
    ensures ListTotalPages(2, MaxInt64) == 0x4000_0000_0000_0000
  {
    assert Wrap64(MaxInt64 + 1) == MinInt64;
    assert Quo(MinInt64, 2) * 2 == MinInt64;
    QuoBoundsNonNegative(MaxInt64 + 1, 2);
  }

  /** The two error helpers agree when there are no details. */
  lemma ErrIsErrWithoutDetails<D>(req: Request, status: int, code: string, message: string)
    ensures ErrWithDetails<D>(req, status, code, message, []) == Err<D>(req, status, code, message)
  {
  }

  /** OK and Created differ in nothing but the status code. */
  lemma CreatedIsOKWith201<D>(req: Request, data: D)
    ensures Created(req, data).body == OK(req, data).body
    ensures Created(req, data).status == 201 && OK(req, data).status == 200
  {
  }
}
