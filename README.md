# go-ddd core in Dafny

A Dafny model of the logic at the centre of the go-ddd service template. It covers five parts:

- **Pagination** (`pagination.dfy`). The domain's pagination value objects:
  - sort options, which are normalised rather than rejected;
  - offset requests and results, with the ceiling-division page count;
  - cursor requests and results;
  - the cursor codec. Values are joined with a NUL byte and encoded as base64 with the URL- and filename-safe alphabet and `=` padding (section 5 of RFC 4648).

  The codec rests on two supporting modules. `base64url.dfy` models Go's `base64.URLEncoding`, including the decoder's leniencies: CR and LF are skipped, and unused trailing bits are ignored. `goint.dfy` models Go's 64-bit `int`, with wrap-around and truncating division.
- **Request context** (`contextx.dfy`). The immutable chain of `context.WithValue` bindings:
  - its typed getters, which answer `""` when nothing is stored;
  - the accumulated logging fields;
  - the rule that picks the logger a log call reaches;
  - the fixed-order `LogFields` builder.

  The package-level default logger is the field of class `Package`. A caller's own logger is class `Recorder`, which records every call it receives.
- **Logger construction** (`logx.dfy`). Case-insensitive parsing of level, output and format names; the order in which `New` validates them; and the `shortenSource` hook. That hook rewrites a record's source file name in place.
- **Response envelope** (`response.dfy`). `OK`, `Created`, `List`, `Err` and `ErrWithDetails`, each returning the status code and body handed to the framework. It includes `List`'s page count and its agreement with the domain's rule.
- **Request logging middleware** (`middleware.dfy`). The level and message chosen from the recorded errors and status code, and the fields logged with them.

`wrappers.dfy` holds `Option` and `Result`, and `slog.dfy` the four log levels.

Strings that pass through the cursor codec are byte sequences. All other strings are Dafny strings.

Three behaviours of the code to note:
- One empty value `[""]` encodes to the empty token, and that token decodes to no values at all. The round trip therefore holds for every NUL-free list except `[""]`.
- The offset is computed in Go's 64-bit `int` and can wrap (see Findings).
- A sort option's field is not checked; an empty field is accepted.

## Model

| member | source | states |
|---|---|---|
| Pagination.NewSortOption | internal/domain/pagination.go:38-50 | The field is kept. The direction is "asc" or "desc": the given one when it is one of these, "asc" otherwise. IsAscending holds exactly when the given direction is not "desc". |
| Pagination.SortOption.IsAscending | internal/domain/pagination.go:50 | Holds exactly when the direction is "asc". NewSortOption's contract ties it to the given direction. |
| Pagination.NewPageRequest | internal/domain/pagination.go:64-75 | Succeeds iff page ≥ 1 and 1 ≤ pageSize ≤ 1000. A page below 1 gives InvalidPage even when the size is bad too. Otherwise a bad size gives InvalidPageSize. Success stores page and size with an empty sort list. |
| Pagination.NewPageRequestWithDefaults | internal/domain/pagination.go:78-83 | Page 1, size 20 and no sort: a valid request, the one NewPageRequest(1, 20) returns. |
| Pagination.PageRequest.WithSort | internal/domain/pagination.go:86-92 | Page and size are kept, the sort list becomes exactly the given options, and a valid request stays valid. |
| Pagination.PageRequest.Offset | internal/domain/pagination.go:98 | For a valid request the offset is non-negative, and offset + pageSize = page × pageSize: the rows on the pages before this one. |
| Pagination.PageRequest.Limit | internal/domain/pagination.go:99 | For a valid request the limit lies between 1 and 1000. |
| Pagination.NewPageResult | internal/domain/pagination.go:111-123 | Items, page, size and total are kept. For a non-negative total the page count is ceil(total / size): enough pages, and not one too many. It is 0 exactly when the total is 0. For a negative total, Go's truncating rule gives a count ≤ 0. |
| Pagination.PageResult.HasNext | internal/domain/pagination.go:131 | Holds when the page lies before the last page. HasNextIffItemsRemain ties it to the item count. |
| Pagination.PageResult.HasPrev | internal/domain/pagination.go:132 | Holds when the page lies after the first. |
| Pagination.PageResult.IsEmpty | internal/domain/pagination.go:133 | Holds when the page carries no items. |
| Pagination.EmptyPageResult | internal/domain/pagination.go:136-144 | Empty, on page 1 with size 20, total 0 and 0 pages, with neither a next nor a previous page. |
| Pagination.CursorRequest.WithSort | internal/domain/pagination.go:177-183 | Cursor and size are kept, the sort list becomes exactly the given options, and validity is kept. |
| Pagination.CursorRequest.Limit | internal/domain/pagination.go:189 | For a valid request the limit lies between 1 and 1000. |
| Pagination.CursorRequest.HasCursor | internal/domain/pagination.go:190 | Holds when the cursor is non-empty. |
| Pagination.NewCursorRequest | internal/domain/pagination.go:158-166 | Succeeds iff 1 ≤ pageSize ≤ 1000. The only error is InvalidPageSize. The cursor is stored unread. HasCursor holds iff the cursor is non-empty. |
| Pagination.NewCursorRequestWithDefaults | internal/domain/pagination.go:169-174 | No cursor, size 20 and no sort: the request NewCursorRequest("", 20) returns. |
| Pagination.NewCursorResult | internal/domain/pagination.go:201-208 | All four fields are stored as given, and hasMore is not derived from the next cursor. IsEmpty holds iff there are no items. |
| Pagination.EmptyCursorResult | internal/domain/pagination.go:218-225 | No items, both cursors empty, hasMore false. |
| Pagination.Join | internal/domain/pagination.go:242 | strings.Join: one value joins to itself, and two or more contain the separator. |
| Pagination.Split | internal/domain/pagination.go:257 | strings.Split: at least one piece, and no piece contains the separator. |
| Pagination.EncodeCursor | internal/domain/pagination.go:238-244 | The token is empty exactly for no values or for one empty value. |
| Pagination.DecodeCursor | internal/domain/pagination.go:249-258 | The empty token gives no values and no error. The only error is InvalidCursor. Any other success holds at least one NUL-free value. |
| Pagination.DecodeCursorSingle | internal/domain/pagination.go:261-270 | Succeeds iff DecodeCursor succeeds with exactly one value, and returns that value. Any failure is InvalidCursor. |
| Pagination.SplitJoin | internal/domain/pagination.go:242-257 | Splitting what was joined gives back any non-empty list of separator-free values. |
| Pagination.JoinSplit | internal/domain/pagination.go:242-257 | Joining the pieces of a split gives back any byte string. |
| Pagination.CursorRoundTrip | internal/domain/pagination.go:238-258 | DecodeCursor(EncodeCursor(v)) = v for every list of NUL-free values other than [""]. |
| Pagination.EmptyValueCursor | internal/domain/pagination.go:238-268 | [""] encodes to the empty token. That token decodes to no values, and the single-value decoder rejects it. |
| Pagination.CursorSingleRoundTrip | internal/domain/pagination.go:238-270 | A non-empty NUL-free value survives EncodeCursor and DecodeCursorSingle. |
| Pagination.CursorSingleRejectsPair | internal/domain/pagination.go:261-268 | A cursor of two values is rejected as a single-value cursor. |
| Pagination.ForeignByteCursor | internal/domain/pagination.go:253-255 | A token holding a byte such as '!' (not alphabet, padding or newline) gives InvalidCursor from both decoders. |
| Pagination.SharedPageSizePolicy | internal/domain/pagination.go:158-160 | With a valid page, offset and cursor requests accept exactly the same page sizes. |
| Pagination.WithSortReplaces | internal/domain/pagination.go:86-92 | WithSort(a) then WithSort(b) equals WithSort(b) for both request kinds. |
| Pagination.OffsetAsWrittenAgrees | internal/domain/pagination.go:98 | Go's 64-bit offset equals the exact offset whenever that fits in 64 bits. |
| Pagination.OffsetOverflows | internal/domain/pagination.go:98 | NewPageRequest accepts page 2^62 + 1 with size 2, and Go's offset for it wraps to -2^63. |
| Pagination.BeforeLastPage | internal/domain/pagination.go:131 | Against any page count, a page lies before the last one exactly when the rows up to and including it fall short of the total. |
| Pagination.HasNextIffItemsRemain | internal/domain/pagination.go:131 | For a non-negative total, HasNext holds exactly when page × pageSize < total. |
| Pagination.FiftyItemsInPagesOfTwenty | internal/domain/pagination.go:111-132 | 50 items in pages of 20 make 3 pages. Page 1 has a next page and no previous one; page 3 has the reverse. |
| Pagination.EmptyPageResultIsFirstEmptyPage | internal/domain/pagination.go:136-144 | The empty sentinel is the result NewPageResult builds for an empty first page of default size. |
| GoInt.Wrap64 | internal/domain/pagination.go:98 | Go's 64-bit wrap-around: the result is in range, congruent to the input modulo 2^64, and equal to it when it is already in range. |
| GoInt.Quo | internal/domain/pagination.go:112 | Go's integer division truncates toward zero: its bounds for non-negative and for negative dividends. |
| GoInt.Rem | internal/domain/pagination.go:113 | Go's remainder: dividend = quotient × divisor + remainder, with the remainder's sign following the dividend. |
| Base64Url.Alphabet | internal/domain/pagination.go:243 | The RFC 4648 URL-safe alphabet never yields padding, CR or LF. |
| Base64Url.Index | internal/domain/pagination.go:253 | The position of an alphabet character, and none for any other byte. |
| Base64Url.Encode | internal/domain/pagination.go:243 | The padded encoding is 4 × ceil(n / 3) bytes long, and non-empty for non-empty input. |
| Base64Url.StripNewlines | internal/domain/pagination.go:253 | The decoder's first step removes every CR and LF. StripConcat shows it works byte by byte and keeps the other bytes in order. |
| Base64Url.StripConcat | internal/domain/pagination.go:253 | Removing newlines from a concatenation is the concatenation of the two removals. |
| Base64Url.NewlineSkipped | internal/domain/pagination.go:253 | A CR or LF inserted anywhere in a token does not change what it decodes to: `a + "\n" + b` decodes as `a + b`. |
| Base64Url.TrailingBitsIgnoredDoublePad | internal/domain/pagination.go:253 | A token ending in "==" decodes to one byte made of the first sextet and the top two bits of the second. Tokens that differ only in the four unused bits decode alike. |
| Base64Url.TrailingBitsIgnoredSinglePad | internal/domain/pagination.go:253 | A token ending in "=" decodes to two bytes made of the first two sextets and the top four bits of the third. Tokens that differ only in the two unused bits decode alike. |
| Base64Url.EncodeCharacters | internal/domain/pagination.go:243 | Every encoded byte is an alphabet character or padding. |
| Base64Url.EncodeHasNoNewlines | internal/domain/pagination.go:243 | An encoded token contains no CR or LF. |
| Base64Url.DecodeQuantaEncode | internal/domain/pagination.go:243-253 | Reading the quanta of an encoding gives the bytes back. |
| Base64Url.Decode | internal/domain/pagination.go:253 | Newlines are skipped. Input that is empty after that decodes to no bytes. A successful decode has a multiple of four characters left, and three bytes per group of four, less one or two for padding in the last group. |
| Base64Url.DecodeEncode | internal/domain/pagination.go:243-253 | Decoding inverts encoding for every byte string. |
| Base64Url.ForeignByteRejected | internal/domain/pagination.go:253-255 | A byte outside the alphabet, padding and newlines anywhere in the token makes decoding fail. |
| Contextx.Recorder.constructor | pkg/contextx/contextx.go:15-20 | A fresh custom logger has received no calls. |
| Contextx.Recorder.Debug | pkg/contextx/contextx.go:16 | Appends exactly one Debug call with the message and arguments. |
| Contextx.Recorder.Info | pkg/contextx/contextx.go:17 | Appends exactly one Info call with the message and arguments. |
| Contextx.Recorder.Warn | pkg/contextx/contextx.go:18 | Appends exactly one Warn call with the message and arguments. |
| Contextx.Recorder.Error | pkg/contextx/contextx.go:19 | Appends exactly one Error call with the message and arguments. |
| Contextx.WithRequestID | pkg/contextx/contextx.go:196-198 | The request ID reads back, and every other key reads as before. |
| Contextx.Lookup | pkg/contextx/contextx.go:203 | `c.Value(k)` on a chain of WithValue bindings. LookupIsLastBinding states its meaning. |
| Contextx.LookupIsLastBinding | pkg/contextx/contextx.go:203 | Nothing is found exactly when no binding has the key. Otherwise the value is that of the last binding with the key: later bindings shadow earlier ones. |
| Contextx.GetRequestID | pkg/contextx/contextx.go:202-208 | The string stored under its key by the nearest binding; "" when no binding has the key or the nearest one does not hold a string. |
| Contextx.WithUserID | pkg/contextx/contextx.go:262-264 | The user ID reads back, and every other key reads as before. |
| Contextx.GetUserID | pkg/contextx/contextx.go:268-274 | The string stored under its key by the nearest binding; "" when no binding has the key or the nearest one does not hold a string. |
| Contextx.WithCorrelationID | pkg/contextx/contextx.go:291-293 | The correlation ID reads back, and every other key reads as before. |
| Contextx.GetCorrelationID | pkg/contextx/contextx.go:297-303 | The string stored under its key by the nearest binding; "" when no binding has the key or the nearest one does not hold a string. |
| Contextx.WithOperation | pkg/contextx/contextx.go:320-322 | The operation reads back, and every other key reads as before. |
| Contextx.GetOperation | pkg/contextx/contextx.go:326-332 | The string stored under its key by the nearest binding; "" when no binding has the key or the nearest one does not hold a string. |
| Contextx.WithService | pkg/contextx/contextx.go:349-351 | The service reads back, and every other key reads as before. |
| Contextx.GetService | pkg/contextx/contextx.go:355-361 | The string stored under its key by the nearest binding; "" when no binding has the key or the nearest one does not hold a string. |
| Contextx.WithEnvironment | pkg/contextx/contextx.go:378-380 | The environment reads back, and every other key reads as before. |
| Contextx.GetEnvironment | pkg/contextx/contextx.go:384-390 | The string stored under its key by the nearest binding; "" when no binding has the key or the nearest one does not hold a string. |
| Contextx.WithTraceID | pkg/contextx/contextx.go:225-227 | Without an active span the stored trace ID reads back, and every other key reads as before. |
| Contextx.GetTraceID | pkg/contextx/contextx.go:232-245 | The active span's trace ID (never "") if there is one. Otherwise the string the nearest trace-ID binding holds, and "" when there is none or it is not a string. |
| Contextx.GetSpanID | pkg/contextx/contextx.go:423-429 | "" exactly when no span is active, otherwise the span's ID. |
| Contextx.FieldsOf | pkg/contextx/contextx.go:106-112 | The field list the nearest fields binding holds; no fields when there is none or it holds something else. |
| Contextx.WithFields | pkg/contextx/contextx.go:87-94 | The new fields are the existing ones followed by the arguments, and every other key reads as before. |
| Contextx.WithLogger | pkg/contextx/contextx.go:81-83 | The logger binding is the given logger, and every other key reads as before. |
| Contextx.AttachedLogger | pkg/contextx/contextx.go:98 | The logger the nearest logger binding holds, exactly when that logger is not nil. Nothing when no logger was attached, when it is nil, or when the binding holds something else. |
| Contextx.FromContext | pkg/contextx/contextx.go:97-103 | The attached logger if any, else the current default. Never nil while the default is not nil. |
| Contextx.ChosenLogger | pkg/contextx/contextx.go:148-154 | The attached logger wins. Otherwise a default is chosen exactly when it has been replaced by a logger other than the slog adapter or nil. Nothing chosen means the slog path. |
| Contextx.Package.constructor | pkg/contextx/contextx.go:53 | The default logger starts as the slog adapter. |
| Contextx.Package.SetDefaultLogger | pkg/contextx/contextx.go:115-117 | The default logger becomes the given one. |
| Contextx.Package.LogWithCaller | pkg/contextx/contextx.go:141-179 | The chosen custom logger receives exactly one call: same level, same message, the context's fields followed by the call's arguments. Nothing else changes. |
| Contextx.Package.Debug | pkg/contextx/contextx.go:120-122 | One Debug call reaches the chosen logger, as LogWithCaller states. |
| Contextx.Package.Info | pkg/contextx/contextx.go:125-127 | One Info call reaches the chosen logger, as LogWithCaller states. |
| Contextx.Package.Warn | pkg/contextx/contextx.go:130-132 | One Warn call reaches the chosen logger, as LogWithCaller states. |
| Contextx.Package.Error | pkg/contextx/contextx.go:135-137 | One Error call reaches the chosen logger, as LogWithCaller states. |
| Contextx.AppendIfSet | pkg/contextx/contextx.go:441-443 | Appends the name and value when the value is non-empty, and nothing otherwise. |
| Contextx.LogFields | pkg/contextx/contextx.go:438-470 | The pairs for service, environment, operation, request_id, trace_id, user_id and correlation_id, in that order, skipping empty values: twice as many arguments as non-empty values. |
| Contextx.EmitLength | pkg/contextx/contextx.go:438-470 | Two arguments per entry with a value, none for the others. |
| Contextx.EmitConcat | pkg/contextx/contextx.go:438-470 | Earlier entries' pairs come before later ones. |
| Contextx.EmitNothingSet | pkg/contextx/contextx.go:438-470 | Entries whose values are all empty contribute nothing. |
| Contextx.LogFieldsOfBackground | pkg/contextx/contextx.go:438-470 | A context with nothing stored and no span yields no fields. |
| Contextx.ChainedKeysReadable | pkg/contextx/contextx.go:196-390 | After chaining all seven With calls, every getter reads its own value. |
| Contextx.BackgroundIsEmpty | pkg/contextx/contextx.go:202-208 | A context with nothing stored answers "" for every key, has no fields and has no attached logger. |
| Contextx.SpanTraceIDWins | pkg/contextx/contextx.go:232-237 | An active span's trace ID hides a stored one. |
| Contextx.HasRequestID | pkg/contextx/contextx.go:407-409 | Holds exactly when the nearest request-ID binding holds a non-empty string. |
| Contextx.HasUserID | pkg/contextx/contextx.go:411-414 | Holds exactly when the nearest user-ID binding holds a non-empty string. |
| Contextx.HasTraceID | pkg/contextx/contextx.go:416-419 | Always holds when a span is active. Otherwise it holds exactly when the nearest trace-ID binding holds a non-empty string. |
| Contextx.HasAfterWith | pkg/contextx/contextx.go:407-419 | HasRequestID, HasUserID and HasTraceID hold after storing v exactly when v is non-empty. |
| Contextx.FieldsAccumulate | pkg/contextx/contextx.go:87-94 | Two WithFields calls concatenate, oldest first. |
| Contextx.FieldsSurviveOtherKeys | pkg/contextx/contextx.go:87-94 | Binding another key keeps the fields, and binding fields keeps the attached logger. |
| Contextx.NilLoggerHidesOuter | pkg/contextx/contextx.go:97-103 | Attaching nil hides an outer logger, and FromContext then falls back to the default. |
| Contextx.NearestLoggerWins | pkg/contextx/contextx.go:148-150 | The innermost non-nil logger is chosen and reported over an outer one and the default. |
| Contextx.ChosenIsFromContext | pkg/contextx/contextx.go:148-154 | A chosen logger is the one FromContext reports. With none chosen, FromContext reports the slog adapter or nil. |
| Logx.LowerChar | pkg/logx/logx.go:67 | ASCII upper-case letters become lower case, everything else is kept, and no result is upper case. |
| Logx.ToLower | pkg/logx/logx.go:67 | Lower-casing keeps the length and lower-cases each character on its own, in place. |
| Logx.ToLowerIdempotent | pkg/logx/logx.go:67 | Lower-casing twice equals lower-casing once. |
| Logx.LevelFor | pkg/logx/logx.go:67-78 | A lower-cased name selects a level iff it is debug, info, "", warn, warning or error. |
| Logx.ParseLevel | pkg/logx/logx.go:66-79 | No error iff the lower-cased name is a level name, and the level is the one it selects. Otherwise the level is Info and the message is "unknown log level: " + the name as given. |
| Logx.WriterFor | pkg/logx/logx.go:83-90 | A lower-cased output is accepted iff it is stdout, "" or stderr, and gives standard error iff it is stderr. |
| Logx.GetWriter | pkg/logx/logx.go:82-91 | Accepts iff the lower-cased output is stdout, "" or stderr, with standard error only for stderr. Otherwise "unsupported output: " + the output. |
| Logx.FormatFor | pkg/logx/logx.go:95-102 | A lower-cased format is accepted iff it is json, "" or text, and gives Text iff it is text. |
| Logx.CreateHandler | pkg/logx/logx.go:94-103 | Accepts iff the lower-cased format is json, "" or text, keeping the writer and options. Text only for text. Otherwise "unsupported log format: " + the format. |
| Logx.DefaultConfig | pkg/logx/config.go:59-66 | Level info, format json, output stdout, no source. |
| Logx.NewFromConfig | pkg/logx/logx.go:24-45 | Succeeds iff level, output and format are all accepted. The level is checked first, then the output, then the format, and the first failure is returned prefixed with "logx: ". The handler carries the parsed level, the AddSource flag and the chosen writer. Its format is text exactly when the lower-cased format name is "text", JSON otherwise. |
| Logx.New | pkg/logx/logx.go:19-46 | A missing configuration means the defaults. Otherwise the given configuration is checked. |
| Logx.Default | pkg/logx/logx.go:60-63 | The logger New returns without a configuration: JSON on standard output at Info, without source. |
| Logx.NewWithoutConfig | pkg/logx/logx.go:19-22 | New without a configuration succeeds, with the same logger as New on the default configuration. |
| Logx.ParseLevelName | pkg/logx/logx.go:67-75 | Each configuration level name parses to its level without error. |
| Logx.ParseLevelAliases | pkg/logx/logx.go:70-72 | "" parses to Info and "warning" to Warn. |
| Logx.ParseLevelIgnoresCase | pkg/logx/logx.go:67 | A name and its lower case parse to the same level and the same success. |
| Logx.GetWriterIgnoresCase | pkg/logx/logx.go:83 | An output and its lower case are accepted alike and give the same writer. |
| Logx.CreateHandlerIgnoresCase | pkg/logx/logx.go:95 | A format and its lower case are accepted alike and give the same handler. |
| Logx.ParseLevelUpperCase | pkg/logx/logx.go:66-75 | "DEBUG" parses to Debug and "Warning" to Warn. |
| Logx.LevelCheckedFirst | pkg/logx/logx.go:24-27 | A bad level is the error reported, whatever the output and format. |
| Logx.LastIndexFrom | pkg/logx/logx.go:119 | The last occurrence starting at or before a position, or none. |
| Logx.LastIndex | pkg/logx/logx.go:119 | strings.LastIndex: an occurrence with none after it, or none anywhere. |
| Logx.ShortenSource | pkg/logx/logx.go:107-126 | Returns the attribute itself. For a source attribute, the file name becomes the trimmed path and the function and line are kept. Nothing else changes. |
| Logx.ShortenIsSuffix | pkg/logx/logx.go:118-123 | The trimmed path is a suffix of the full one. |
| Logx.ShortenWithoutMarkers | pkg/logx/logx.go:118-123 | With none of the markers in the path, the path is kept. |
| Logx.ShortenAtFirstMarker | pkg/logx/logx.go:118-123 | When marker i is the first that occurs, the path is cut just after the '/' of its last occurrence, so the result starts with that marker minus its leading '/'. |
| Response.NewMeta | internal/adapter/http/response/response.go:51-57 | The trace ID is GetTraceID of the request context: the span's when one is active. No pagination block. |
| Response.OK | internal/adapter/http/response/response.go:60-66 | Status 200, success, the given data, no error, the request's metadata. |
| Response.Created | internal/adapter/http/response/response.go:69-75 | Status 201, success, the given data, no error, the request's metadata. |
| Response.Err | internal/adapter/http/response/response.go:105-114 | The given status, no success and no data, and the error code and message without details. |
| Response.ErrWithDetails | internal/adapter/http/response/response.go:117-127 | As Err, with the details list kept in order. |
| Response.ListTotalPages | internal/adapter/http/response/response.go:84-87 | 0 when the page size is not positive. For a non-negative total, ceil(total / pageSize) in the same sense as the domain's page count. |
| Response.List | internal/adapter/http/response/response.go:83-102 | Status 200 and success. The pagination block copies page, size and total and adds the page count. |
| Response.ListAgreesWithPageResult | internal/adapter/http/response/response.go:84-87 | For pageSize ≥ 1 and a non-negative total, List's page count equals NewPageResult's. |
| Response.ListTotalPagesAsWrittenAgrees | internal/adapter/http/response/response.go:86 | Go's 64-bit page count is the exact one whenever total + pageSize - 1 does not overflow. |
| Response.ListTotalPagesOverflows | internal/adapter/http/response/response.go:86 | With total 2^63 - 1 and size 2, Go's count is -2^62, while the exact count is 2^62. |
| Response.ErrIsErrWithoutDetails | internal/adapter/http/response/response.go:105-127 | ErrWithDetails with no details equals Err. |
| Response.CreatedIsOKWith201 | internal/adapter/http/response/response.go:60-75 | Created and OK build the same body and differ only in status. |
| Middleware.RequestFields | internal/adapter/http/middleware/logging.go:24-32 | Fourteen arguments, in order: "status" and the status code, "method" and the HTTP method, "path" and the path, "query" and the raw query, "ip" and the client IP, "latency" and the latency, "user_agent" and the user agent. |
| Middleware.Logging | internal/adapter/http/middleware/logging.go:11-46 | The context's fields followed by the request fields. Recorded errors give Error with the errors' text. Otherwise status ≥ 500 gives Error "server error", 400-499 gives Warn "client error", and anything lower gives Info "request completed". |
| Middleware.LevelClassification | internal/adapter/http/middleware/logging.go:34-45 | Error iff there are errors or the status is ≥ 500. Warn iff there are no errors and 400 ≤ status < 500. Info iff there are no errors and the status is < 400. Never Debug. |
| Middleware.ErrorsOverrideStatus | internal/adapter/http/middleware/logging.go:34-37 | With recorded errors, level and message do not depend on the status. |
| Middleware.LogRequest | internal/adapter/http/middleware/logging.go:24-45 | Exactly one call reaches the logger chosen for the request's context, carrying Logging's level, message and arguments. |

## Left out

- Timestamps and latency. `newMeta`'s `Timestamp` and the middleware's latency are clock reads, so they are not modelled. The latency text is an input of `Completed`.
- `NoContent`. It writes status 204 with no body, so there is no envelope to model.
- The JSON rendering of responses and the framework's `c.JSON` call. Each helper returns the status and body it would hand over.
- The slog path of `logWithCaller` (caller PC, record, handler output), and the records slog writes through the slog adapter. The model records only that no custom logger receives the call.
- OpenTelemetry internals. The active span's trace and span IDs are an input (`SpanContext`), not read from the context.
- The `Contextx` wrapper type and its methods (`From`, `Background`, `TODO`, the method forms of the accessors). These are identity wrappers over the package functions that are modelled.
- Typed-nil loggers. A nil pointer of a concrete logger type passes Go's type assertion and would be called. The model's `NilLogger` is the nil interface only.
- Contextx.FromContext: the source describes the result as never nil. The model states it only while the default logger is not nil, because `SetDefaultLogger(nil)` makes it nil.
- Unicode case folding. `strings.ToLower` is modelled for ASCII letters only.
- A `*slog.Source` attribute holding a nil pointer. Go would panic on it; the model's source attribute always points to a source.
- `MustNew` (a panic on error) and logx's `With`, `WithGroup` and `SetAsDefault`, which are thin wrappers over log/slog. The JSON and text output formats themselves are also left out.
- The error wrappers in response/errors.go. Each passes a fixed status and code to `Err`, which is modelled.
- Process start-up, the HTTP server, the router, the trace middleware, configuration loading and OpenTelemetry setup. These are I/O, concurrency and foreign calls.
- `errorsText`, the rendering of the framework's recorded errors, is taken as an input of `Completed`.
- Go's `int` is taken to be 64 bits wide, as on the platforms the service targets. NewPageResult's conversion of the int64 total to `int` is then the identity.
- Pagination.NewPageResult: requires a page size of at least 1. Go would panic on 0. Go would also divide by a negative size without panicking; the requires excludes that case as well. Callers pass the size of a validated request.

## Findings

| source | as written | input that shows it | evidently intended | confidence | as-written member | corrected member |
|---|---|---|---|---|---|---|
| internal/domain/pagination.go:98 | `(page - 1) * pageSize` in 64-bit `int` wraps around for large pages that NewPageRequest accepts | page = 2^62 + 1, pageSize = 2 gives offset -2^63 | a non-negative offset equal to (page - 1) × pageSize | not executed | Pagination.PageRequest.OffsetAsWritten, shown by Pagination.OffsetOverflows | Pagination.PageRequest.Offset |
| internal/adapter/http/response/response.go:86 | `total + pageSize - 1` in 64-bit `int` wraps around before the division | total = 2^63 - 1, pageSize = 2 gives totalPages = -2^62 | totalPages = ceil(total / pageSize) = 2^62 | not executed | Response.ListTotalPagesAsWritten, shown by Response.ListTotalPagesOverflows | Response.ListTotalPages |
