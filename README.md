# PageRenderAPI core, modelled in Dafny

PageRenderAPI is a GraphQL API that stores rendered web pages (JPEG, PDF,
PNG or WEBP files of a site) in PostgreSQL and an S3 object store. This
project models the layer that turns query and mutation arguments into
validation verdicts, SQL fragments, repository outcomes and tagged error
results, and proves what that layer promises.

The model has one module per source file:

- `Validation` (`validation.dfy`) covers `src/utils/validation.ts`. It holds:
  - the predicate-based validators built by `validateInput`;
  - the UUID shape check, with the 8-4-4-4-12 hex layout of section 3 of RFC 4122;
  - the `full-date` check of section 5.6 of RFC 3339, with the Gregorian leap-year rule;
  - the collect-all `validate`, modelled as an `Outcome` value instead of a throw.
- `DateFilters` (`date_filter.dfy`) covers `DateFilter.exec`. `TypeEnumFilters` (`type_enum_filter.dfy`) covers `TypeEnumFilter.exec`.
- `Errors` (`errors.dfy`) and `WrappedErrors` (`wrapped_error.dfy`) cover the three domain errors and the `{ _tag: 'WrappedError', err }` envelope. `instanceof` is modelled as equality of the error's class.
- `Database` (`database.dfy`) covers `src/providers/database.ts`. It holds:
  - the pure builders `buildSort`, `buildFilters`, `buildQueryOptions` and `buildUpdateFields`;
  - a `Database` class with a `pages` table (id → page) and a ghost log of connect, send and end events. Its invariant `Valid()` says every row is stored under its own id, and every method keeps it;
  - the CRUD methods, which turn row sets into pages or errors.

  The PostgreSQL server is modelled by `Execute`. The stored pagination functions, the value of `CURRENT_DATE` and the id of a new row are parameters of the server (`Server`).
- `Queries` (`queries.dfy`) and `Mutations` (`mutations.dfy`) cover the resolvers. For each one the model gives:
  - the list of checks, accumulated in the source's order;
  - the exact condition under which `validate` lets the resolver go on;
  - the database calls made after that, with none made after a validation failure;
  - the wrapped error returned for every failure.
- `Storage` (`storage.dfy`) covers `getContentType`, and maps every failed `send` of `uploadNew`, `uploadNewVersion` and `delete` to an `UnknownError`. The object store is a map from key to object. Whether each `send` succeeds is a parameter.

Helper modules: `Wrappers` (`Option`, `Result`, `Outcome`), `Text` (join, lower case, decimal text), `Js` (the JavaScript values the validators see, `String(v)` and integral `Number(v)`) and `Types` (the GraphQL input and output shapes, and their JavaScript views).

## Model

| member | source | states |
|---|---|---|
| Validation.ValidateInput | src/utils/validation.ts:4-16 | null exactly when the predicate holds; otherwise `{field: inputName, message: String(v) + " " + errorMsg}` |
| Validation.ValidateUrl | src/utils/validation.ts:18-27 | null exactly when `String(v)` is a URL; otherwise the field with "… is not a valid URL" |
| Validation.ExampleIsNoURL | src/utils/validation.ts:18-27 | `example` is not a URL |
| Validation.ExampleUrlFails | tests/utils/validation.test.ts:30-36 | `validateUrl('example', 'url')` gives `{url, "example is not a valid URL"}` |
| Validation.ValidateUUID | src/utils/validation.ts:29-35 | null exactly when `String(v)` passes the UUID check; otherwise "… is not a valid UUID" |
| Validation.UUIDTextAccepted | src/utils/validation.ts:29-34 | five hex groups of lengths 8-4-4-4-12 joined by `-` are accepted with or without `{` and with or without `}`, each independently |
| Validation.UUIDAcceptedIsText | src/utils/validation.ts:29-34 | every accepted text is exactly such a writing of five well-formed hex groups |
| Validation.UUIDWrongLastGroupRejected | src/utils/validation.ts:29-34 | a last group of any length other than 12 is rejected |
| Validation.UUIDTextBounds | src/utils/validation.ts:29-34 | on text written from hex groups, the braces `isUUID` strips are exactly those written around it |
| Validation.ShortUUIDRejected | src/utils/validation.ts:29-34 | the 35-character id from the tests is not a UUID |
| Validation.ShortUUIDFails | src/utils/validation.ts:29-35 | that id fails `validateUUID` with "… is not a valid UUID" |
| Validation.ValidateDate | src/utils/validation.ts:40-74 | null exactly when `String(v)` passes `isDate`; otherwise "… is not a valid Date" |
| Validation.IsDateMeansCalendarDate | src/utils/validation.ts:37-72 | `isDate` holds iff the text has the `DDDD-MM-DD` shape and names a Gregorian calendar date: February has 29 days in a leap year (divisible by 4 and not by 100, or by 400) and 28 otherwise; April, June, September and November have 30; the other months have 31 |
| Validation.MonthLimitIsCalendar | src/utils/validation.ts:53-72 | for a month in 1..12 and a day in 1..31, the day checks of `isDate` pass iff the day is within the Gregorian length of that month |
| Validation.AcceptedDateIsFormatted | src/utils/validation.ts:44-51 | every accepted text is the zero-padded `YYYY-MM-DD` writing of a calendar date, so `2022/11/13` and `2022.11.13` fail |
| Validation.FormattedDateAccepted | src/utils/validation.ts:40-72 | a zero-padded date text is accepted iff it names a calendar date |
| Validation.ValidateNumber | src/utils/validation.ts:76-77 | null exactly when `Number(v)` is an integer; otherwise "… is not a Number" |
| Validation.ValidateGreaterOrEqualThan0 | src/utils/validation.ts:79-80 | null exactly when `Number(v)` is an integer ≥ 0; otherwise "… is not greater or equal than 0" |
| Validation.ValidateNotNull | tests/utils/validation.test.ts:124-130 | null exactly for non-null values; for null, "null is not a valid value" |
| Validation.ValidateEmpty | tests/utils/validation.test.ts:141-159 | null exactly for a number or a non-empty string, array or object; otherwise "… cannot be empty" |
| Validation.ValidateInRange | tests/utils/validation.test.ts:90-101 | null exactly when `Number(v)` is an integer within `[min, max]` (defaults 0 and `MAX_SAFE_INTEGER`); otherwise `String(v)` and the range message |
| Validation.RangeMessageLowerOnly | tests/utils/validation.test.ts:94-97 | `10` against `{min: 11}` gives "10 should be greater than or equal 11" |
| Validation.RangeMessageBothBounds | tests/utils/validation.test.ts:98-101 | `10` against `{min: 11, max: 15}` gives "10 should be between 11 and 15" |
| Validation.ValidateLength | src/resolvers/queries.ts:102-106 | null exactly when `v` is a string or array of length ≥ min |
| Validation.FailuresAppend | src/utils/validation.ts:83 | filtering out the nulls distributes over concatenation |
| Validation.FailuresEmptyIff | src/utils/validation.ts:83-87 | nothing remains after filtering exactly when every entry is null |
| Validation.Validate | src/utils/validation.ts:82-93 | passes iff every entry is null. Otherwise it fails with an `InvalidInputError` whose `validations` are the non-null entries in input order and whose message is "Input validation failed for fields: [" + their fields joined by ", " + "]" |
| Validation.ValidateOneFailure | src/utils/validation.ts:89-92 | with exactly one failing entry, the message names that field alone |
| Validation.ValidationMessageOfThree | src/utils/validation.ts:89-90 | the message of three failures names their fields in order, separated by ", " |
| Validation.ValidateThreeFailures | src/utils/validation.ts:89-92 | three failing entries are all reported, in order, with the three fields in the message |
| Validation.ValidateReportsEveryField | tests/utils/validation.test.ts:169-179 | a bad URL, a short UUID and an empty array fail together with the message "… [url, id, empty]" |
| Validation.IsNil | src/utils/validation.ts:95-97 | `isNil` holds exactly for null and undefined, and `isUndefined(null)` is false |
| DateFilters.Exec | src/utils/filters/dateFilter.ts:7-27 | the condition built by pushing fragments equals `DateCondition`: none for an undefined filter, else the fragments joined by " AND " |
| DateFilters.Fragments | src/utils/filters/dateFilter.ts:12-24 | a date filter yields at most two fragments |
| DateFilters.DateConditionNoneIff | src/utils/filters/dateFilter.ts:26 | no condition iff the filter is undefined or has none of `gt`, `gte`, `lt`, `lte` as a key |
| DateFilters.InclusiveBoundsWin | src/utils/filters/dateFilter.ts:14-24 | with `gte` and `lte` present, `gt` and `lt` do not affect the condition, which is `date >= '…' AND date <= '…'` |
| DateFilters.BothBoundsJoined | src/utils/filters/dateFilter.ts:12-26 | with both bounds, the lower fragment comes first, joined by " AND " |
| DateFilters.SingleBoundAlone | src/utils/filters/dateFilter.ts:26 | with one bound, the condition is that fragment alone |
| DateFilters.MonthRange | src/utils/filters/dateFilter.ts:14-26 | `{gte: '2023-01-01', lt: '2023-02-01'}` gives `date >= '2023-01-01' AND date < '2023-02-01'` |
| DateFilters.InclusiveFromStrictTo | src/utils/filters/dateFilter.ts:14-26 | `{gte: a, lt: b}` gives `date >= 'a' AND date < 'b'` for any texts `a` and `b` |
| TypeEnumFilters.Exec | src/utils/filters/typeEnumFilter.ts:7-24 | no condition iff the filter is undefined or has none of the four keys; a present `eq` gives `type = '…'` |
| TypeEnumFilters.QuotedNames | src/utils/filters/typeEnumFilter.ts:18 | each type of the list is single-quoted, in list order |
| TypeEnumFilters.EqShadowsRest | src/utils/filters/typeEnumFilter.ts:12-14 | a present `eq` decides the condition whatever `ne`, `in` and `nin` hold |
| TypeEnumFilters.NeShadowsLists | src/utils/filters/typeEnumFilter.ts:15-16 | without `eq`, a present `ne` gives `type <> '…'` whatever the lists hold |
| TypeEnumFilters.InShadowsNin | src/utils/filters/typeEnumFilter.ts:17-18 | without `eq` and `ne`, a list under `in` gives `type IN (…)` whatever `nin` holds |
| TypeEnumFilters.NinAlone | src/utils/filters/typeEnumFilter.ts:19-20 | with only a list under `nin`, the condition is `type NOT IN (…)` over that list, quoted and comma-joined |
| TypeEnumFilters.NinOneType | tests/utils/filters/typeEnumFilter.test.ts:26-31 | `{nin: [PDF]}` gives `type NOT IN ('PDF')` |
| TypeEnumFilters.QuotedListRoundTrip | src/utils/filters/typeEnumFilter.ts:18 | the quoted, comma-joined list reads back to the list of types |
| TypeEnumFilters.QuotedListInjective | src/utils/filters/typeEnumFilter.ts:18-20 | different lists of types render differently |
| TypeEnumFilters.InTwoTypes | src/utils/filters/typeEnumFilter.ts:17-18 | `{in: [JPEG, PNG]}` gives `type IN ('JPEG','PNG')` |
| Errors.InstanceOfUnique | src/utils/errors/errors.ts:4-10 | no error is an instance of two of the three domain classes |
| Errors.NewNotFoundError | src/utils/errors/errors.ts:4 | a `NotFoundError` that keeps its message |
| Errors.NewUnknownError | src/utils/errors/errors.ts:5 | an `UnknownError` that keeps its message |
| Errors.NewInvalidInputError | src/utils/errors/errors.ts:10-17 | an `InvalidInputError` that keeps its message and its `validations` exactly as passed; its cause is a plain `Error` |
| Errors.NewErrorWithCause | src/utils/errors/errors.ts:19-21 | for `NotFoundError` and `UnknownError`, an error of that class with `e`'s message and cause `e` |
| WrappedErrors.Wrap | src/utils/errors/wrapped-error.ts:12-15 | tag `'WrappedError'`; carries the error unchanged |
| WrappedErrors.IsWrappedErrorOfWrap | src/utils/errors/wrapped-error.ts:17-22 | `isWrappedError(C)(wrappedError(e))` iff `e` is of class C |
| WrappedErrors.PlainValueIsNoWrappedError | src/utils/errors/wrapped-error.ts:20 | a plain resolver value never satisfies `isWrappedError` |
| WrappedErrors.WrappedErrorDispatch | src/utils/errors/wrapped-error.ts:17-22 | for a domain error, exactly one of the three predicates holds; for any other error, none does |
| WrappedErrors.WrappedErrorMessage | src/utils/errors/wrapped-error.ts:24-27 | the `message` field of `wrappedError(e)` is `e.message` |
| WrappedErrors.ErrorTypesCommonResolvers | src/utils/errors/wrapped-error.ts:29-32 | `__isTypeOf` is `isWrappedError(C)`, and `message` reads the wrapped error's message |
| Database.BuildSortRoundTrip | src/providers/database.ts:88-90 | the sort clause is the lower-cased column, one space, then the order, and it reads back to the sort input |
| Database.ParseSortOf | src/providers/database.ts:88-90 | a four-letter known column, one space and a known order read back as that sort |
| Database.BuildFilters | src/providers/database.ts:92-106 | the conditions are the date condition, then the type condition, each only if not null |
| Database.FiltersOfEmptyIff | src/providers/database.ts:92-106 | at most two conditions; none iff neither sub-filter holds a key that produces one |
| Database.QueryOptionsOf | src/providers/database.ts:108-134 | options are null only when both filter and sort are null; when non-null, they carry a sort or filters |
| Database.BuildQueryOptions | src/providers/database.ts:108-134 | the options the branches build: null, sort only, filters only, or both; a non-null filter always gives a `filters` key, even an empty one |
| Database.BuildUpdateFields | src/providers/database.ts:183-199 | the SET list is the `column = 'value'` items of the non-null `site`, `type` and `file`, in that order, joined by "," |
| Database.AssignedUpdateAssignments | src/providers/database.ts:183-196 | the items set exactly the given, non-null fields |
| Database.UpdateAssignmentsDetermineFields | src/providers/database.ts:183-196 | two updates with the same items ask for the same change |
| Database.SetItemsRoundTrip | src/providers/database.ts:183-199 | a list of quote-free items joined by "," reads back to those items |
| Database.SetClauseReadsBack | src/providers/database.ts:183-199 | the SET list of quote-free values reads back to exactly the given, non-null columns; with no columns, to nothing |
| Database.SetClauseCollides | src/providers/database.ts:186-188 | a site holding a quote yields the same SET list as a different update that also sets `type` |
| Database.ApplySetsAssigned | src/providers/database.ts:203 | applying SET items changes exactly the columns they assign, the last item of a column winning; id and date are kept |
| Database.UpdateSetsRequestedColumns | src/providers/database.ts:201-204 | an update changes exactly the given, non-null columns of the row |
| Database.ExecuteKeepsKeys | src/providers/database.ts:173-226 | no statement breaks the keying of the table by id, and a statement naming a row by id answers with that row only |
| Database.FirstPage | src/providers/database.ts:79-85 | the first row if there is one, else `NotFoundError("Page with <id> not found")` |
| Database.Database.Connect | src/providers/database.ts:51-55 | a fresh client on every connect; the log records whether it connected |
| Database.Database.End | src/providers/database.ts:57-59 | the client is closed and the log records the end |
| Database.Database.Query | src/providers/database.ts:62-75 | succeeds iff the link is up and the server answers. Any failure is `UnknownError('Unknown error occurred')` and leaves the table unchanged. The log is connect, send (unless the connection was refused) and end, on both paths |
| Database.Database.Send | src/providers/database.ts:66 | on an open connection the statement and its values are logged as sent; a rejected query or a statement the server cannot answer fails with `UnknownError` and leaves the table alone; otherwise the server's rows are returned and its new table kept |
| Database.Database.GetPage | src/providers/database.ts:77-86 | the stored page, whose id is the one asked for; `NotFoundError` with no row; `UnknownError` on a failed query; table unchanged |
| Database.Database.GetPages | src/providers/database.ts:136-151 | the rows of `paginationSelect` with parameters first, last, before, after, options in that order |
| Database.Database.GetPageInfo | src/providers/database.ts:153-172 | the `paginationinfo` of the first row, or `UnknownError('Could not get page info')` when there is none |
| Database.Database.CreatePage | src/providers/database.ts:174-181 | inserts and returns the row with type, site, file `'file'`, today's date and a fresh id |
| Database.Database.UpdatePage | src/providers/database.ts:201-213 | sets today's date and the SET list's columns on the stored row and returns it, with the id asked for; `NotFoundError` with no row; the table stays keyed by id |
| Database.Database.DeletePage | src/providers/database.ts:215-226 | removes and returns the stored row, with the id asked for; `NotFoundError` with no row; the table stays keyed by id |
| Storage.GetContentType | src/providers/storage.ts:38-49 | total: JPEG, PDF, PNG and WEBP map to `image/jpeg`, `application/pdf`, `image/png` and `image/webp`, and the content type reads back to the page type |
| Storage.ContentTypeInjective | src/providers/storage.ts:10-15 | distinct page types have distinct content types |
| Storage.Storage.Upload | src/providers/storage.ts:55-65 | sends a private `PutObject` to the bucket with that key, body and content type; the object is stored when the send succeeds |
| Storage.Storage.UploadNew | src/providers/storage.ts:67-82 | uploads under the generated key with the page type's content type and returns that key; a failed send is `UnknownError('Unknown error occurred')` and nothing is stored |
| Storage.Storage.UploadNewVersion | src/providers/storage.ts:84-95 | writes under exactly the given key with the given type's content type; a failed send is `UnknownError('Unknown error occurred')` |
| Storage.Storage.Delete | src/providers/storage.ts:97-109 | sends `DeleteObject` for the key and removes it; a failed send is `UnknownError('Unknown error occurred')` |
| Queries.CollectDateEntryChecks | src/resolvers/queries.ts:83-92 | the loop over the date entries pushes the not-null and date checks of `filter.date.<key>` for each entry, in order |
| Queries.CollectTypeEntryChecks | src/resolvers/queries.ts:98-108 | the loop over the type entries pushes a not-null check per entry, plus a length ≥ 1 check for keys ending in `in` |
| Queries.CollectDateChecks | src/resolvers/queries.ts:80-93 | nothing for an undefined date filter; otherwise its not-null check, then its entries' checks when it is not null |
| Queries.CollectTypeChecks | src/resolvers/queries.ts:95-109 | the same for the type filter |
| Queries.CollectFilterChecks | src/resolvers/queries.ts:77-110 | the filter's not-null check, then its date and type checks (a null filter: see Findings) |
| Queries.CollectPagesChecks | src/resolvers/queries.ts:33-114 | the checks of `after`, `before`, `first`, `last`, `filter` and `sort`, in that order; an undefined argument adds none |
| Queries.CursorChecksPass | src/resolvers/queries.ts:35-51 | a cursor's checks pass iff it is undefined or a UUID |
| Queries.CountChecksPass | src/resolvers/queries.ts:53-75 | a page size's checks pass iff it is undefined or an integer in `[0, 10000]` |
| Queries.BoundChecksPass | src/resolvers/queries.ts:84-91 | a date bound's checks pass iff it is undefined or a valid date |
| Queries.DateEntriesPass | src/resolvers/queries.ts:84-91 | a date filter's entries pass iff every bound given is a valid date |
| Queries.ScalarTypeChecksPass | src/resolvers/queries.ts:99-101 | an `eq`/`ne` entry passes iff it is not null |
| Queries.ListTypeChecksPass | src/resolvers/queries.ts:99-106 | an `in`/`nin` entry passes iff it is a list with at least one type |
| Queries.TypeEntriesPass | src/resolvers/queries.ts:99-107 | a type filter's entries pass iff `eq`/`ne` are not null and the lists are non-empty |
| Queries.DateChecksPass | src/resolvers/queries.ts:80-93 | the date checks pass iff the date filter is undefined or a valid object |
| Queries.TypeChecksPass | src/resolvers/queries.ts:95-109 | the type checks pass iff the type filter is undefined or a valid object |
| Queries.FilterChecksPass | src/resolvers/queries.ts:77-110 | the filter checks pass iff the filter is undefined or an object whose parts are valid |
| Queries.PagesChecksPassIff | src/resolvers/queries.ts:33-116 | `validate` lets `pages` go on iff cursors are UUIDs, sizes lie in `[0, 10000]`, date bounds are dates, type lists are non-empty, and nothing given is null |
| Queries.ValidArgsRenderable | src/resolvers/queries.ts:116-131 | accepted arguments never hand the query builders a null sub-filter |
| Queries.ValidatePagesArgs | src/resolvers/queries.ts:33-116 | the outcome of `validate` on the collected checks; it passes iff the arguments are accepted |
| Queries.CheckCursor | src/resolvers/queries.ts:118-123 | fetches the page of `after` if given, else that of `before`, else nothing; never both |
| Queries.Edges | src/resolvers/queries.ts:125-129 | one edge per page, in the order returned, with `cursor = node.id` |
| Queries.FetchPages | src/resolvers/queries.ts:125-135 | the edges of `getPages` and the page info of `getPageInfo`, or the first of their errors; the log holds `getPages`' query, and `getPageInfo`'s only when `getPages` succeeded |
| Queries.ResolvePage | src/resolvers/queries.ts:12-26 | an invalid id gives a wrapped `InvalidInputError` and no database call; otherwise `getPage`'s page, with the id asked for, or its error, wrapped |
| Queries.ResolvePages | src/resolvers/queries.ts:27-141 | rejected arguments give the wrapped validation error with no database call. Otherwise: the existence check, then the page window and page info. Every failure is returned wrapped, and the table never changes. The log holds exactly the queries made: none after a validation failure, no read after a failed existence check, no page-info query after a failed `getPages` |
| Queries.ResolveAcceptedPages | src/resolvers/queries.ts:118-137 | for accepted arguments: a failed existence check, a missing cursor page, a failed read or a missing page info each give their wrapped error; otherwise the window as edges with its page info. The table never changes. The log is the existence check, then the read only if the check passed, on every path |
| Queries.NullBeforeChecks | src/resolvers/queries.ts:44-51 | `before: null` yields both "null is not a valid value" and "null is not a valid UUID" for `before` |
| Queries.PageSizeRangeMessage | src/resolvers/queries.ts:70-72 | the range `{min: 0, max: 10000}` reports "should be greater than or equal 0" |
| Queries.NegativeLastChecks | src/resolvers/queries.ts:65-75 | `last: -1` passes not-null and number checks and fails with "-1 should be greater than or equal 0" |
| Queries.NullBeforeNegativeLastFailures | tests/resolvers/queries/pages.test.ts:119-132 | the failing entries of `pages(before: null, last: -1)` are the two `before` entries, then the `last` entry |
| Queries.NullBeforeNegativeLast | tests/resolvers/queries/pages.test.ts:116-135 | that request fails validation with exactly those three entries, and the message names `before` twice: "Input validation failed for fields: [before, before, last]" |
| Queries.PagesChecksAsWritten | src/resolvers/queries.ts:77-80 | as written, a null filter throws while reading `filter.date` instead of reaching `validate` |
| Queries.NullFilterUnrecognisedAsWritten | src/resolvers/queries.ts:77-80 | as written, `pages(filter: null)` returns a wrapped `TypeError` that none of the error object types recognises |
| Queries.NullFilterReported | src/resolvers/queries.ts:77-78 | with the null filter guarded, `pages(filter: null)` is a wrapped `InvalidInputError` naming `filter` |
| Mutations.ResolveCreatePage | src/resolvers/mutations.ts:14-28 | a site that is not a URL gives a wrapped `InvalidInputError` for `input.site` and no database call; otherwise the inserted page or a wrapped error |
| Mutations.CollectUpdatePageChecks | src/resolvers/mutations.ts:35-51 | the checks are the id UUID check, then input non-empty, then site (not null, URL) if defined, then type (not null) if defined |
| Mutations.UpdatePageChecksPassIff | src/resolvers/mutations.ts:35-53 | `validate` lets `updatePage` go on iff the id is a UUID, the input has a key, a given site is a URL, and a given type is not null |
| Mutations.UpdateHeadPassIff | src/resolvers/mutations.ts:37-38 | the id and key checks of `updatePage` pass iff the id is a UUID and the input has a key |
| Mutations.UpdateSitePassIff | src/resolvers/mutations.ts:40-47 | the site checks of `updatePage` pass iff the site is absent or a URL |
| Mutations.ValidateUpdatePage | src/resolvers/mutations.ts:35-53 | the outcome of `validate`; it passes iff the update is accepted |
| Mutations.ResolveUpdatePage | src/resolvers/mutations.ts:29-59 | a rejected update gives the wrapped validation error and no database call. An accepted one updates with `file` overridden to `'file'`. Every failure is returned wrapped |
| Mutations.AcceptedUpdateSetsColumns | src/resolvers/mutations.ts:55 | an accepted update with a quote-free site sets today's date, the given site and type, and file `'file'`; it keeps the id and any column not given |
| Mutations.ResolveDeletePage | src/resolvers/mutations.ts:60-74 | an invalid id gives a wrapped `InvalidInputError` and no database call; otherwise the deleted page or a wrapped error |

## Left out

- Validation.ValidateUrl: `isURL` depends on the platform's WHATWG `URL` parser, so the model uses an approximation. It accepts a scheme (a letter, then letters, digits, `+`, `-` or `.`) followed by `:`. Special schemes such as `http` also need a non-empty host after the slashes. It agrees with the unit tests' cases but not with the full URL standard.
- Validation.ValidateNumber: JavaScript `Number` coercion is restricted to integers. Numbers in the model are integers, so floats, `NaN` and `Infinity` are not represented. Text other than an optional sign and decimal digits counts as not an integer, even where `Number` would give one (`'1.0'`, `' 12'`, `'0x10'`, `'1e3'`).
- Validation.ValidateGreaterOrEqualThan0: the same restriction to integral values.
- Validation.ValidateNotNull, Validation.ValidateEmpty, Validation.ValidateInRange, Validation.ValidateLength: these validators are defined in a file that is not part of this model, so their predicates and messages follow the unit tests.
  - The `validateInRange` message names both bounds only when `min` and `max` are both truthy, so a `0` bound falls back to "should be greater than or equal 0". This rule is reconstructed: it is the one that satisfies both the unit test ("10 should be between 11 and 15") and the `pages` test ("-1 should be greater than or equal 0").
  - The `validateLength` message ("should have a length greater than or equal N") is assumed, because no test shows it.
- Queries.NullBeforeNegativeLast: the model follows the code (src/utils/validation.ts:89-90), which names the field of every failing entry, so the message is "Input validation failed for fields: [before, before, last]". The `pages` test expects "[before, last]" (tests/resolvers/queries/pages.test.ts:119) for the same three entries. Which of the two is intended is not evident from the source, so no corrected message is modelled.
- DateFilters.Exec: a `null` date filter is excluded, because the source throws a `TypeError` at `'gte' in null` (src/utils/filters/dateFilter.ts:14). `pages` rejects it before any filter is built (Queries.ValidArgsRenderable, Queries.DateChecksPass).
- Database.Execute, Database.Database.GetPage, Database.Database.UpdatePage, Database.Database.DeletePage, Queries.ResolvePage, Queries.CheckCursor, Mutations.ResolveUpdatePage and Mutations.ResolveDeletePage: ids are matched as exact text. The column type of `pages.id` is not part of this model. If it is a PostgreSQL `uuid`, the server would also find a row by an upper-case or braced id (which `isUUID` accepts) and return it under its stored lower-case id; the model instead answers `NotFoundError` for such an id.
- Pagination windowing, `hasNextPage`/`hasPreviousPage` and cursor order are computed by the stored procedures `paginationSelect` and `paginationInfo`, which are not part of this model. They are opaque functions of the server (`Server.paginate`, `Server.paginationInfo`).
- External I/O is left out:
  - the pg connection is reduced to a `Link` parameter (up, connect refused, query rejected);
  - each S3 `send` is reduced to a success flag;
  - `console.error` is dropped.
- Storage.Storage.UploadNew: `generateKey` (a random v4/v5 UUID) is not modelled; the key is a parameter.
- `generatePresignedURL` (src/providers/storage.ts:111-118) is left out because it only signs a URL with the S3 client.
- Also left out:
  - the Puppeteer renderer (src/providers/render.ts);
  - bootstrap (src/utils/setup.ts, src/index.ts);
  - the generated resolver plumbing;
  - the mocks.
- Injection safety is not proved. SQL text is modelled exactly as built, with raw values interpolated. `Database.SetClauseCollides` shows that a site holding a quote makes the same SET list as a different update.
- Database.SetItemsRoundTrip, Database.SetClauseReadsBack and Mutations.AcceptedUpdateSetsColumns hold only for quote-free values. The model's server reads a SET list (`ParseSetItems`) item by item, up to the closing quote of each value. A value holding a quote is therefore either rejected or read as different items.
- Database.FirstPage, Database.Database.GetPage, Database.Database.UpdatePage and Database.Database.DeletePage: `rows.at(0)` is taken as the page itself. Column types (`Date` objects, enum strings) are not distinguished from the model's `Page` fields.
- Errors.NewErrorWithCause: the class `InvalidInputError` is excluded. Given that class, `newErrorWithCause` calls its three-argument constructor (src/utils/errors/errors.ts:13-15). That constructor stores `{ cause: e }` as the `validations` and takes a fresh `Error()` as the cause. This path is not modelled; the source never uses it.
- TypeEnumFilters.Exec: `in: null` and `nin: null` are excluded by `Renderable`, because the source throws a `TypeError` at `null.map` there (src/utils/filters/typeEnumFilter.ts:18,20). `pages` rejects both before any filter is built (Queries.ValidArgsRenderable, Queries.ListTypeChecksPass).
- Types.DateFilterEntries and Types.TypeFilterEntries yield the keys in the order the generated types declare them (src/__generated__/resolvers-types.ts:44-53 and 159-168): `gt`, `gte`, `lt`, `lte` and `eq`, `in`, `ne`, `nin`. `Object.entries` actually yields keys in insertion order, which the GraphQL layer's input coercion decides; that layer is not part of this model. This order fixes the order of the entry checks and of the field names in the validation message.
- The database's `pages` table is keyed by its `id` primary key. The model states this as `Database.KeyedById`; the class invariant `Valid()` requires it of the initial table, and every method keeps it.
- The asynchronous `await` sequencing is modelled as ordinary sequential method calls.

## Findings

| source | as written | input that shows it | evidently intended | confidence | as-written member | corrected member |
|---|---|---|---|---|---|---|
| src/resolvers/queries.ts:77-80 | after pushing `validateNotNull(filter, 'filter')`, `pages` reads `queryPagesArgs.filter.date` whatever the filter is | `pages(filter: null)`: `null.date` throws a `TypeError` before `validate` runs. The resolver returns it wrapped, and no error object type recognises it | a null filter is reported as an invalid input for `filter` (as by `filter?.date`) | not executed | Queries.NullFilterUnrecognisedAsWritten | Queries.NullFilterReported |

`Queries.PagesChecksAsWritten` models the checks as written. `Queries.FilterChecks`, used by the rest of the model, stops after the null check of a null filter.
