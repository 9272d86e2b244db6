# Subscription service — a Dafny model

This project models the core of a small Go REST service that stores users' online
subscriptions (a service name, a monthly price in roubles, a user id, a start month and an
optional end month) in a Postgres `subscriptions` table. It reports how much a set of
subscriptions costs over a window of months.

The model follows the program's layers, one Dafny module each:

- `Calendar` (calendar.dfy): month-granular dates, the month index `year * 12 + month`,
  and the `MM-YYYY` parser (Go's `time.Parse("01-2006", s)`).
- `Models` (models.dfy): the records, the requests and filters, and the binding rules
  of the request bodies.
- `SqlPattern` (sql_pattern.dfy): the `ILIKE` match the name filter uses.
- `Queries` (queries.dfy): the clause builders of the list and cost queries, written
  imperatively. They append conditions and arguments and move a running placeholder
  number on.
- `Proration` (proration.dfy): the per-row cost formula of the cost query, its WHERE
  clause, and the sum over the table.
- `Table` (table.dfy): the table as a value. It defines what INSERT, SELECT by id,
  UPDATE, DELETE, the ordered and paged list query, and the locked read-modify-write
  do to it.
- `Repository` (repository.dfy): the `SubscriptionStore` class over a
  `map<Uuid, Subscription>` field. Its methods are proved against the `Table`
  functions and the cost sum.
- `Service` (service.dfy): the checks and the record built by Create, the
  field-by-field patch of Update, and the currency wrap of the total.
- `Decimal` (decimal.dfy): `parseQueryInt`, that is `strconv.Atoi`.
- `Handler` (handler.dfy): the HTTP handlers. This covers the list-filter defaults,
  the cost-query parameter checks, and the mapping from error to status code.

Each database statement takes a `dbError` argument standing for a driver failure. When it
is given, the statement reports it wrapped with the operation's name and changes nothing.
`time.Now()` and `uuid.New()` are parameters. `uuid.Parse` is a function the service and
the handler are given.

Some behaviour of the code is worth knowing before reading the model:

- The cost is not clamped at zero. A row whose end month is before its start month, or a
  window whose start is after its end, contributes a negative amount.
  `Proration.InvertedRowAddsNegative` and `Proration.InvertedWindowAddsNegative` show a
  charge of -200. Non-negativity is proved only for well-ordered rows of non-negative
  price in a well-ordered window (`Proration.TotalCostNonNegative`). The binding rules
  keep every price written through the handlers at 1 or more (`Service.BoundRowsTotalNonNegative`).
  Nothing checks the two date orderings.
- Every 500 answer carries the error's own text (`err.Error()`), storage causes included
  (`Handler.ServerError`, `Handler.ErrorResponse`).
- Create and Update report a request date that does not parse as 500, not 400, because the
  handlers map every service error other than not-found to 500.
- The service's `Update` reads the row, patches it and writes it back in two separate
  statements (internal/service/subscription.go:91-124). Its unit tests mock
  `UpdateAtomically` instead. The model follows the code. `Service.UpdatePathIsAtomicUpdate`
  proves that, with no concurrent writer, both paths give the same result and the same
  table.
- `UpdateAtomically` is declared in the repository interface but has no implementation in
  the repository file. Its sequential contract is taken from its tests.

## Model

| member | source | states |
|---|---|---|
| Calendar.NotAfterIsIndexOrder | internal/repository/subscription.go:207-213 | comparing two first-of-month timestamps is comparing their month numbers, and equal month numbers mean equal dates |
| Calendar.Least | internal/repository/subscription.go:207-208 | `LEAST` returns one of its arguments and is not after either |
| Calendar.Greatest | internal/repository/subscription.go:209-210 | `GREATEST` returns one of its arguments and is not before either |
| Calendar.ParseMonthYear | internal/service/subscription.go:157-159 | an accepted `MM-YYYY` text has a four-digit year and prints back as exactly the same text |
| Calendar.FormatThenParse | internal/service/subscription.go:157-159 | every date with a four-digit year survives formatting and parsing |
| Calendar.ParseMonthYearExamples | internal/service/subscription_test.go:123-139 | "01-2025" is January 2025; "2025-01", "13-2025" and "invalid" are refused |
| Models.EmptyCreateRequestDoesNotBind | internal/integration/subscription_integration_test.go:231-237 | a create body with an empty name and price 0 fails the binding rules |
| Models.JsonKeys | internal/models/subscriptions.go:9-18 | `end_date` appears in a subscription's JSON exactly when it has an end date; every other field always appears |
| SqlPattern.PercentMatchesAnything | internal/repository/subscription.go:98-101 | the pattern `%` matches every text |
| SqlPattern.LiteralPrefix | internal/repository/subscription.go:98-101 | a wildcard-free text followed by `%` matches exactly the texts starting with it, ignoring case |
| SqlPattern.LeadingPercent | internal/repository/subscription.go:98-101 | a leading `%` lets the rest of the pattern match from any position |
| SqlPattern.ContainsPattern | internal/repository/subscription.go:98-101 | for a name without wildcards, `ILIKE '%' + name + '%'` holds exactly when the name occurs in the text, ignoring case |
| SqlPattern.UnderscoreInFilterMatchesAnyCharacter | internal/repository/subscription.go:225-228 | the filter value is not escaped: the name filter "a_c" selects "abc", which does not contain "a_c" |
| Queries.ConditionSlots | internal/repository/subscription.go:92-102 | one placeholder per condition, in the order of the conditions |
| Queries.BuildSelectQuery | internal/repository/subscription.go:82-119 | placeholders are `$1..$n` in order with exactly n arguments; the conditions hold exactly for the rows the optional user and name filters select; LIMIT only for a positive limit and OFFSET only for a positive offset, each bound to its value |
| Queries.BuildCostQuery | internal/repository/subscription.go:199-232 | placeholders are `$1..$n` with n arguments; `$1` is the window end and `$2` the window start; the extra conditions hold exactly for the selected rows |
| Proration.BilledMonthsByIndex | internal/repository/subscription.go:206-211 | the billed months are the last month of overlap minus the first, plus one, in month numbers |
| Proration.CountedRowAddsAtLeastPrice | internal/repository/subscription.go:206-213 | a well-ordered row passing the WHERE clause of a well-ordered window is billed at least one month and adds at least its price |
| Proration.CoveringRowBillsWholeWindow | internal/repository/subscription.go:206-211 | a row covering the window is billed for every month of it |
| Proration.DisjointRowAddsNothing | internal/repository/subscription.go:213 | a row starting after the window or ending before it is filtered out and adds 0 |
| Proration.ContributionGrowsWithPrice | internal/repository/subscription.go:206 | for a positive number of billed months, a higher price adds strictly more |
| Proration.InvertedRowAddsNegative | internal/repository/subscription.go:206-213 | a row whose end precedes its start passes the filter and adds a negative amount |
| Proration.InvertedWindowAddsNegative | internal/repository/subscription.go:206-213 | a window whose start follows its end lets an open row through with a negative amount |
| Proration.WorkedExamples | internal/repository/subscription.go:206-213 | a year at 400 costs 4800, one month of it 400, a later start 0, and six months at 300 cost 1800 |
| Proration.SumChargesPick | internal/repository/subscription.go:206 | the sum does not depend on the order the rows are visited in |
| Proration.SumChargesFrame | internal/repository/subscription.go:206 | the sum reads only the rows it names |
| Proration.SumChargesZero | internal/repository/subscription.go:211 | with no row counted, the sum is 0 |
| Proration.SumChargesNonNegative | internal/repository/subscription.go:206-213 | well-ordered rows with non-negative prices in a well-ordered window sum to at least 0 |
| Proration.TotalCostOfNothingIsZero | internal/repository/subscription.go:211-213 | when no row passes the WHERE clause the total is 0 (`COALESCE(SUM(...), 0)`) |
| Proration.TotalCostNonNegative | internal/repository/subscription.go:206-213 | the total is non-negative for well-ordered rows of non-negative price in a well-ordered window; the orderings are checked nowhere |
| Proration.TotalCostAfterInsert | internal/repository/subscription.go:28-56 | inserting a row adds exactly its charge to the total |
| Proration.TotalCostAfterDelete | internal/repository/subscription.go:175-196 | deleting a row removes exactly its charge from the total |
| Table.WithColumns | internal/repository/subscription.go:138-142 | UPDATE writes name, price, dates and update time; id, user id and creation time stay |
| Table.CreatedRowIsFound | internal/repository/subscription.go:28-79 | after an insert, reading the id gives the inserted row and every other id reads as before |
| Table.CreateTwiceFails | internal/repository/subscription.go:50-53 | a second insert with the same id fails |
| Table.CreateKeepsKeyed | internal/repository/subscription.go:28-56 | insert keeps every row stored under its own id |
| Table.UpdateTouchesOneRow | internal/repository/subscription.go:137-172 | an update succeeds exactly when the row exists, keeps the key set, and leaves other rows alone |
| Table.UpdatedRowReadsBack | internal/repository/subscription.go:137-172 | reading after an update gives the stored identity with the new five columns |
| Table.UpdateIsIdempotent | internal/repository/subscription.go:137-172 | the same update twice gives the same table as once |
| Table.DeletedRowIsGone | internal/repository/subscription.go:175-196 | after a delete the id reads as not found, a second delete reports not found, and other rows stay |
| Table.DeleteAfterCreateRestores | internal/repository/subscription.go:28-56 | deleting a just-inserted row gives back the table before the insert |
| Table.UpdateChangesTotalByDifference | internal/repository/subscription.go:137-172 | an update changes the period total by the new charge minus the old |
| Table.AtomicallyIsReadThenUpdate | internal/repository/subscription_test.go:152-180 | a successful locked update writes what UPDATE of the changed row at that id writes and returns the changed row |
| Table.AtomicallyFailureChangesNothing | internal/repository/subscription_test.go:182-197 | a missing row gives not found, a failing callback gives its error, and neither writes |
| Table.SequentialAtomicUpdatesLastWins | internal/repository/repository.go:17-18 | two locked updates in a row setting 500 then 700 leave 700 and every other column as it was |
| Table.Skipped | internal/repository/subscription.go:116-119 | OFFSET skips its value when in range, every row when larger, and none when absent or negative |
| Table.Page | internal/repository/subscription.go:110-119 | the page is a run of the rows starting after the skipped ones, no longer than a non-negative limit, exactly `limit` rows when the limit binds, and the rest of the rows when it does not |
| Table.PagesTile | internal/repository/subscription.go:110-119 | two consecutive pages of n rows are the page of 2n rows |
| Table.NoPagingReturnsAll | internal/repository/subscription.go:110-119 | without LIMIT and OFFSET every row is returned |
| Table.InsertNewest | internal/repository/subscription.go:108 | inserting a row into a list ordered by `created_at` descending keeps it ordered and adds exactly that row |
| Table.SelectedAmongGrows | internal/repository/subscription.go:92-106 | visiting one more key adds its row when selected, and that row was not there before |
| Table.SelectedAmongIsSmall | internal/repository/subscription.go:126-133 | the selected rows are no more than the keys they come from |
| Repository.SubscriptionStore.Create | internal/repository/subscription.go:28-56 | the table becomes the one with the row inserted; a driver failure or duplicate id is a wrapped storage error and changes nothing |
| Repository.SubscriptionStore.GetByID | internal/repository/subscription.go:59-79 | the stored row, `ErrNotFound` when there is none, or the wrapped driver failure |
| Repository.SubscriptionStore.GetAll | internal/repository/subscription.go:82-134 | the result is the page, by the positive limit and offset, of a listing holding each selected row once, newest first |
| Repository.SubscriptionStore.Update | internal/repository/subscription.go:137-172 | the table becomes the one with the five columns of that row rewritten; no row is `ErrNotFound` and changes nothing |
| Repository.SubscriptionStore.UpdateAtomically | internal/repository/subscription_test.go:152-197 | result and new table are those of the locked read-modify-write |
| Repository.SubscriptionStore.Delete | internal/repository/subscription.go:175-196 | the row is removed; no row is `ErrNotFound` and changes nothing |
| Repository.SubscriptionStore.GetTotalCost | internal/repository/subscription.go:199-246 | the result is the sum over the table of each counted row's price times its billed months |
| Service.CreateAcceptsExactly | internal/service/subscription.go:31-50 | a create request is accepted exactly when its user id, its start date and its end date (when given) parse |
| Service.CreateCheckOrder | internal/service/subscription.go:31-50 | the user id is checked first, then the start date, then the end date, and the first failure is reported |
| Service.CreatedRecord | internal/service/subscription.go:52-62 | the record has the new id, the request's name and price, the parsed user id and dates, no end date exactly when none is given, and creation time equal to update time |
| Service.CreateAcceptsEndBeforeStart | internal/service/subscription.go:43-50 | nothing compares the two dates: an end before the start is accepted |
| Service.PatchFields | internal/service/subscription.go:96-118 | a non-empty name, a positive price and non-empty dates replace the stored values; empty or zero ones keep them; the identity never changes |
| Service.PatchNeverClearsEndDate | internal/service/subscription.go:112-118 | an end date can be set by a patch but never removed |
| Service.PatchFailsExactly | internal/service/subscription.go:104-118 | a patch fails exactly when a non-empty date does not parse, with the start date reported first |
| Service.PatchIsIdempotent | internal/service/subscription.go:96-118 | the same patch applied twice gives the record of applying it once |
| Service.EmptyPatchIsIdentity | internal/service/subscription.go:96-118 | the empty request changes nothing |
| Service.UpdatePathIsAtomicUpdate | internal/service/subscription.go:91-124 | read-patch-write gives the same result and table as the locked update with the patch as callback |
| Service.UpdateOfMissingRow | internal/service/subscription.go:91-94 | updating a missing id reports not found and writes nothing |
| Service.BoundCreateHasPositivePrice | internal/models/subscriptions.go:20-26 | a create request that passes binding builds a record whose price is at least 1 |
| Service.BoundCreateKeepsPricesPositive | internal/service/subscription.go:52-67 | storing a bound create request keeps every stored price at least 1 |
| Service.BoundUpdateKeepsPricesPositive | internal/service/subscription.go:96-124 | with a bound update request (`omitempty,min=1`) the returned row and every stored price stay at least 1 |
| Service.BoundRowsTotalNonNegative | internal/repository/subscription.go:206-213 | the period total of rows with positive prices is non-negative for well-ordered rows and window |
| Service.CreateReadUpdateScenario | internal/service/subscription.go:24-131 | create, read back, then change only the price to 600: the price is 600, name and dates are kept, and the update time has advanced |
| Service.SubscriptionService.Create | internal/service/subscription.go:24-73 | a check failure is returned with no write; otherwise the built record is stored and returned, or the store's wrapped driver or duplicate-key error is passed on with no write |
| Service.SubscriptionService.GetByID | internal/service/subscription.go:76-79 | the store's row, not found, or its failure |
| Service.SubscriptionService.GetAll | internal/service/subscription.go:82-85 | the store's paged listing or its failure |
| Service.SubscriptionService.Update | internal/service/subscription.go:88-131 | without driver failures the result and table are those of read-patch-stamp-write; a read failure, a missing row or a bad date is returned as read-patch-stamp-write would, and a write failure is wrapped; every failure writes nothing |
| Service.SubscriptionService.Delete | internal/service/subscription.go:134-137 | the store's delete |
| Service.SubscriptionService.GetTotalCost | internal/service/subscription.go:140-154 | the table's period total with currency "RUB", or the store's error unchanged |
| Decimal.Digits | internal/handler/response.go:18-25 | decimal digits of a number are non-empty and all digits |
| Decimal.DigitsRoundTrip | internal/handler/response.go:18-25 | the digits of n denote n |
| Decimal.ParseQueryInt | internal/handler/response.go:18-25 | a text is accepted exactly when it is an optional sign and one or more digits whose value fits a 64-bit int, leading zeros allowed, and the value is that of the digits |
| Decimal.FormatThenParseInt | internal/handler/response.go:18-25 | every 64-bit value survives printing and parsing |
| Decimal.ParseQueryIntExamples | internal/handler/response.go:18-25 | "20", "0", "-1" and "+7" parse; "", "-", "abc" and "1.5" do not |
| Handler.ErrorResponse | internal/handler/subscription.go:63-70 | not found is 404 with "subscription not found"; every other error is 500 with its text |
| Handler.BadUpdateDateIsServerError | internal/handler/subscription.go:160-168 | an unparseable date in an update body comes back as 500 |
| Handler.BuildListFilter | internal/handler/subscription.go:89-120 | succeeds exactly when the user id is absent or parses, otherwise 400 "invalid user_id format"; the filter has the query's user id and name, the parsed limit when positive and 20 otherwise, the parsed offset when non-negative and 0 otherwise |
| Handler.BuildCostFilter | internal/handler/subscription.go:219-257 | a missing date is 400 before any parsing; start is parsed before end; a bad user id is 400; success exactly when all parse, with no start-before-end check |
| Handler.ListPageRespectsLimit | internal/handler/subscription.go:108-113 | a positive limit bounds the page |
| Handler.DefaultPageIsNewestTwenty | internal/handler/subscription.go:90-94 | with the default filter a listing is its first 20 rows |
| Handler.ListingIsBounded | internal/repository/subscription.go:126-133 | a page of a listing is no longer than the table |
| Handler.SubscriptionHandler.CreateSubscription | internal/handler/subscription.go:26-42 | 400 exactly when the body does not decode or bind; a valid request whose id is new and whose store works is 201 with the built record, which is stored; a service check failure, a driver failure or a duplicate id is 500 with the error's text and no write |
| Handler.SubscriptionHandler.GetSubscription | internal/handler/subscription.go:54-74 | a bad id is 400; otherwise 200 with the row, 404 when absent, or 500 |
| Handler.SubscriptionHandler.GetAllSubscriptions | internal/handler/subscription.go:89-130 | a bad user id is 400; otherwise a driver failure is 500 with its wrapped text, and without one the answer is 200 with the page, under the query's user id, name, limit and offset, of the selected rows newest first |
| Handler.SubscriptionHandler.UpdateSubscription | internal/handler/subscription.go:145-172 | a bad id or body is 400 with no write; a read or write failure is 500 with no write; otherwise the read-patch-write result, 200 with the new row, 404 when absent, 500 for a bad date |
| Handler.SubscriptionHandler.DeleteSubscription | internal/handler/subscription.go:184-204 | a bad id is 400; an existing row is removed with 204; a missing one is 404; a driver failure is 500 with its wrapped text and no write |
| Handler.SubscriptionHandler.GetTotalCost | internal/handler/subscription.go:219-267 | 400 exactly when a parameter is missing or does not parse, with the fixed text of the first failing check (missing, start, end, then user id); otherwise 500 with the wrapped text on a driver failure, and 200 with the period total in "RUB" over the query's months, name and user id |

## Left out

- Row locking, transactions and concurrent writers behind `UpdateAtomically`. Only its sequential contract is modelled. The isolation of two concurrent updates is not.
- `Repository.SubscriptionStore.UpdateAtomically`: has no driver-failure input, because the statements and error texts of its implementation are not part of this model.
- Logging, HTTP routing, middleware, server start-up and shutdown, and Swagger. These are I/O plumbing.
- JSON decoding: a body that does not decode is `None`. The text gin's binding appends after "invalid request body: " is not modelled.
- `uuid.Parse` syntax is a parameter of the service and the handler.
- `Models.CreateReqBinds`: checks the `uuid` binding tag with the same parser as `uuid.Parse`, a simplification. The validator behind gin accepts only the dashed 36-character form, while `uuid.Parse` also takes braces, a `urn:uuid:` prefix and the 32-digit form. For such a `user_id` the program answers 400 at binding, while the model creates the subscription.
- Library error texts: the service's "invalid ... format: " messages and the driver's causes keep only their fixed part.
- The `RowsAffected` failure branch ("failed to get rows affected"), because the Postgres driver always reports the count.
- Postgres `::integer` overflow of the total, and 64-bit overflow of prices and limits: integers are unbounded.
- Unicode case folding in `ILIKE`: only ASCII letters are folded. The backslash escape of `LIKE` patterns is not modelled.
- Ties in `created_at`: the database may return equal timestamps in any order. The model fixes one order, and its listing contract allows any.
- The day and time of day of stored timestamps, because every date comes from the month parser.
- The primary-key constraint is assumed: the table's migrations are not part of this model.
