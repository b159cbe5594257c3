# Maderera backend — a verified model of its business core

The maderera backend handles the logistics of a timber supplier that serves mines. Its main records are:

- **requerimientos** (purchase requirements): a supplier is asked for products on behalf of a mine.
- **viajes** (trips): deliveries from the supplier, registered against a requirement.
- **despachos** (dispatches): shipments from the warehouse to a mine. They move through
  `PREPARANDO → EN_TRANSITO → ENTREGADO`, and `ANULADO` cancels them.
- **kardex**: the stock ledger. Every stock movement is one row, and a product's stock is the sum of its rows.

This project models, in Dafny:

- the dispatch life cycle and how it posts to the stock ledger: a `SALIDA` row for each line when the dispatch leaves, and an `AJUSTE_POS` reversal for each line when a dispatch that has shipped is cancelled;
- the guards on requirement status and on trip registration;
- the builders of the raw SQL for stock and kardex queries, and the manual stock adjustment;
- the zod request schemas of these modules;
- the three reports: KPIs, the five best mines, and the six-month trend;
- the rules of the master data and of the user accounts: prices, suppliers, products, users, login and token refresh, and the authentication and role middleware.

## How the model is built

There is one Dafny module per source file, plus three shared modules:

- `Common`: `Option`/`Result`, the error shapes, paging arithmetic, and the rule that "an omitted field leaves the column as it is".
- `Text`: `String(n)`, `padStart`, `parseInt` and `Number` on strings.
- `Kardex`: ledger rows, the per-product sum `Net`, and the shared `Ledger` object.

**Services are classes.** Each service that changes tables is a `class`. Its tables are `map` fields and its methods have `modifies` clauses. Tables that two services share are one shared object:

- the users table belongs to `Users.UserStore` and is read and updated by `Auth.AuthService`;
- the product↔supplier price links belong to `Prices.PriceCatalog` and are rewritten by `Products.ProductService`;
- the ledger `Kardex.Ledger` is written by both dispatches and inventory;
- the requirements store is read by `Trips.TripService`.

**Each method is specified against functions on values.** `Edited`, `Salidas`, `Reversals`, `FirstShortage`, `TotalPercent`, `Render`, `TrendSpending` and the like are plain functions. Lemmas about those functions carry what the source promises: ledger nets, round trips, orderings, bounds.

**What the model takes as parameters.** Anything the service gets from outside the TypeScript code is an explicit parameter:

- the clock;
- the stock view `v_stock_actual`, as a snapshot map;
- the results of the stored procedures;
- bcrypt's hash and compare;
- JWT signing and verification;
- the user-name lookups;
- date parsing;
- product names.

## Model

| member | source | states |
|---|---|---|
| Common.TotalPages | src/modules/despachos/despachos.service.ts:63 | `Math.ceil(total / limit)` as an integer: undefined exactly when the limit is 0; for a positive limit the smallest page count that covers `total` rows; for a negative limit the mirrored bound |
| Common.Paginate | src/modules/despachos/despachos.service.ts:51-64 | the pagination block echoes page and limit and the row count, skips `(page - 1) * limit` rows and reports `TotalPages` |
| Common.ActorName | src/modules/maestros/precios/precios.service.ts:89 | with no (or a zero) user id the actor is `"system"`; otherwise a name exists exactly when that user id is known |
| Common.Override | src/modules/despachos/despachos.service.ts:155-163 | a field left out of an update keeps its stored value; a given field replaces it |
| Common.OverrideOpt | src/modules/requerimientos/requerimientos.service.ts:141-148 | the same rule for nullable columns: an omitted value keeps the old one, a given value replaces it |
| Common.NumOr | src/modules/requerimientos/requerimientos.service.ts:52-53 | `x \|\| d` on numbers: the value when it is present and non-zero, the default otherwise |
| Text.DigitChar | src/modules/despachos/despachos.service.ts:110 | a digit below ten becomes the character with that digit value |
| Text.NatToString | src/modules/despachos/despachos.service.ts:110 | `String(n)` is a non-empty run of digits with no leading zero, one digit exactly when `n < 10` |
| Text.IntToString | src/modules/despachos/despachos.service.ts:238-241 | `String(i)`: a minus sign exactly when `i` is negative, then digits that read back as its magnitude (`ParseIntOfIntToString` and `StringToNumberOfIntToString` close the round trips) |
| Text.DigitsValueOfNatToString | src/modules/despachos/despachos.service.ts:110 | the digits of `String(n)` denote `n` |
| Text.NatToStringInjective | src/modules/despachos/despachos.service.ts:110 | different numbers render differently |
| Text.PadStart | src/modules/despachos/despachos.service.ts:110 | `padStart` keeps the string as its suffix, fills the front with the fill character and reaches at least the width |
| Text.PaddedDigits | src/modules/despachos/despachos.service.ts:110 | zero padding keeps a digit string a digit string of the same value |
| Text.PaddedDecimalRoundTrip | src/modules/despachos/despachos.service.ts:110 | a zero-padded `String(n)` is at least as wide as asked and reads back as `n` |
| Text.LeadingZerosIgnored | src/modules/despachos/despachos.service.ts:110 | leading zeros do not change a decimal's value |
| Text.TrimStart | src/modules/inventario/inventario.schemas.ts:4-5 | `parseInt`'s leading white space is removed and nothing else is: `IsSpace` is ECMAScript's WhiteSpace (tab, vertical tab, form feed, byte-order mark and every Unicode space separator) and its LineTerminators |
| Text.DigitRun | src/modules/inventario/inventario.schemas.ts:4-5 | the run of digits `parseInt` consumes is maximal |
| Text.ParseInt | src/modules/inventario/inventario.schemas.ts:4-8 | `parseInt(s, 10)` is a number exactly when, after the leading white space and an optional sign, a digit follows, and it is negative only after a minus sign |
| Text.ParseIntOfIntToString | src/modules/requerimientos/requerimientos.schemas.ts:45-47 | `parseInt(String(i), 10) == i` for every integer |
| Text.ParseIntStopsAtNonDigit | src/modules/requerimientos/requerimientos.schemas.ts:45-47 | `parseInt` reads the leading digits and ignores whatever follows the first non-digit |
| Text.ParseDigitsOfDigits | src/modules/requerimientos/requerimientos.schemas.ts:45-47 | the digit run before a non-digit is parsed as exactly its value |
| Text.TrimEnd | src/modules/despachos/despachos.schemas.ts:49-50 | `Number`'s trailing white space, by the same `IsSpace` set, is removed and nothing else is |
| Text.StringToNumber | src/modules/despachos/despachos.schemas.ts:49-50 | `Number(s)`: a blank string is 0 and a string of digits is the number it denotes |
| Text.StringToNumberOfIntToString | src/modules/despachos/despachos.schemas.ts:49-50 | `Number(String(i)) == i` |
| Text.StringToNumberExamples | src/modules/despachos/despachos.schemas.ts:49-50 | `Number("")` is 0, surrounding blanks (an ideographic space among them) are ignored, and a numeral with a letter in it is `NaN` |
| Zod.PositiveInt | src/modules/despachos/despachos.schemas.ts:8-10 | `z.number().int().positive()` accepts exactly the positive integral numbers and yields that number |
| Zod.OptPositiveInt | src/modules/despachos/despachos.schemas.ts:17-18 | an absent value passes as `undefined`; a present one is checked as a positive integer |
| Zod.Integer | src/modules/inventario/inventario.schemas.ts:22 | `z.number().int()` accepts exactly the integral numbers |
| Zod.NonNegative | src/modules/requerimientos/requerimientos.schemas.ts:14-15 | `z.number().min(0)` accepts exactly the numbers not below zero |
| Zod.Chars | src/modules/viajes/viajes.schemas.ts:5-6 | `z.string().min(a).max(b)` accepts exactly the strings whose length lies in the bounds |
| Zod.OptText | src/modules/despachos/despachos.schemas.ts:19 | an optional string: absent passes as `undefined`, a string passes within its maximum, anything else fails |
| Zod.AllValid | src/modules/despachos/despachos.schemas.ts:20 | `z.array(item)` passes exactly when every element passes `item`, and yields the parsed elements in order; the dispatch, requirement and trip detail arrays all use it |
| Zod.ParsedIntOr | src/modules/inventario/inventario.schemas.ts:4-5 | a string field with a default, transformed by `parseInt`: absent parses the default, a string parses itself, a non-string fails |
| Zod.OptParsedInt | src/modules/requerimientos/requerimientos.schemas.ts:47 | an optional string transformed by `parseInt`: absent stays absent, a string is parsed, a non-string fails |
| Zod.OptDatetime | src/modules/viajes/viajes.schemas.ts:7 | `z.string().datetime().optional()` passes when absent or when the string has the ISO instant shape, and yields the string itself |
| Zod.DateOnlyIsNotDatetime | src/modules/requerimientos/requerimientos.schemas.ts:8-9 | a `YYYY-MM-DD` date never passes the datetime check, which is why the requirement dates accept it as a second alternative |
| Zod.DatetimeExamples | src/modules/despachos/despachos.schemas.ts:34 | an instant ending in `Z`, with or without fractional seconds, passes; an instant without zone, or a bare date, does not |
| Kardex.Net | src/modules/despachos/despachos.service.ts:247-260 | a product's ledger sum takes no rows of other products, and is not negative when its rows only add stock |
| Kardex.NetAppend | src/modules/despachos/despachos.service.ts:248-260 | a product's ledger total over two batches of rows is the sum of the two totals |
| Kardex.NetAppendOne | src/modules/inventario/inventario.service.ts:80-93 | appending one row moves only that row's product, by that row's quantity |
| Kardex.Ledger.constructor | src/modules/inventario/inventario.service.ts:80-93 | a new ledger holds no rows |
| Kardex.Ledger.Append | src/modules/inventario/inventario.service.ts:80-93 | a ledger insert appends exactly that row and keeps the earlier rows |
| Dispatches.StoredLines | src/modules/despachos/despachos.service.ts:127-135 | each detail row is the corresponding input line, stamped with the creating user |
| Dispatches.LastId | src/modules/despachos/despachos.service.ts:104-107 | the highest existing dispatch id, or 0 when there is none |
| Dispatches.MaxExists | src/modules/despachos/despachos.service.ts:104-107 | a non-empty set of ids has a largest member |
| Dispatches.CodeNumberReadsBack | src/modules/despachos/despachos.service.ts:109-110 | the code `DSP-<year>-<nnnn>` ends in at least four digits that read back as the dispatch number |
| Dispatches.DispatchCode | src/modules/despachos/despachos.service.ts:109-110 | the code starts `DSP-`, then the year, which reads back from its digits, a hyphen, and at least four more characters |
| Dispatches.CodesDistinct | src/modules/despachos/despachos.service.ts:109-110 | in one year, different numbers give different codes |
| Dispatches.NewDispatch | src/modules/despachos/despachos.service.ts:113-136 | a new dispatch is `PREPARANDO`, carries the given header, code, user and time, has no cancel, departure, delivery or update stamp, and holds the input lines in order |
| Dispatches.Edited | src/modules/despachos/despachos.service.ts:155-184 | an update keeps code, status, the creator and the date stamps, replaces only the header fields it is given, records the updater, and replaces all the lines exactly when new lines are given |
| Dispatches.Abs | src/modules/despachos/despachos.service.ts:253 | `Math.abs`: non-negative and equal to the value or its negation |
| Dispatches.Available | src/modules/despachos/despachos.service.ts:230-235 | the stock `v_stock_actual` shows for the line's product and measure, 0 when the view has no row |
| Dispatches.ShortageMessage | src/modules/despachos/despachos.service.ts:238-241 | the error names the product first and ends with the required quantity, which reads back with `parseInt` |
| Dispatches.FirstShortage | src/modules/despachos/despachos.service.ts:229-243 | the first line whose requested quantity exceeds the stock shown for its product and measure; none exactly when every line is covered |
| Dispatches.FindShortage | src/modules/despachos/despachos.service.ts:229-243 | the checking loop stops at exactly that first uncovered line |
| Dispatches.Salidas | src/modules/despachos/despachos.service.ts:248-260 | one `SALIDA` ledger row per line, for its product, with the line's quantity negated and the dispatch id attached |
| Dispatches.Reversals | src/modules/despachos/despachos.service.ts:311-323 | one `AJUSTE_POS` row per line, for its product, with the line's quantity as a positive amount and no dispatch id |
| Dispatches.SalidasNet | src/modules/despachos/despachos.service.ts:248-260 | posting the exits lowers each product's ledger total by the total quantity the dispatch carries of it |
| Dispatches.QuantityOf | src/modules/despachos/despachos.service.ts:247-260 | the quantity a dispatch moves for a product is never negative and is 0 for a product none of its lines carries (`SalidasNet` and `ReversalsNet` tie it to the ledger) |
| Dispatches.ReversalsNet | src/modules/despachos/despachos.service.ts:311-323 | posting the reversals raises each product's total by that same quantity |
| Dispatches.TransitThenCancelNetsZero | src/modules/despachos/despachos.service.ts:248-323 | a dispatch sent on its way and then cancelled leaves every product's ledger total where it was |
| Dispatches.PerLineCheckAdmitsOverdraw | src/modules/despachos/despachos.service.ts:229-243 | the stock check is per line: for any stock `s` and quantity `q` with `q <= s < 2q`, two lines of `q` for one product and measure both pass, although together they draw more than `s` |
| Dispatches.ReplaceConsistent | src/modules/despachos/despachos.service.ts:167-184 | replacing a stored dispatch with one of the same code keeps ids and codes consistent |
| Dispatches.CreateConsistent | src/modules/despachos/despachos.service.ts:104-136 | storing a dispatch under the next id, coded from the current highest id, keeps every code tied to a distinct number |
| Dispatches.DispatchService.constructor | src/modules/despachos/despachos.service.ts:10 | a new service has no dispatches and posts to the ledger it is given |
| Dispatches.DispatchService.CodesUnique | src/modules/despachos/despachos.service.ts:104-110 | two stored dispatches created in the same year never share a code |
| Dispatches.DispatchService.GetById | src/modules/despachos/despachos.service.ts:71-97 | the dispatch stored under the id, or 404 exactly when there is none |
| Dispatches.Selected | src/modules/despachos/despachos.service.ts:17-35 | with no filter given, or only a search for the dispatch's own code, the dispatch is listed |
| Dispatches.DispatchService.ListPage | src/modules/despachos/despachos.service.ts:14-66 | the total counts exactly the dispatches that match every given filter, at offset `(page - 1) * limit`, with enough pages to cover it |
| Dispatches.DispatchService.Create | src/modules/despachos/despachos.service.ts:102-142 | stores the new dispatch under a fresh id, coded from the current highest id, and changes nothing else |
| Dispatches.DispatchService.Replace | src/modules/despachos/despachos.service.ts:167-184 | rewrites one stored dispatch and keeps the service's invariant |
| Dispatches.DispatchService.Update | src/modules/despachos/despachos.service.ts:147-188 | 404 for a missing dispatch and the not-editable error for one that is not `PREPARANDO`, both changing nothing; otherwise the dispatch becomes `Edited` and is returned |
| Dispatches.DispatchService.Delete | src/modules/despachos/despachos.service.ts:193-205 | 404 when missing and the not-deletable error unless `PREPARANDO`, both changing nothing; otherwise that dispatch alone is removed |
| Dispatches.DispatchService.PostSalidas | src/modules/despachos/despachos.service.ts:248-260 | the ledger grows by exactly the exit rows, in line order |
| Dispatches.DispatchService.PostReversals | src/modules/despachos/despachos.service.ts:311-323 | the ledger grows by exactly the reversal rows, in line order |
| Dispatches.DispatchService.ToTransit | src/modules/despachos/despachos.service.ts:211-272 | 404 when missing; an error unless `PREPARANDO`; the stock-shortage message for the first uncovered line. Each of these leaves the dispatch and the ledger unchanged. Otherwise it posts one exit per line, sets `EN_TRANSITO`, stamps the departure (given or now) and the user, and returns the dispatch |
| Dispatches.DispatchService.MarkDelivered | src/modules/despachos/despachos.service.ts:277-292 | 404 when missing and an error unless `EN_TRANSITO`, both changing nothing; otherwise `ENTREGADO` with the delivery time (given or now) and the user |
| Dispatches.DispatchService.Cancel | src/modules/despachos/despachos.service.ts:298-336 | 404 when missing and an error when already `ANULADO`, both changing nothing; otherwise it posts the reversals only when the dispatch had shipped (`EN_TRANSITO` or `ENTREGADO`), then records `ANULADO`, the reason and the user |
| Dispatches.TransitThenCancel | src/modules/despachos/despachos.service.ts:211-336 | when sending a dispatch on its way succeeds, cancelling it succeeds too, and the ledger total of every product is back to what it was |
| DispatchSchemas.ParseStatus | src/modules/despachos/despachos.schemas.ts:4 | the status enum accepts exactly the four status names |
| DispatchSchemas.StatusNamesRoundTrip | src/modules/despachos/despachos.schemas.ts:4 | every status parses back from its own name |
| DispatchSchemas.ValidDetail | src/modules/despachos/despachos.schemas.ts:7-12 | a line passes exactly when product, measure and quantity are positive integers and the note, if any, has at most 250 characters |
| DispatchSchemas.ValidCreate | src/modules/despachos/despachos.schemas.ts:15-21 | a create body passes exactly when the mine is a positive integer, supervisor and trip are absent or positive, the notes are absent or text, and at least one valid line is given; the input carries the mine, supervisor, trip, notes and lines as validated |
| DispatchSchemas.ValidUpdate | src/modules/despachos/despachos.schemas.ts:24-30 | every field may be omitted, but lines, when present, must be a non-empty array of valid lines; the input carries each given field as validated, and the lines exactly when the field was present |
| DispatchSchemas.ValidDate | src/modules/despachos/despachos.schemas.ts:33-40 | departure and delivery dates are absent or ISO datetimes |
| DispatchSchemas.ValidCancel | src/modules/despachos/despachos.schemas.ts:43-45 | a cancel reason passes exactly when it is a string of at least ten characters |
| DispatchSchemas.NumberOr | src/modules/despachos/despachos.schemas.ts:49-50 | page and limit default to `"1"` and `"10"` and are converted with `Number` |
| DispatchSchemas.OptNumber | src/modules/despachos/despachos.schemas.ts:52-54 | an absent or empty id filter becomes `undefined`, any other string `Number(s)` |
| DispatchSchemas.OptNonEmpty | src/modules/despachos/despachos.schemas.ts:56-57 | an empty date filter becomes `undefined`, any other string passes unchanged |
| DispatchSchemas.OptStatus | src/modules/despachos/despachos.schemas.ts:51 | the status filter is absent or one of the status names |
| DispatchSchemas.ValidQuery | src/modules/despachos/despachos.schemas.ts:48-59 | a query passes exactly when each field does, with page and limit converted |
| DispatchSchemas.QueryDefaults | src/modules/despachos/despachos.schemas.ts:49-50 | an omitted page is 1 and an omitted limit is 10 |
| DispatchSchemas.ListQueryOf | src/modules/despachos/despachos.service.ts:14-15 | `list` takes the validated page, limit, status, mine, trip and search as they are, and a date bound exactly when one was given; with a `NaN` page or limit there is no listing query |
| DispatchSchemas.DefaultsReachListing | src/modules/despachos/despachos.controller.ts:19-20 | a query without page and limit reaches `list` as page 1 of ten rows, starting at row 0 |
| DispatchSchemas.ValidatedLinesPostTheirQuantity | src/modules/despachos/despachos.schemas.ts:10 | since a validated quantity is positive, the `Math.abs` in the ledger rows is the quantity itself: exits post exactly its negation and reversals exactly it |
| Requirements.Author | src/modules/requerimientos/requerimientos.service.ts:30 | `created_by` is `"system"` without a user id, and otherwise the decimal of the id, which `parseInt` reads back |
| Requirements.NewDetails | src/modules/requerimientos/requerimientos.service.ts:31-40 | each detail row is its input line, numbered from the given first id, with nothing delivered yet and the author stamped |
| Requirements.Edited | src/modules/requerimientos/requerimientos.service.ts:158-164 | a header update keeps code, status, lines and dates of issue, replaces only the given fields, and stamps the updater |
| Requirements.DeliveredOf | src/modules/requerimientos/requerimientos.service.ts:179 | a line with no delivery recorded counts as 0 delivered |
| Requirements.SumRequested | src/modules/requerimientos/requerimientos.service.ts:178-180 | the requested total is not negative over non-negative lines, and positive when every line asks for something |
| Requirements.SumDelivered | src/modules/requerimientos/requerimientos.service.ts:179-181 | the delivered total is 0 while no line has a delivery recorded |
| Requirements.Percent | src/modules/requerimientos/requerimientos.service.ts:188 | `min(100, Math.round(delivered / requested * 100))`: between 0 and 100, within half a point of the exact ratio, 100 once delivery reaches the request, 0 with nothing delivered |
| Requirements.RoundedQuotient | src/modules/requerimientos/requerimientos.service.ts:188 | the integer rounding used for the percentage stays within half a point |
| Requirements.TotalPercent | src/modules/requerimientos/requerimientos.service.ts:192-194 | the overall percentage is 0 when nothing is requested and otherwise the rounded, capped ratio |
| Requirements.ProgressLines | src/modules/requerimientos/requerimientos.service.ts:177-190 | one progress entry per detail line, in order |
| Requirements.AllDeliveredSums | src/modules/requerimientos/requerimientos.service.ts:192-194 | when every line is delivered in full, the delivered sum reaches the requested sum |
| Requirements.SumRequestedPositive | src/modules/requerimientos/requerimientos.service.ts:192-194 | with positive requests, the requested sum is at least the number of lines |
| Requirements.FullyDeliveredIsComplete | src/modules/requerimientos/requerimientos.service.ts:192-194 | a requirement whose lines are all delivered shows 100 percent |
| Requirements.PercentExamples | src/modules/requerimientos/requerimientos.service.ts:188 | concrete roundings: 40/100 is 40, 1/3 is 33, 2/3 is 67, 1/200 is 1, and 250/100 is capped at 100 |
| Requirements.PageOf | src/modules/requerimientos/requerimientos.service.ts:52-54 | page and limit fall back to 1 and 10 when absent or zero, and the skip and page count follow from them |
| Requirements.DefaultPaging | src/modules/requerimientos/requerimientos.service.ts:52-54 | with no paging given, the first ten rows are shown and `ceil(total / 10)` pages reported |
| Requirements.RequirementStore.constructor | src/modules/requerimientos/requerimientos.service.ts:6 | a new store is empty |
| Requirements.RequirementStore.GetById | src/modules/requerimientos/requerimientos.service.ts:108-132 | the stored requirement, or 404 exactly when there is none |
| Requirements.Selected | src/modules/requerimientos/requerimientos.service.ts:55-70 | soft-deleted requirements are never listed, and with no filter every live one is |
| Requirements.RequirementStore.ListPage | src/modules/requerimientos/requerimientos.service.ts:51-106 | the total counts exactly the live requirements that match every given filter |
| Requirements.RequirementStore.Create | src/modules/requerimientos/requerimientos.service.ts:7-49 | fails with no trace when the code procedure yields nothing. Otherwise it stores a `PENDIENTE` requirement under a fresh id with the given header, the given issue date or else the column default, the author, and the numbered detail lines |
| Requirements.RequirementStore.UpdateStatus | src/modules/requerimientos/requerimientos.service.ts:134-149 | 404 when missing; an error for a cancelled requirement, whatever the new status; otherwise sets the status, keeps or replaces the cancel reason, stamps the updater |
| Requirements.RequirementStore.Update | src/modules/requerimientos/requerimientos.service.ts:151-165 | 404 when missing and an error unless `PENDIENTE`, both changing nothing; otherwise the requirement becomes `Edited` |
| Requirements.RequirementStore.GetProgress | src/modules/requerimientos/requerimientos.service.ts:166-203 | 404 when missing; the no-lines answer for a requirement without lines; otherwise the per-line progress and the overall percentage of delivered over requested |
| RequirementSchemas.ParseStatus | src/modules/requerimientos/requerimientos.schemas.ts:32 | the status enum accepts exactly the five status names |
| RequirementSchemas.StatusNamesRoundTrip | src/modules/requerimientos/requerimientos.schemas.ts:32 | every status parses back from its name |
| RequirementSchemas.ValidDetail | src/modules/requerimientos/requerimientos.schemas.ts:11-17 | a line passes exactly when product and quantity are positive integers, both prices are non-negative numbers and the note is absent or text |
| RequirementSchemas.DateField | src/modules/requerimientos/requerimientos.schemas.ts:8-9 | a date is absent, an ISO datetime, or a bare `YYYY-MM-DD` |
| RequirementSchemas.ValidCreate | src/modules/requerimientos/requerimientos.schemas.ts:3-19 | a create body passes exactly when supplier, mine and supervisor are positive integers, the dates are well formed and at least one valid line is given. The result carries those ids, the notes, the parsed dates (an absent one as `undefined`) and the lines as given, and every line requests a positive quantity |
| RequirementSchemas.ValidUpdate | src/modules/requerimientos/requerimientos.schemas.ts:21-29 | every header field may be omitted and a given one is carried over as parsed; an empty promised date becomes `undefined`, so the stored date is kept, and any other promised date is converted |
| RequirementSchemas.ValidStatus | src/modules/requerimientos/requerimientos.schemas.ts:31-42 | a status change passes exactly when the status is a known name and, for `ANULADO` only, a non-empty reason is given |
| RequirementSchemas.ReasonRequiredOnlyToCancel | src/modules/requerimientos/requerimientos.schemas.ts:34-39 | without a reason, every status change is accepted except cancelling |
| RequirementSchemas.ValidQuery | src/modules/requerimientos/requerimientos.schemas.ts:44-52 | a query passes exactly when each field does; page and limit default to `"1"` and `"10"` through `parseInt`, and the schema has no mine filter |
| RequirementSchemas.QueryPagingDefaults | src/modules/requerimientos/requerimientos.schemas.ts:45-46 | a page and a limit that are omitted, or that `parseInt` reads as `NaN`, end up on page 1 of ten rows from offset 0 |
| RequirementSchemas.FiltersAsPassed | src/modules/requerimientos/requerimientos.controller.ts:27 | what the controller hands over carries no page and no limit, and selects exactly the live requirements |
| RequirementSchemas.AsPassedIgnoresQuery | src/modules/requerimientos/requerimientos.service.ts:51-61 | handed the page number instead of the filters, `getAll` lists page 1 of ten rows and selects every live requirement, whatever the query |
| RequirementSchemas.AsPassedLosesQuery | src/modules/requerimientos/requerimientos.service.ts:51-61 | a query for page 2 of the cancelled requirements, handed over as a page number, shows page 1 and selects a pending requirement; the query passed whole shows page 2 and leaves it out |
| Trips.StoredDetails | src/modules/viajes/viajes.service.ts:79-90 | every input line becomes one trip detail row, whatever its delivery outcome, stamped with the trip and the user |
| Trips.UserOrSystem | src/modules/viajes/viajes.service.ts:58 | the user name when it is given and non-empty, `"system"` otherwise |
| Trips.InsertionPoint | src/modules/viajes/viajes.service.ts:96-104 | the position after every trip numbered at most `n` and before the first numbered above it |
| Trips.InsertFacts | src/modules/viajes/viajes.service.ts:96-104 | inserting into a number-ordered list keeps it ordered, adds exactly the new trip and keeps ids distinct |
| Trips.InsertOrdered | src/modules/viajes/viajes.service.ts:96-104 | the list built at the insertion point is ordered by number with distinct ids |
| Trips.InsertMembers | src/modules/viajes/viajes.service.ts:96-104 | the list built at the insertion point holds the old trips and the new one and nothing else |
| Trips.InsertIndex | src/modules/viajes/viajes.service.ts:96-104 | where each element of the spliced list comes from |
| Trips.TripService.constructor | src/modules/viajes/viajes.service.ts:5 | a new service has no trips and reads the given requirement store |
| Trips.TripService.Create | src/modules/viajes/viajes.service.ts:36-94 | 404 for an unknown requirement and 400 for a cancelled one; 500 when the procedure returns a null or zero id (`!idViaje`). Each of these stores nothing. Otherwise it stores the trip under the returned id with all its detail rows and answers with that id |
| Trips.TripService.GetById | src/modules/viajes/viajes.service.ts:106-124 | the stored trip, or 404 exactly when there is none |
| Trips.TripService.GetByRequirement | src/modules/viajes/viajes.service.ts:96-104 | exactly the requirement's trips, each once, in ascending trip number |
| TripSchemas.ParseDelivery | src/modules/viajes/viajes.schemas.ts:13 | the outcome enum accepts exactly its five names |
| TripSchemas.DeliveryNamesRoundTrip | src/modules/viajes/viajes.schemas.ts:13 | every outcome parses back from its name |
| TripSchemas.DeliveryField | src/modules/viajes/viajes.schemas.ts:13 | an omitted outcome defaults to `OK`; a given one must be a known name |
| TripSchemas.ValidDetail | src/modules/viajes/viajes.schemas.ts:10-15 | a line passes exactly when the requirement line and the received quantity are positive integers and the outcome and note are valid |
| TripSchemas.ValidTrip | src/modules/viajes/viajes.schemas.ts:3-17 | a trip passes exactly when the requirement is a positive integer, plate and driver are 1–20 and 1–100 characters long, the date is absent or an ISO datetime (absent means now), and at least one valid line is given. The result carries the requirement id, plate, driver, notes and lines as given |
| Inventory.PlaceholdersAppend | src/modules/inventario/inventario.service.ts:8-36 | placeholders in concatenated SQL text add up |
| Inventory.NoPlaceholders | src/modules/inventario/inventario.service.ts:8 | fixed SQL text without `?` has no placeholders |
| Inventory.AllBalancedAppend | src/modules/inventario/inventario.service.ts:11-30 | joining clause lists whose clauses each bind as many parameters as they have placeholders keeps that balance |
| Inventory.Render | src/modules/inventario/inventario.service.ts:8-46 | the statement and parameters a sequence of `sql +=` steps leaves behind; when every step is balanced, the statement has exactly as many placeholders as bound parameters (`RenderAppend` splits it over concatenated steps) |
| Inventory.RenderAppend | src/modules/inventario/inventario.service.ts:8-46 | assembling two clause lists gives the concatenated text and parameter list |
| Inventory.Fixed | src/modules/inventario/inventario.service.ts:8 | a clause without placeholders binds nothing |
| Inventory.OneParam | src/modules/inventario/inventario.service.ts:11-24 | a clause with one placeholder binds exactly its one parameter |
| Inventory.StockBaseClause | src/modules/inventario/inventario.service.ts:8 | the base select of the stock view binds nothing |
| Inventory.Step | src/modules/inventario/inventario.service.ts:11-36 | adding one clause appends its text and its parameters |
| Inventory.SearchClause | src/modules/inventario/inventario.service.ts:11-14 | the name search binds `%term%` |
| Inventory.IdClause | src/modules/inventario/inventario.service.ts:16-24 | ` AND <column> = ?` binds the id: the classification and measure filters of the stock query and the product filter of the kardex query |
| Inventory.LowStockClause | src/modules/inventario/inventario.service.ts:26-30 | the low-stock condition ` AND stock_actual < 100` compares the stock column with the literal 100 and binds nothing |
| Inventory.StockOrderClause | src/modules/inventario/inventario.service.ts:35-36 | the order and paging tail binds limit then offset |
| Inventory.Offset | src/modules/inventario/inventario.service.ts:6 | the offset is `NaN` exactly when the page or the limit is; page 1 starts at row 0, and a page from 1 on with a non-negative limit at a non-negative row |
| Inventory.StockClauses | src/modules/inventario/inventario.service.ts:8-36 | every clause of the stock query is balanced |
| Inventory.BuildStockQuery | src/modules/inventario/inventario.service.ts:5-47 | the text and parameters built step by step are those of the clause list |
| Inventory.Push | src/modules/inventario/inventario.service.ts:11-36 | appending one clause to a partial query keeps it equal to the rendering of the clauses so far |
| Inventory.Extend | src/modules/inventario/inventario.service.ts:11-30 | an absent filter adds no clause |
| Inventory.StockQueryShape | src/modules/inventario/inventario.service.ts:5-47 | the stock query binds as many parameters as it has placeholders: one per filter actually given (search, classification, measure) plus limit and offset, which come last, and its text ends in the order-and-paging tail |
| Inventory.ParamCount | src/modules/inventario/inventario.service.ts:11-36 | the number of bound parameters is two plus one per filter given |
| Inventory.SixPartLength | src/modules/inventario/inventario.service.ts:8-36 | the parameter count of the six-part query is the sum of its parts' counts |
| Inventory.SingletonRender | src/modules/inventario/inventario.service.ts:11-36 | a single clause renders as itself |
| Inventory.OptionalRender | src/modules/inventario/inventario.service.ts:11-30 | an optional clause contributes its own parameters and no others |
| Inventory.KardexBaseClause | src/modules/inventario/inventario.service.ts:51-52 | the base select of the kardex view binds nothing |
| Inventory.RangeClause | src/modules/inventario/inventario.service.ts:58-61 | the date range binds the start and the end |
| Inventory.KindClause | src/modules/inventario/inventario.service.ts:63-66 | the kind filter binds the kind's name |
| Inventory.KardexOrderClause | src/modules/inventario/inventario.service.ts:68-69 | the order tail is ` ORDER BY fecha DESC, id_movimiento DESC LIMIT ?` and binds the limit |
| Inventory.KardexOrderText | src/modules/inventario/inventario.service.ts:68 | the order tail's text is the source's literal |
| Inventory.KardexClauses | src/modules/inventario/inventario.service.ts:49-74 | every clause of the kardex query is balanced |
| Inventory.BuildKardexQuery | src/modules/inventario/inventario.service.ts:49-74 | the text and parameters built are those of the clause list |
| Inventory.KardexQueryShape | src/modules/inventario/inventario.service.ts:49-74 | the kardex query binds as many parameters as it has placeholders: one for a product filter, two for a complete date range, one for a kind, plus the limit, which comes last; its text ends in the order tail |
| Inventory.KardexParamCount | src/modules/inventario/inventario.service.ts:53-69 | the number of bound parameters is one plus one per product or kind filter and two for a complete date range |
| Inventory.AdjustmentMovement | src/modules/inventario/inventario.service.ts:80-93 | a manual adjustment is one ledger row for the product, of the given kind and signed quantity, noted `AJUSTE MANUAL: <reason>` and stamped with the user or `"system"` |
| Inventory.AdjustStock | src/modules/inventario/inventario.service.ts:76-95 | the ledger grows by exactly that row: the adjusted product's total moves by the quantity, every other product's total stays |
| InventorySchemas.ParseKind | src/modules/inventario/inventario.schemas.ts:17 | the kardex kind filter accepts exactly the six kind names |
| InventorySchemas.KindNamesRoundTrip | src/modules/inventario/inventario.schemas.ts:17 | every kind parses back from its name |
| InventorySchemas.ParseAdjustKind | src/modules/inventario/inventario.schemas.ts:23 | an adjustment accepts only `ENTRADA`, `SALIDA` and `AJUSTE_MANUAL` |
| InventorySchemas.OptInt | src/modules/inventario/inventario.schemas.ts:7-8 | an optional id filter is absent or `parseInt` of the string |
| InventorySchemas.ValidStockQuery | src/modules/inventario/inventario.schemas.ts:3-10 | a stock query passes exactly when each field is absent or a string; page and limit default to `"1"` and `"20"`; the low-stock flag is set exactly by the string `"true"` |
| InventorySchemas.StockQueryDefaults | src/modules/inventario/inventario.schemas.ts:4-5 | without paging, page 1 of twenty rows at offset 0 |
| InventorySchemas.DefaultNumerals | src/modules/inventario/inventario.schemas.ts:4-16 | the default numerals parse as 1, 20 and 50 |
| InventorySchemas.One | src/modules/inventario/inventario.schemas.ts:4 | `"1"` parses as 1 |
| InventorySchemas.Twenty | src/modules/inventario/inventario.schemas.ts:5 | `"20"` parses as 20 |
| InventorySchemas.Fifty | src/modules/inventario/inventario.schemas.ts:16 | `"50"` parses as 50 |
| InventorySchemas.ValidKardexQuery | src/modules/inventario/inventario.schemas.ts:12-18 | a kardex query passes exactly when each field is absent or a string and the kind, if given, is a kind name; the limit defaults to `"50"` |
| InventorySchemas.KardexLimitDefault | src/modules/inventario/inventario.schemas.ts:16 | an omitted limit is 50 |
| InventorySchemas.ValidAdjustment | src/modules/inventario/inventario.schemas.ts:20-25 | an adjustment passes exactly when the product is a positive integer, the quantity a non-zero integer, the kind an adjustable one and the reason at least five characters |
| InventorySchemas.ValidAdjustmentMovesStock | src/modules/inventario/inventario.schemas.ts:22 | a validated adjustment always changes the product's ledger total |
| Reports.DaysIn | src/modules/reportes/reportes.service.ts:11 | a month has 28 to 31 days |
| Reports.StartOfMonth | src/modules/reportes/reportes.service.ts:9-10 | `startOfMonth` is in the current month and no moment of the month comes before it |
| Reports.EndOfMonthAsWritten | src/modules/reportes/reportes.service.ts:11 | `endOfMonth` is in the current month, every earlier day comes before it, and on the last day only its first midnight is not after it |
| Reports.InWindowAsWritten | src/modules/reportes/reportes.service.ts:9-11 | the `gte`/`lte` window holds exactly the moments of the month before its last day, plus midnight at the start of that day |
| Reports.InMonth | src/modules/reportes/reportes.service.ts:9-11 | the current month is the half-open range from its first midnight to the next month's |
| Reports.AsWrittenWindowDropsLastDay | src/modules/reportes/reportes.service.ts:9-11 | a moment after midnight on the month's last day lies in the month but outside the window the code queries |
| Reports.MonthIsHalfOpenRange | src/modules/reportes/reportes.service.ts:9-11 | "in the current month" is the half-open range from its first midnight to the next month's, and the window as written lies inside it |
| Reports.InventoryValue | src/modules/reportes/reportes.service.ts:22-26 | rows that lack a stock or a price leave the value at 0 (`InventoryValueOfPriced` and `InventoryValueNonNegative` state the rest) |
| Reports.Priced | src/modules/reportes/reportes.service.ts:22-26 | the rows kept all have a stock and a price |
| Reports.InventoryValueOfPriced | src/modules/reportes/reportes.service.ts:22-26 | summing `(stock \|\| 0) * (price \|\| 0)` over all products equals summing over the priced ones |
| Reports.InventoryValueNonNegative | src/modules/reportes/reportes.service.ts:22-26 | with non-negative stocks and prices the inventory value is non-negative |
| Reports.Spending | src/modules/reportes/reportes.service.ts:30-48 | requirement spending in a month window is 0 when no line is live and issued inside the window |
| Reports.SpendingSplits | src/modules/reportes/reportes.service.ts:30-48 | in either month window, requirement spending over two batches of lines is the sum of the two |
| Reports.Dispatched | src/modules/reportes/reportes.service.ts:52-72 | dispatched value in a month window is 0 when no line is shipped and created inside the window |
| Reports.DispatchedSplits | src/modules/reportes/reportes.service.ts:52-72 | in either month window, dispatched value over two batches of lines is the sum of the two |
| Reports.DispatchCount | src/modules/reportes/reportes.service.ts:75-83 | the shipped dispatches inside the month window are at most all of them, all of them exactly when each one is, and none exactly when none is |
| Reports.GetKpis | src/modules/reportes/reportes.service.ts:8-92 | for a month window (the one the code writes, or the calendar month) the inventory value is that of the priced products, spending, dispatched value and count are the sums `Spending`, `Dispatched` and `DispatchCount` over that window, and the net flow is dispatched value minus spending |
| Reports.KpisIgnoreOtherRows | src/modules/reportes/reportes.service.ts:30-83 | in either window, a requirement line, dispatch line and dispatch row the window or the status excludes change no KPI |
| Reports.AsWrittenCountsLess | src/modules/reportes/reportes.service.ts:75-83 | the window as written never counts more dispatches than the calendar month |
| Reports.AsWrittenKpisMissLastDay | src/modules/reportes/reportes.service.ts:9-83 | with a live requirement and a delivered dispatch stamped 10:00 on the month's last day, `getKpis` as written reports no spending, no dispatched value and no dispatch, while the calendar month reports all three |
| Reports.MineValue | src/modules/reportes/reportes.service.ts:116-123 | a mine's value is 0 when none of the lines is a shipped line of that mine |
| Reports.MineValueOfUnknown | src/modules/reportes/reportes.service.ts:116-123 | a mine with no shipped line has value 0 |
| Reports.InsertByValue | src/modules/reportes/reportes.service.ts:126-128 | inserting keeps every entry and adds the new one |
| Reports.InsertByValueMembers | src/modules/reportes/reportes.service.ts:126-128 | the inserted list holds the old entries and the new one and nothing else |
| Reports.InsertByValueFacts | src/modules/reportes/reportes.service.ts:126-128 | inserting into a list ordered by descending value keeps it ordered with distinct names |
| Reports.HeadDominates | src/modules/reportes/reportes.service.ts:126-128 | the head of an ordered list dominates everything inserted behind it |
| Reports.Prepend | src/modules/reportes/reportes.service.ts:126-128 | a dominating head keeps a list ordered |
| Reports.SortByValue | src/modules/reportes/reportes.service.ts:126-128 | sorting is a permutation |
| Reports.SortByValueFacts | src/modules/reportes/reportes.service.ts:126-128 | the sorted list is in descending value with distinct names |
| Reports.MineNamesStep | src/modules/reportes/reportes.service.ts:118-123 | each line adds its mine to the names seen exactly when it was shipped |
| Reports.AccumulateMines | src/modules/reportes/reportes.service.ts:116-123 | the map built by the loop holds exactly the mines with a shipped line, each with its total value, and the names in first-seen order without repeats |
| Reports.MineEntries | src/modules/reportes/reportes.service.ts:126-127 | the array of `{nombre, valor}` pairs follows the map's order and has distinct names |
| Reports.PrefixOrdered | src/modules/reportes/reportes.service.ts:129 | taking the first five keeps the order and the distinct names |
| Reports.TopFacts | src/modules/reportes/reportes.service.ts:126-129 | the top entries are real mines with their real totals, and any mine left out is beaten by all five shown |
| Reports.OmittedIsBeaten | src/modules/reportes/reportes.service.ts:129 | an entry beyond the first five is beaten by each of the five |
| Reports.TopEntryIsMine | src/modules/reportes/reportes.service.ts:126-128 | every sorted entry names a mine and carries its total |
| Reports.TopMines | src/modules/reportes/reportes.service.ts:97-132 | at most five mines, by descending value, each once with its true total; a mine not shown is beaten by all five shown |
| Reports.PaddedMonth | src/modules/reportes/reportes.service.ts:175 | the month part of a key is two digits reading the month number |
| Reports.IntToStringInjective | src/modules/reportes/reportes.service.ts:175 | different years render differently |
| Reports.SplitKey | src/modules/reportes/reportes.service.ts:175 | a key splits uniquely at its last dash |
| Reports.MonthKey | src/modules/reportes/reportes.service.ts:175 | a key ends in a hyphen and two digits (`MonthKeyShape` reads the year and month back) |
| Reports.MonthKeyInjective | src/modules/reportes/reportes.service.ts:175 | different months give different `YYYY-MM` keys |
| Reports.TrendKeysDistinct | src/modules/reportes/reportes.service.ts:173-176 | the six months seeded are six different keys |
| Reports.FirstBucketIsCurrentMonth | src/modules/reportes/reportes.service.ts:173-176 | the first month seeded is the current one |
| Reports.TrendKeyShape | src/modules/reportes/reportes.service.ts:173-176 | each seeded key is the year, a dash, and the two-digit month `i` months back |
| Reports.MonthKeyShape | src/modules/reportes/reportes.service.ts:175 | a key is the year, a dash and the two-digit month |
| Reports.KeyParts | src/modules/reportes/reportes.service.ts:175 | the parts of a key can be read back off its end |
| Reports.CurrentMonth | src/modules/reportes/reportes.service.ts:174 | `new Date(y, m - 0, 1)` is the current month itself |
| Reports.LexIrreflexive | src/modules/reportes/reportes.service.ts:206 | the comparison used to sort is strict |
| Reports.LexTransitive | src/modules/reportes/reportes.service.ts:206 | the comparison is transitive |
| Reports.LexTotal | src/modules/reportes/reportes.service.ts:206 | any two different keys are ordered one way or the other |
| Reports.InsertByPeriod | src/modules/reportes/reportes.service.ts:205-206 | inserting a bucket keeps all buckets and adds the new one |
| Reports.InsertByPeriodSorted | src/modules/reportes/reportes.service.ts:205-206 | inserting keeps the list in ascending key order |
| Reports.PrependSorted | src/modules/reportes/reportes.service.ts:205-206 | a smaller head keeps a list sorted |
| Reports.SortByPeriod | src/modules/reportes/reportes.service.ts:205-206 | sorting the buckets is a permutation |
| Reports.SortByPeriodSorted | src/modules/reportes/reportes.service.ts:205-206 | buckets with distinct keys come out strictly ascending |
| Reports.AddTo | src/modules/reportes/reportes.service.ts:186-189 | adding to a bucket map changes only the matching bucket, and never adds a key |
| Reports.TrendSpending | src/modules/reportes/reportes.service.ts:181-190 | undated requirement lines never enter a month's spending |
| Reports.TrendSales | src/modules/reportes/reportes.service.ts:193-202 | undated dispatch lines never enter a month's sales |
| Reports.UndatedOrOtherMonthAddsNothing | src/modules/reportes/reportes.service.ts:181-202 | an undated line, or one of a month outside the window, adds nothing to a month's trend |
| Reports.TrendKeys | src/modules/reportes/reportes.service.ts:172-177 | the seeded keys are the six months counted back from the current one |
| Reports.TrendKeysAreDistinct | src/modules/reportes/reportes.service.ts:172-177 | the six seeded keys are pairwise different |
| Reports.SeedBuckets | src/modules/reportes/reportes.service.ts:171-178 | the seeded map has exactly the six keys, each at zero spending and zero sales |
| Reports.SpendingBucketsStep | src/modules/reportes/reportes.service.ts:181-190 | one more requirement line adds its cost to its month's bucket |
| Reports.SalesBucketsStep | src/modules/reportes/reportes.service.ts:193-202 | one more dispatch line adds its value to its month's bucket |
| Reports.SpendingBucketsKeys | src/modules/reportes/reportes.service.ts:186 | adding spending never creates a bucket |
| Reports.SalesBucketsKeys | src/modules/reportes/reportes.service.ts:198 | adding sales never creates a bucket |
| Reports.SpendingBucketAt | src/modules/reportes/reportes.service.ts:181-190 | a bucket's spending grows by exactly its month's cost of requirement lines |
| Reports.SalesBucketAt | src/modules/reportes/reportes.service.ts:193-202 | a bucket's sales grow by exactly its month's value of dispatch lines |
| Reports.AddSpending | src/modules/reportes/reportes.service.ts:181-190 | after the loop each seeded month holds its spending and keeps its sales, and no month is added |
| Reports.AddSales | src/modules/reportes/reportes.service.ts:193-202 | after the loop each seeded month holds its sales and keeps its spending, and no month is added |
| Reports.SpendKey | src/modules/reportes/reportes.service.ts:182-184 | a requirement line counts toward exactly one month, or none when undated, cancelled or before the window |
| Reports.SaleKey | src/modules/reportes/reportes.service.ts:194-196 | a dispatch line counts toward exactly one month, or none when undated, unshipped or before the window |
| Reports.Entries | src/modules/reportes/reportes.service.ts:205 | `Array.from(map.entries())` lists every bucket once with its totals |
| Reports.TrendFacts | src/modules/reportes/reportes.service.ts:205-210 | the sorted entries are the six seeded months, each with its spending and sales |
| Reports.MonthlyTrend | src/modules/reportes/reportes.service.ts:138-211 | six buckets, one per month of the window, in chronological order, each with that month's requirement spending and dispatch sales |
| Prices.Selected | src/modules/maestros/precios/precios.service.ts:10-15 | soft-deleted links are never listed, and with no filter every live link is |
| Prices.ActiveFilterAsWritten | src/modules/maestros/precios/precios.schemas.ts:17 | `activo` as written always yields a filter, which is true only for the string `"true"` |
| Prices.ActiveFilter | src/modules/maestros/precios/precios.service.ts:14 | the intended `activo` filter: none when the field is absent, otherwise whether it is `"true"` |
| Prices.AsWrittenHidesActiveLinks | src/modules/maestros/precios/precios.schemas.ts:17 | a listing without `activo` leaves out every live, active link |
| Prices.UnfilteredListsEveryLiveLink | src/modules/maestros/precios/precios.service.ts:10-15 | with the intended filter, a listing with no filters shows exactly the live links |
| Prices.Edited | src/modules/maestros/precios/precios.service.ts:123-130 | an update keeps id, deletion and creator, replaces only the given fields, stamps the time and (when known) the updater |
| Prices.ChangeFor | src/modules/maestros/precios/precios.service.ts:112-121 | a history row is written exactly when a new price is given and it differs from the old one, recording old and new price |
| Prices.NewLinks | src/modules/maestros/productos/productos.service.ts:93-101 | the links inserted with a product take consecutive new ids, one per supplier given, active, with that product and price |
| Prices.OtherProducts | src/modules/maestros/productos/productos.service.ts:128-130 | removing a product's links keeps every other product's link untouched |
| Prices.PriceCatalog.constructor | src/modules/maestros/precios/precios.service.ts:6 | a new catalogue has no links and no history |
| Prices.PriceCatalog.ActiveLinks | src/modules/maestros/productos/productos.service.ts:62-67 | a product's active, live links and nothing else |
| Prices.PriceCatalog.InsertLinks | src/modules/maestros/productos/productos.service.ts:93-101 | the catalogue grows by exactly the new links |
| Prices.PriceCatalog.DeleteLinks | src/modules/maestros/productos/productos.service.ts:128-130 | every link of the product is removed and only those |
| Prices.PriceCatalog.GetById | src/modules/maestros/precios/precios.service.ts:42-60 | a live link, or 404 when the id is unknown or soft-deleted |
| Prices.PriceCatalog.ListPage | src/modules/maestros/precios/precios.service.ts:7-40 | the total counts exactly the live links matching supplier, product and active filters |
| Prices.PriceCatalog.Create | src/modules/maestros/precios/precios.service.ts:62-98 | an existing soft-deleted link for the same supplier and product is reactivated with the new price; a live one is a 400 duplicate that changes nothing; otherwise a new link is stored |
| Prices.PriceCatalog.Update | src/modules/maestros/precios/precios.service.ts:100-131 | 404 for a missing or deleted link. Otherwise a changed price is written to the history first, and the link is updated unless that would collide with another link for the same supplier and product |
| Prices.PriceCatalog.Delete | src/modules/maestros/precios/precios.service.ts:133-144 | a record-not-found failure for an unknown id; otherwise the link is stamped deleted, after which it reads as 404 |
| Prices.DeleteThenCreate | src/modules/maestros/precios/precios.service.ts:73-85 | deleting a link and creating the same supplier and product again brings back the same id with the new price |
| Suppliers.Edited | src/modules/maestros/proveedores/proveedores.service.ts:85-88 | an update keeps id and deletion and replaces only the given fields |
| Suppliers.SupplierService.constructor | src/modules/maestros/proveedores/proveedores.service.ts:6 | a new service has no suppliers |
| Suppliers.SupplierService.GetById | src/modules/maestros/proveedores/proveedores.service.ts:44-54 | a live supplier, or 404 when unknown or deleted |
| Suppliers.Selected | src/modules/maestros/proveedores/proveedores.service.ts:10-21 | with no search every live supplier is listed, and a search for its own name or RUC finds it |
| Suppliers.SupplierService.ListPage | src/modules/maestros/proveedores/proveedores.service.ts:7-42 | the total counts exactly the live suppliers whose name, business name or RUC contains the search |
| Suppliers.SupplierService.Create | src/modules/maestros/proveedores/proveedores.service.ts:56-70 | a non-empty RUC that another live supplier has is refused and nothing changes; otherwise the supplier is stored under a fresh id |
| Suppliers.SupplierService.Update | src/modules/maestros/proveedores/proveedores.service.ts:72-89 | 404 when missing or deleted; a changed RUC already used by another is refused; otherwise the supplier becomes `Edited` |
| Suppliers.SupplierService.Delete | src/modules/maestros/proveedores/proveedores.service.ts:91-106 | 404 when missing or deleted; otherwise the supplier is stamped deleted and reads as 404 from then on |
| Suppliers.DeleteTwice | src/modules/maestros/proveedores/proveedores.service.ts:91-106 | deleting the same supplier twice fails the second time with 404 |
| Products.NewProduct | src/modules/maestros/productos/productos.service.ts:85-91 | a new product is live, carries the given fields and is stamped with the actor as creator and updater |
| Products.Edited | src/modules/maestros/productos/productos.service.ts:116-123 | an update keeps id, deletion and creator, replaces only the given fields, stamps the time and (when known) the updater |
| Products.ProductService.constructor | src/modules/maestros/productos/productos.service.ts:6 | a new service has no products and shares the given price catalogue |
| Products.ProductService.GetById | src/modules/maestros/productos/productos.service.ts:56-76 | a live product with its active supplier links, or 404 |
| Products.Selected | src/modules/maestros/productos/productos.service.ts:10-19 | with no search every live product is listed, and a search for its own name finds it |
| Products.ProductService.ListPage | src/modules/maestros/productos/productos.service.ts:7-54 | the total counts exactly the live products whose name contains the search |
| Products.ProductService.Create | src/modules/maestros/productos/productos.service.ts:78-105 | a product and its supplier links are created together, or, when a link would be a duplicate, neither is |
| Products.ProductService.Update | src/modules/maestros/productos/productos.service.ts:107-145 | 404 when missing. Otherwise, without suppliers given, only the product changes. With suppliers given, the product's links are replaced by new ones for exactly those suppliers, or nothing changes when that would duplicate |
| Products.ProductService.Delete | src/modules/maestros/productos/productos.service.ts:147-161 | 404 when missing; otherwise the product is stamped deleted and reads as 404 from then on |
| Users.RoleNamesDistinct | src/modules/usuarios/usuarios.schemas.ts:7 | role names identify roles |
| Users.ViewOf | src/modules/usuarios/usuarios.service.ts:55-66 | the user view exposes id, user name, full name, role, active flag and supervisor, and never the password hash |
| Users.Edited | src/modules/usuarios/usuarios.service.ts:108-115 | an update keeps user name, hash, last login and failed attempts, and replaces only the given fields |
| Users.UserStore.constructor | src/modules/usuarios/usuarios.service.ts:6 | a new store has no users and no password history |
| Users.UserStore.GetById | src/modules/usuarios/usuarios.service.ts:54-72 | the user's view, or 404 exactly when there is none |
| Users.Selected | src/modules/usuarios/usuarios.service.ts:10-17 | with no search every user is listed, and a search for a user's own user name or full name finds it |
| Users.UserStore.ListPage | src/modules/usuarios/usuarios.service.ts:7-52 | the total counts exactly the users whose user name or full name contains the search |
| Users.UserStore.Create | src/modules/usuarios/usuarios.service.ts:74-102 | a taken user name is refused with no change; otherwise an active user with no login and no failed attempts is stored under a fresh id |
| Users.UserStore.Update | src/modules/usuarios/usuarios.service.ts:104-124 | 404 when missing; otherwise the user becomes `Edited` |
| Users.UserStore.ChangePassword | src/modules/usuarios/usuarios.service.ts:126-143 | 404 when missing; otherwise the old hash goes into the history and the new hash replaces it |
| Users.UserStore.ToggleActive | src/modules/usuarios/usuarios.service.ts:145-154 | 404 when missing; otherwise the active flag flips and the new flag is returned |
| Users.ToggleTwice | src/modules/usuarios/usuarios.service.ts:145-154 | toggling twice restores every user |
| Auth.PayloadOf | src/modules/auth/auth.service.ts:48-52 | the token payload carries the user's id, name and role name |
| Auth.AuthService.constructor | src/modules/auth/auth.service.ts:6 | the service reads and writes the given user store |
| Auth.AuthService.Login | src/modules/auth/auth.service.ts:7-67 | an unknown user name is refused with the credentials error and nothing changes. An inactive account is refused. A wrong password is refused and the failed-attempt count rises by one. A right password resets the count, stamps the login and returns both tokens and the user summary |
| Auth.AuthService.Refresh | src/modules/auth/auth.service.ts:69-95 | a new access token exactly when the refresh token verifies and names an existing, active user; every failure is the same 401 |
| Auth.AuthService.GetMe | src/modules/auth/auth.service.ts:97-124 | the user's id, user name, full name, role, active flag, last login and supervisor link, or 404 exactly when the id is unknown; an inactive user is still found |
| Auth.WrongThenRight | src/modules/auth/auth.service.ts:25-45 | a wrong password is refused and the right one then logs in, leaving the failed-attempt count at zero |
| AuthMiddleware.Caught | src/middlewares/auth.middleware.ts:26-34 | an expired token becomes "token expired", a malformed one "token invalid", and any other error passes through |
| AuthMiddleware.Authentication | src/middlewares/auth.middleware.ts:13-35 | without a `Bearer ` header the answer is 401 token-required; otherwise the rest of the header is verified and the request succeeds exactly when verification does |
| AuthMiddleware.BearerTokenIsVerified | src/middlewares/auth.middleware.ts:17-25 | `Bearer <token>` authenticates exactly when the token verifies, with its payload |
| AuthMiddleware.AuthenticationErrors | src/middlewares/auth.middleware.ts:26-34 | a failed authentication is a 401 or an error the verifier itself raised |
| AuthMiddleware.Request.constructor | src/middlewares/auth.middleware.ts:5-11 | a new request carries no user |
| AuthMiddleware.Authenticate | src/middlewares/auth.middleware.ts:13-35 | on success the payload is attached to the request and the chain continues; on failure the request is left as it was and the error is passed on |
| AuthMiddleware.Authorize | src/middlewares/auth.middleware.ts:37-49 | continues exactly when a user is attached whose role is among the allowed; 401 without a user and 403 for another role |
| AuthMiddleware.LoggedInUserAuthorized | src/middlewares/auth.middleware.ts:37-49 | a user who logged in passes the role check exactly when their role is one of the allowed roles |

## Left out

- Stored procedures, triggers and views are not modelled. That covers `sp_generar_codigo_requerimiento`, `sp_registrar_viaje`, the stock triggers and the views `v_stock_actual`, `v_stock_disponible` and `v_kardex_completo`. The procedures' outputs and the stock snapshot are parameters, and the stock a trigger would maintain is stated as the ledger sum `Kardex.Net`.
- The HTTP layer is not modelled: controllers, routes, Express wiring, Swagger, the error middleware's rendering, and the server bootstrap.
- Concurrency and transactions are not modelled. Each service call runs to completion on its own, and prisma's `$transaction` is an atomic block.
- bcrypt and JWT: the password hash, the password comparison, token signing and token verification are parameters (functions or values). Expiry comes through the verifier's outcome.
- The clock: `new Date()` is a `now` parameter. Reports take the local calendar moment. Turning a date string into an instant is a `date` parameter.
- `Users.UserStore.Create`: the bcrypt hash is given as a parameter rather than computed from the password.
- Money values (`Decimal`/`number`) are Dafny `real`, so binary floating-point rounding is not modelled.
- `Requirements.Percent`: `Math.round` is modelled on exact rationals, rounding halves up. Floating-point division could differ at an exact `.5`.
- The ORM's comparisons are modelled by code unit. Its `contains` is modelled as substring search, with no case folding or collation.
- The order in which a list comes back is not modelled. `ListPage` members state the total count and the paging arithmetic, not which rows fill the page in which order.
- `Reports.SortByPeriod`: `localeCompare` is modelled as code-unit order. On the `YYYY-MM` keys it sorts, both give chronological order.
- `Reports.TopMines`: among mines with equal totals, the model does not state which comes first. JavaScript's stable sort keeps the first-seen order.
- `Text.StringToNumber`: `Number()` is modelled on integer numerals only. Decimal points, exponents, hexadecimal forms and `Infinity` yield `NaN` here.
- `Zod.OptDatetime`: checks the shape of an ISO instant (digits in place, `T`, optional fraction, `Z`), not the calendar ranges of its fields. No offset form is accepted, which matches zod's default.
- String lengths in zod checks count characters. JavaScript counts UTF-16 code units.
- `Dispatches.DispatchService.Update`: the source returns the header row that `tx.despachos.update` gives back, without its lines and without any relation. The model returns the stored record with its lines.
- `Requirements.RequirementStore.UpdateStatus`: the source returns the header row that `requerimientos.update` gives back, without `requerimiento_detalles`. The model returns the stored requirement with its detail lines.
- `Requirements.RequirementStore.Update`: likewise, the source replies with the updated header row alone, and the model with the stored requirement and its detail lines.
- Product names in the stock-shortage message and the progress report are a parameter. The joined `productos` row is not modelled.
- Initial statuses (`PREPARANDO` for dispatches, `PENDIENTE` for requirements) are written out by the model. The source leaves them to the column defaults.
- Foreign keys to mines, supervisors, trips, suppliers and products are not checked. The model stores ids as given.
- Thin wrappers over the ORM are not modelled: the minas, supervisores, clasificaciones and medidas services, and the master-data zod schemas (precios, productos, proveedores, usuarios, auth), except the `activo` field of `queryPrecioSchema`, which a Findings row needs.
- `Prices.NewLinks`: a link created with a product takes the column default for `activo`, which the model takes to be true (`LinkActive`).
- `Products.ProductService.Update`: replacing a product's links deletes them outright. A history row that still points at a deleted link is not checked against its foreign key.
- The paged trip listing (`getAll` of the trip service) is not modelled. Trips are read by id and by requirement.
- `Requirements.RequirementStore.Create`: requires every requested quantity to be positive. The create schema guarantees this (`RequirementSchemas.ValidCreate`), and `GetProgress` divides by it.
- `Trips.TripService.Create`: requires that a non-zero id returned by the procedure is not already a stored trip. The procedure allocates it; this is assumed of its result, not derived.
- `Trips.TripService.Create`: the procedure's id is an auto-increment key, so the model takes it to be a natural number. A negative id, which `!idViaje` would let through, is not modelled.
- `Auth.AuthService.GetMe`: the profile leaves out `created_at`, a column default the model does not keep, and gives the supervisor as its id. The `supervisores` block (name, phone, e-mail) that `getMe` joins is not modelled.
- `Requirements.RequirementStore.Create`: the `fecha_emision` default is a parameter (`issuedDefault`), because the column's default lives in the database schema.
- `Dispatches.DispatchService.ToTransit`: the source replies with the header row that `tx.despachos.update` gives back (despachos.service.ts:263-270), without its lines. The model replies with the stored record, lines included.
- `Dispatches.DispatchService.MarkDelivered`: the source replies with the header row that `prisma.despachos.update` gives back (despachos.service.ts:284-291), without its lines. The model replies with the stored record, lines included.
- `Dispatches.DispatchService.Cancel`: the source replies with the header row that `tx.despachos.update` gives back (despachos.service.ts:327-334), without its lines. The model replies with the stored record, lines included.
- `Dispatches.DispatchService.ToTransit`: the stock shown for each line comes from one snapshot taken before the loop. Reads that interleave with the ledger rows being posted are not modelled.

## Findings

| source | as written | input that shows it | evidently intended | confidence | as-written member | corrected member |
|---|---|---|---|---|---|---|
| src/modules/reportes/reportes.service.ts:9-11 | the month's window ends at `new Date(y, m + 1, 0)`, which is midnight at the start of the month's last day, and the queries use `lte` against it | a requirement issued, or a dispatch created, at 10:00 on the last day of the current month is left out of that month's spending, dispatched value and dispatch count | every moment of the current month counts, i.e. the half-open range from the first of this month to the first of the next; `Reports.GetKpis` takes the window as a parameter, `AsWritten` or `CalendarMonth` | not executed | Reports.InWindowAsWritten, Reports.AsWrittenWindowDropsLastDay, Reports.AsWrittenKpisMissLastDay | Reports.InMonth, Reports.MonthIsHalfOpenRange, Reports.GetKpis |
| src/modules/requerimientos/requerimientos.controller.ts:27 | the controller calls `getAll(query.page, query.limit, query)`, but `getAll` takes one `filters` argument (requerimientos.service.ts:51), so it receives the page number | a query `?page=2&estado=ANULADO` lists page 1 of ten rows and includes requirements of every status | `getAll` receives the whole parsed query, so paging and every filter apply | not executed | RequirementSchemas.FiltersAsPassed, RequirementSchemas.AsPassedIgnoresQuery, RequirementSchemas.AsPassedLosesQuery | RequirementSchemas.ValidQuery, Requirements.PageOf, Requirements.RequirementStore.ListPage |
| src/modules/maestros/precios/precios.schemas.ts:17 | `activo` is `z.string().optional().transform(val => val === 'true')`, which maps an absent field to `false`, so the `activo !== undefined` test in `getAll` (precios.service.ts:14) always applies a filter | a price listing with no `activo` in the query shows only the inactive links and none of the active ones | an absent `activo` applies no filter, as the `!== undefined` test in `getAll` expects | not executed | Prices.ActiveFilterAsWritten, Prices.AsWrittenHidesActiveLinks | Prices.ActiveFilter, Prices.UnfilteredListsEveryLiveLink |
