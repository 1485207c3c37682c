# Payments listing: verified model of the query and validation core

This project models the logic behind a small payments-listing API. The API
serves payment records (`id`, `amount`, `currency`, `scheduled_date`,
`recipient`, `status`) from a local JSON file or a DynamoDB table. It lists the
pending ones, optionally narrowed by a recipient substring, an exclusive
`after` or `before` date bound, or an exact `date`. It also flags payments due
within 24 hours and looks up a single payment by id.

Modules, one per source file or concept:

- `Wrappers`: `Option` (JavaScript `null`/`undefined`) and `Result` (a rejected promise or a thrown error).
- `JsRuntime`: the JavaScript behaviour the code relies on. This covers truthiness of query values, `toLowerCase` (ASCII), `trim` (the ECMAScript whitespace set), `includes`, and `new Date(v)` as a parameter `parse: string -> Option<int>`, where `None` stands for an Invalid Date.
- `Sequences`: `Filter` (`Array.prototype.filter`), subsequences, and the algebra of filters.
- `Payments`: the entities. These are payments, the four filter values, the environment variables (with their `||` defaults), and the remote table seen as an oracle.
- `RequestsHelper` (`backend/src/requests-helper.js`): `IsWithin24Hours` and `ValidateFilters`.
- `RootRequestsHelper` (`src/requests-helper.js`): the second copy of the validator. It is proved equal to the backend's.
- `FunctionalDataLayer` (`backend/src/data-layer.js`): the data access and the staged query pipeline. The pipeline is proved equal to a single-pass reference filter.
- `RootDataLayer` (`src/data-layer.js`): the `DataLayer` class. Its fields are `isLambda`, `tableName`, `_docClient` (as `docClient`) and `localData`. It has a memoised client and methods proved against the functional pipeline.
- `PaymentsApi` (`backend/app.js`): the two handler bodies as pure response assembly over an abstract data layer.
- `Scenarios`: the three-payment store of the unit tests and what the pipeline returns on it.

Where the code and its surrounding documentation disagree, the model follows the code:

- An unparseable `after` or `before` is said to let every payment through: the comment at `backend/__tests__/integration/api.integration.test.js:199` reads "Should return all payments when date is invalid". In the code, `new Date(x) > Invalid Date` is always false, so such a bound removes every payment (`backend/src/data-layer.js:99-112`). `FunctionalDataLayer.UnparseableBoundEmptiesResult` proves the code's behaviour. The integration test at `backend/__tests__/integration/api.integration.test.js:194-202` only checks that an array comes back, so it passes either way.
- `backend/app.js:3,7` calls `new DataLayer()` on `backend/src/data-layer.js`. That module exports a plain object of functions, not a class. The handlers' use of `dataLayer.isLambda` matches the class in `src/data-layer.js`. `PaymentsApi` therefore takes the data layer as parameters: a query function, a lookup function and the `isLambda` flag. It does not model the failing construction.

## Model

| member | source | states |
|---|---|---|
| `RequestsHelper.IsWithin24Hours` | backend/src/requests-helper.js:1-6 | The flag computed in hours with real division is true iff the date parses and `now < date <= now + 24h` in integer milliseconds. A past date, a date exactly at `now`, a date more than 24h ahead, and an Invalid Date all give false. |
| `RequestsHelper.ValidateFilters` | backend/src/requests-helper.js:8-72 | The result is valid iff `error` is null, and then it is exactly `{isValid: true, error: null}`. Every rejection has status 400 and error `"Invalid filters"`. |
| `RequestsHelper.ValidIffAcceptable` | backend/src/requests-helper.js:11-66 | A filter set is accepted iff no rule is broken: no before with after, no date with a range bound, a truthy date parses, and a truthy recipient is a string that is not all whitespace. |
| `RequestsHelper.BeforeWithAfterRejected` | backend/src/requests-helper.js:11-22 | Truthy `before` and `after` give the "before and after cannot be used together" rejection, whatever `date` and `recipient` hold. |
| `RequestsHelper.DateWithRangeRejected` | backend/src/requests-helper.js:24-35 | A truthy `date` with exactly one truthy range bound gives the "date and before/after cannot be used together" rejection. |
| `RequestsHelper.InvalidDateRejected` | backend/src/requests-helper.js:37-51 | With no range bound set, a truthy `date` that does not parse is rejected with "date is invalid", whatever the recipient holds. |
| `RequestsHelper.OnlyDateIsFormatChecked` | backend/src/requests-helper.js:37-51 | An unparseable `date` alone is rejected with "date is invalid". An unparseable `after` or `before` alone is valid. |
| `RequestsHelper.RecipientRule` | backend/src/requests-helper.js:53-66 | Once the date rules pass, a non-string recipient or a non-empty all-whitespace one is rejected with the recipient message. A recipient with a non-whitespace character, or an empty one, is valid. |
| `RequestsHelper.FalsyIsAbsent` | backend/src/requests-helper.js:9-53 | Replacing every falsy field (empty string or missing) by `undefined` never changes the validator's result. |
| `RootRequestsHelper.ValidateFilters` | src/requests-helper.js:1-65 | The root copy's guard chain gives null `error` iff valid, and status 400 on every rejection. |
| `RootRequestsHelper.SameAsBackend` | src/requests-helper.js:4-59 | The root copy returns the same result as the backend validator on every input: same rule order, messages and statuses. |
| `RootRequestsHelper.EmptyAfterIsAbsent` | src/requests-helper.js:4-17 | `{after: "", before: b}` is valid: an empty `after` never triggers a rule. |
| `RootRequestsHelper.BlankRecipientRejected` | src/requests-helper.js:46-59 | A whitespace-only or non-string recipient alone gives "recipient must be a string and not empty.". |
| `JsRuntime.TrimEmptyIffBlank` | backend/src/requests-helper.js:54 | `s.trim() === ''` holds exactly for strings made only of ECMAScript whitespace and line terminators. |
| `JsRuntime.ContainsIffOccurs` | backend/src/data-layer.js:94 | `includes` holds exactly when the needle occurs at some position of the haystack. |
| `JsRuntime.Lower` | backend/src/data-layer.js:92-94 | Lower-casing keeps the length, maps each upper-case ASCII letter to its lower-case letter, and keeps every other character. No upper-case ASCII letter is left. |
| `JsRuntime.DateOf` | backend/src/requests-helper.js:38-39 | `new Date(v)` on a request value: a string is parsed as is, an object through its string conversion, and `undefined` gives an Invalid Date. |
| `Sequences.Filter` | backend/src/data-layer.js:62 | The filtered list is no longer than the input, and an element is in it iff it is in the input and satisfies the predicate. |
| `Sequences.FilterIsSubsequence` | backend/src/data-layer.js:93-119 | Every filter stage returns an order-preserving subsequence of its input. |
| `Sequences.FilterFilter` | backend/src/data-layer.js:88-119 | Two filters in a row are one filter by the conjunction. |
| `Payments.TableName` | backend/src/data-layer.js:50 | The table name is never empty. It is the configured name when one is set and non-empty, and `"PaymentsTable"` otherwise. |
| `Payments.ScanItems` | backend/src/data-layer.js:52-53 | A scan fails iff the remote call fails. A response without `Items` gives `[]`, and otherwise the items. |
| `Payments.Region` | backend/src/data-layer.js:37 | The configured region when one is set and non-empty, and `"us-east-1"` otherwise. |
| `FunctionalDataLayer.IsLambdaEnvironment` | backend/src/data-layer.js:20 | Lambda mode holds iff the function-name variable is set and non-empty. |
| `FunctionalDataLayer.LoadLocalData` | backend/src/data-layer.js:23-32 | The parsed array when reading and parsing succeed, and `[]` when either fails. No failure reaches the caller. |
| `FunctionalDataLayer.UsesLambda` | backend/src/data-layer.js:44 | The `isLambda` option when it is given, and `isLambdaEnvironment()` otherwise. |
| `FunctionalDataLayer.LocalData` | backend/src/data-layer.js:56 | The injected list when one is given (an empty array is truthy), and the loaded file otherwise. |
| `FunctionalDataLayer.GetAllPayments` | backend/src/data-layer.js:43-58 | The local branch never fails. It returns the injected list when one is given (even an empty one), and otherwise the loaded file, which is `[]` when loading fails. The remote branch is the scan's `Items || []`, so it fails iff the scan fails. |
| `FunctionalDataLayer.Pending` | backend/src/data-layer.js:62 | A payment is in the result iff it is in the input and has status `"pending"`. The result is an order-preserving subsequence of the input. |
| `FunctionalDataLayer.GetPendingPayments` | backend/src/data-layer.js:60-63 | It succeeds iff the read succeeds. It then returns exactly the pending entries of what was read, once each and in their original order. |
| `FunctionalDataLayer.ApplyFilters` | backend/src/data-layer.js:88-121 | The stages fail only on a truthy non-string recipient, where `toLowerCase` throws. |
| `FunctionalDataLayer.GetPaymentsWithFilters` | backend/src/data-layer.js:86-122 | It succeeds iff the read succeeds and the recipient can be lower-cased. |
| `FunctionalDataLayer.ApplyFiltersIsFilter` | backend/src/data-layer.js:91-119 | The four conditional stages equal one order-preserving filter by the conjunction of the truthy filters' conditions. |
| `FunctionalDataLayer.FilteredPaymentsSelected` | backend/src/data-layer.js:86-121 | Every result is pending. The results are a subsequence of the stored payments in store order. A stored payment is returned iff it is pending and passes every truthy filter. |
| `FunctionalDataLayer.PipelineSelects` | backend/src/data-layer.js:87-121 | The same statement over any list: pending-only followed by the stages equals one filter by "pending and matching". |
| `FunctionalDataLayer.NoFilterIsPending` | backend/src/data-layer.js:86-121 | With no truthy filter, `getPaymentsWithFilters` equals `getPendingPayments`. |
| `FunctionalDataLayer.FalsyFilterIsAbsent` | backend/src/data-layer.js:91-119 | An empty-string filter behaves exactly like a missing one. |
| `FunctionalDataLayer.RecipientIgnoresCase` | backend/src/data-layer.js:91-96 | Two recipient filters that lower-case alike (`"JOHN"`, `"john"`) give identical results. |
| `FunctionalDataLayer.RecipientIsSubstringMatch` | backend/src/data-layer.js:91-96 | With only a recipient set, a payment is kept iff its lower-cased recipient contains the lower-cased filter at some position. |
| `FunctionalDataLayer.RangeBoundsAreStrict` | backend/src/data-layer.js:99-112 | A kept payment has a parseable date lying strictly after `after` and strictly before `before`. A payment whose date does not parse, or is exactly at a bound, is dropped by that bound. |
| `FunctionalDataLayer.UnparseableBoundEmptiesResult` | backend/src/data-layer.js:99-112 | A truthy `after` or `before` that does not parse leaves the result empty. |
| `FunctionalDataLayer.DateFilterIsStringEquality` | backend/src/data-layer.js:115-119 | With only `date` set, the result is exactly the entries whose `scheduled_date` string equals the filter string, in order. |
| `FunctionalDataLayer.FindById` | backend/src/data-layer.js:82 | The result is null iff no entry has the id. Otherwise it is an entry of the list carrying that id. |
| `FunctionalDataLayer.FindByIdIsFirst` | backend/src/data-layer.js:82 | The lookup returns the first entry with the id. |
| `FunctionalDataLayer.GetPaymentById` | backend/src/data-layer.js:65-84 | The local branch never fails. It gives the first local entry with the id (`FindById`), and null iff no local entry has it. In Lambda mode it is the key lookup on the configured table. |
| `RootDataLayer.DataLayer.constructor` | src/data-layer.js:9-18 | `isLambda` holds iff the marker is non-empty. `tableName` is the configured name or `"PaymentsTable"`. The client is null. Outside Lambda, `localData` is loaded once, and it is `[]` on a load failure. |
| `RootDataLayer.DataLayer.LoadLocalData` | src/data-layer.js:29-38 | `localData` becomes the parsed array, or `[]` when reading or parsing fails. |
| `RootDataLayer.DataLayer.GetDynamoClient` | src/data-layer.js:21-27 | It is null outside Lambda. In Lambda mode the first call stores a fresh client for the configured region. Every later call returns that same object without building another. |
| `RootDataLayer.DataLayer.GetAllPayments` | src/data-layer.js:40-53 | It returns the scan or the stored local data, and the local branch never fails. `isLambda`, `tableName` and `localData` are unchanged. The client cache is untouched outside Lambda. In Lambda mode it is kept when already built, and otherwise holds a fresh client for the configured region. |
| `RootDataLayer.DataLayer.GetPendingPayments` | src/data-layer.js:55-58 | It returns the pending entries, an order-preserving subsequence of what the instance reads. Nothing but the client cache changes. The cache is untouched outside Lambda. In Lambda mode it is kept when already built, and otherwise holds a fresh client for the configured region. |
| `RootDataLayer.DataLayer.GetPaymentById` | src/data-layer.js:60-74 | The local branch returns the first entry with the id or null, never a failure. The Lambda branch is the key lookup on the instance's table. The client cache is untouched outside Lambda. In Lambda mode it is kept when already built, and otherwise holds a fresh client for the configured region. |
| `RootDataLayer.DataLayer.GetPaymentsWithFilters` | src/data-layer.js:76-112 | The stage-by-stage method equals the functional pipeline. Its result is the pending entries that pass every truthy filter, as a subsequence of the instance's data. `isLambda`, `tableName` and `localData` are unchanged. The client cache is untouched outside Lambda. In Lambda mode it is kept when already built, and otherwise holds a fresh client for the configured region. |
| `PaymentsApi.Highlight` | backend/app.js:32-35 | Same length and order as the filtered list. Each item is the payment with its `isWithin24Hours` flag. |
| `PaymentsApi.TotalAmountIsSum` | backend/app.js:38 | The `reduce` fold equals the sum of the amounts, which is 0 for an empty list. |
| `PaymentsApi.FilteredTotalBounded` | backend/app.js:38 | With non-negative amounts, the total of a filtered list is between 0 and the total of the list it was filtered from. |
| `PaymentsApi.Currency` | backend/app.js:44 | The first payment's currency, or `"USD"` when the list is empty. |
| `PaymentsApi.ListPayments` | backend/app.js:12-51 | Status 400 iff the filters are invalid. Status 200 iff they are valid and the data layer answers. With valid filters, a data-layer failure gives exactly 500 `{error: "Internal server error"}`. |
| `PaymentsApi.InvalidFiltersShortCircuit` | backend/app.js:21-27 | Invalid filters give status 400 with the validator's body, whatever the data layer would answer. |
| `PaymentsApi.ListingDescribesPayments` | backend/app.js:29-46 | A listing carries the filtered payments in order. `count` is their number, `totalAmount` the sum of their amounts (0 if none), and `currency` the first one's (`"USD"` if none). Each listed item is the payment with its `isWithin24Hours` flag. `dataSource` is `"DynamoDB"` in Lambda mode and `"Local JSON"` otherwise. |
| `PaymentsApi.ListingIsPending` | backend/app.js:29-35 | Served from the functional data layer, every listed payment is pending, and the list is a subsequence of the stored payments. |
| `PaymentsApi.GetPayment` | backend/app.js:53-69 | A null lookup gives 404 `{error: "Payment not found"}`. A found payment gives 200 with that payment and its `isWithin24Hours` flag. `dataSource` is `"DynamoDB"` in Lambda mode and `"Local"` otherwise. A lookup failure gives exactly 500 `{error: "Internal server error"}`. |
| `PaymentsApi.LocalLookupNotFoundIffAbsent` | backend/app.js:55-58 | Served locally, a lookup is never a 500. It is 404 iff no stored payment has the id, and otherwise the first stored payment with that id, tagged `"Local"`. |
| `Scenarios.RecipientJohn` | backend/__tests__/unit/data-layer.unit.test.js:104-113 | On the test store, `{recipient: "John"}` and `{recipient: "JOHN"}` return exactly `[txn_001]`. The upper-case case is the test at backend/__tests__/unit/data-layer.unit.test.js:222-231. |
| `Scenarios.RecipientOfCompletedPayment` | backend/__tests__/unit/data-layer.unit.test.js:268-277 | `{recipient: "Bob"}` returns `[]` because Bob's payment is completed. |
| `Scenarios.AfterSeptember29` | backend/__tests__/unit/data-layer.unit.test.js:115-125 | `{after: "2025-09-29"}` returns exactly `[txn_002]` for any parser that orders the three dates as the calendar does. |
| `Scenarios.AfterIsExclusive` | backend/__tests__/unit/data-layer.unit.test.js:244-253 | `{after: "2025-10-01"}` returns `[]`, because the bound is exclusive. |
| `Scenarios.PendingAndLookupOnStore` | backend/__tests__/unit/data-layer.unit.test.js:75-102 | The pending payments are `[txn_001, txn_002]`. `txn_001` is found, and an unknown id gives null. |

## Left out

- DynamoDB access is left out: `loadAwsSdk`, `createDynamoClient`, `ScanCommand`/`GetCommand` and `client.send`. The table is the `RemoteTable` oracle: a scan per table name, and a lookup per table name and id. Each returns data or a failure. The client object carries only its region.
- `fs.readFileSync` and `JSON.parse` are left out. Their combined outcome is a `Result<seq<Payment>>` given to `LoadLocalData`. The `console.warn` diagnostic is not modelled.
- The grammar of JavaScript `Date` parsing is left out. It is the `parse` parameter, so every property holds for any parser.
- `JsRuntime.Lower`: lower-cases ASCII letters only. The Unicode case mapping of `toLowerCase` is not modelled.
- `RequestsHelper.IsWithin24Hours`: uses exact real arithmetic for the hour division. Floating-point rounding is not modelled. Each call's clock reading is the `now` parameter, and one response uses a single `now` for all its payments.
- Payment records are typed records with integer amounts. Missing fields, non-string recipients in stored data, and floating-point amounts are not modelled.
- async/await is not modelled: every call is awaited in sequence, so calls are sequential. A rejected promise is a `Failure`.
- Express routing, CORS, `res.status`/`res.json`, the `/health` route and server start-up are not modelled. Responses are `Response(status, body)` values.
- The construction `new DataLayer()` in `backend/app.js:7` is not modelled (see above).
- `RootDataLayer.DataLayer.GetDynamoClient`: takes the environment as a parameter, standing for the module-level `AWS_REGION` read.
- Spreading a payment into the response object (`{...payment, isWithin24Hours}`) is a pair of the payment and the flag.
