# Restaurant-ordering client: API boundary and store reducers, in Dafny

This project models the part of a restaurant-ordering web client that sits between
the remote HTTP API and the rest of the application, and the small Redux slices
that hold the cart, the UI state and the filters.

- **Envelope schemas** (`EnvelopeSchema`). A response body is a success envelope
  (`success: true`, string `message`, any `data`) or an error envelope
  (`success: false`, string `message`, any `errors`), decided by the literal value
  of `success`.
- **Response parser** (`ParseApiResponse.Parse`). It applies four ordered branches:
  the 204 short-circuit, the success envelope checked with a caller-supplied
  domain schema, the error envelope handed to the normaliser, and "unexpected".
  A thrown value is an `Err`.
- **Error normaliser** (`NormalizeApiError`). Any caught failure becomes a
  canonical error `{status, message, fieldErrors?, rawErrors?, retriable}`:
  - status 0 means "no response";
  - statuses 401, 403, 404, 429, 0 and everything from 500 up get fixed messages;
  - a 422 yields per-field messages;
  - retriability depends on the status alone.

  `parseFieldErrors` is a method whose loop fills the dictionary entry by entry.
- **Recogniser** (`ToApiError.Recognise`). It is the shape check used before
  reading an error's `status` and `retriable`.
- **Retry policy** (`QueryClient`). `ShouldRetry` and `RetryDelay` are the
  query client's `retry` and `retryDelay` callbacks. They use capped exponential
  backoff, with a separate cap for 429.
- **Legacy helpers** (`LegacyEnvelope`). These are `unwrap` and `toArray`.
- **Store slices.** `CartSlice.Cart`, `UiSlice.Ui` and `FilterSlice.Filters` are
  classes whose methods update their fields in place, as the reducers do. The
  cart's methods are proved against functions on the item list (`Added`,
  `QuantityUpdated`, `Removed`), and the lemmas are stated about those functions.

JavaScript values are the datatype `JsonValue.Json`. It is JSON plus `JUndefined`,
which stands for an absent property and for a thrown or returned `undefined`.
`Get(v, k)` is a property read that yields `undefined` on a non-object. `String(x)`
is written out (`JsString`): integers in decimal, arrays joined with ",", other
objects as "[object Object]". The model does not cover an object with an own
`toString` key, for which `String` throws (see "## Left out"). A canonical error is the datatype
`ApiErrorType.ApiError`; `ToJson` gives the object a `throw` carries.
`ToJsonRoundTrip` proves that this object form loses nothing.

## Model

| member | source | states |
|---|---|---|
| `EnvelopeSchema.IsSuccessEnvelope` | src/lib/schemas/envelope.ts:3-7 | whether `SuccessEnvelopeSchema` accepts a value; an accepted value is a truthy object that the error schema refuses (both directions in `SuccessEnvelopeIff`) |
| `EnvelopeSchema.IsErrorEnvelope` | src/lib/schemas/envelope.ts:9-13 | whether `ErrorEnvelopeSchema` accepts a value; an accepted value is a truthy object with a string `message` (both directions in `ErrorEnvelopeIff`) |
| `EnvelopeSchema.SuccessEnvelopeIff` | src/lib/schemas/envelope.ts:3-7 | a value is a success envelope iff it is an object whose `success` is exactly `true` and whose `message` is a string; `data` is unconstrained |
| `EnvelopeSchema.ErrorEnvelopeIff` | src/lib/schemas/envelope.ts:9-13 | a value is an error envelope iff it is an object whose `success` is exactly `false` and whose `message` is a string |
| `EnvelopeSchema.ErrorsUnconstrained` | src/lib/schemas/envelope.ts:12 | adding, changing or removing `errors` never changes whether a value is an error envelope |
| `EnvelopeSchema.EnvelopesDisjoint` | src/lib/schemas/envelope.ts:3-13 | no value is both a success and an error envelope |
| `EnvelopeSchema.MessageRequired` | src/lib/schemas/envelope.ts:5-11 | a missing or non-string `message` fails both schemas |
| `EnvelopeSchema.SuccessNotCoerced` | src/lib/schemas/envelope.ts:4-10 | a non-boolean `success`, however truthy, fails both schemas |
| `EnvelopeSchema.StringTrueRejected` | src/lib/schemas/envelope.ts:4 | `success: "true"` is not a success envelope |
| `EnvelopeSchema.SuccessData` | src/lib/schemas/envelope.ts:6 | the parsed `data` is the body's `data`, or undefined when absent |
| `EnvelopeSchema.ParsedErrorEnvelope` | src/lib/schemas/envelope.ts:9-13 | the parsed error envelope is still an error envelope, keeps `message` and `errors`, and has no other keys |
| `ApiErrorType.ToJsonRoundTrip` | src/types/apiError.ts:1-7 | reading a canonical error back from its object form gives the same error |
| `ApiErrorType.ToJsonShape` | src/types/apiError.ts:1-7 | the object form has a numeric `status`, a string `message` and a boolean `retriable` |
| `JsonValue.JsString` | src/lib/normalizeApiError.ts:68 | `String(v)`; an empty array prints as "" and a one-string array as that string, which is how `["Invalid email"]` becomes "Invalid email" (`FieldErrorsArrayCase`) |
| `NormalizeApiError.IsRetriableStatus` | src/lib/normalizeApiError.ts:5-6 | statuses 429, 500, 502 and 503; every one of them also has a forced message (the full retriable rule is in `RetriableIff`) |
| `NormalizeApiError.Build` | src/lib/normalizeApiError.ts:17-59 | the object literal built for a failure that does not pass through; a retriable result always carries its status's forced message, and field errors appear only with status 422 (field by field in the lemma rows below) |
| `NormalizeApiError.Normalize` | src/lib/normalizeApiError.ts:8-60 | `normalizeApiError`, with nullish input treated as a failure without a response; every result passes the pass-through test (idempotence in `NormalizeIdempotent`) |
| `NormalizeApiError.NormalizeAsWritten` | src/lib/normalizeApiError.ts:8-60 | `normalizeApiError` as written: it throws a TypeError exactly for `null` and `undefined`, and every other result passes the pass-through test |
| `NormalizeApiError.OwnEntries` | src/lib/normalizeApiError.ts:64 | `Object.entries` of an object is its own properties; for an array, every index, in decimal, is a key mapped to its element |
| `NormalizeApiError.OwnEntriesOfArray` | src/lib/normalizeApiError.ts:64 | an array's entries have no key other than its indices in decimal |
| `NormalizeApiError.ParseFieldErrors` | src/lib/normalizeApiError.ts:62-74 | the loop over the entries computes exactly `FieldErrorsOf(errors)`, skipping a `"__proto__"` key as the prototype setter does |
| `NormalizeApiError.StoredMessagesStep` | src/lib/normalizeApiError.ts:66-72 | visiting one entry stores its message under its key, unless it gives no message or its key is `"__proto__"`, whose assignment calls the prototype setter and stores nothing |
| `NormalizeApiError.FieldErrorFromArray` | src/lib/normalizeApiError.ts:67-68 | an array entry under any key but `"__proto__"` yields `String` of its first element (of `undefined` for an empty array) |
| `NormalizeApiError.FieldErrorFromString` | src/lib/normalizeApiError.ts:69-70 | a string entry under any key but `"__proto__"` is kept verbatim |
| `NormalizeApiError.FieldErrorProtoIgnored` | src/lib/normalizeApiError.ts:66-72 | no field error is ever stored under `"__proto__"` |
| `NormalizeApiError.FieldErrorDropped` | src/lib/normalizeApiError.ts:66-72 | an entry that is neither an array nor a string is dropped |
| `NormalizeApiError.FieldErrorsAbsentIff` | src/lib/normalizeApiError.ts:63-73 | the field errors are absent iff `errors` is not a truthy object or no entry other than one keyed `"__proto__"` yields a message |
| `NormalizeApiError.FallbackAgreesWithForced` | src/lib/normalizeApiError.ts:22-51 | `fallbackMessage` equals `forcedMessage` wherever a message is forced, and is "Request failed." elsewhere |
| `NormalizeApiError.ForcedMessageTable` | src/lib/normalizeApiError.ts:40-51 | 401, 403, 404, 429, and (≥500 or 0) force their fixed messages; no other status forces one |
| `NormalizeApiError.ForcedMessageOverridesEnvelope` | src/lib/normalizeApiError.ts:53-55 | a forced message is the result's message, whatever the envelope says |
| `NormalizeApiError.UnforcedMessage` | src/lib/normalizeApiError.ts:20-55 | otherwise the message is the envelope's when the body is an error envelope, else "Request failed." |
| `NormalizeApiError.StatusFromResponse` | src/lib/normalizeApiError.ts:18 | the status is `response.status` when numeric, and 0 when there is no response |
| `NormalizeApiError.RetriableIff` | src/lib/normalizeApiError.ts:58 | `retriable` holds iff the status is 429, 500, 502, 503 or 0 |
| `NormalizeApiError.ServerErrorsNotAllRetriable` | src/lib/normalizeApiError.ts:49-58 | 501 and 504 get the server-error message but are not retriable |
| `NormalizeApiError.NoResponseIsRetriable` | src/lib/normalizeApiError.ts:17-59 | without a response the result is status 0, "Server error. Please try again.", no field or raw errors, retriable |
| `NormalizeApiError.FieldErrorsOnlyFor422` | src/lib/normalizeApiError.ts:35-38 | field errors are set only for 422 with a valid error envelope, and are then parsed from its `errors` |
| `NormalizeApiError.RawErrorsKept` | src/lib/normalizeApiError.ts:57 | `rawErrors` is the envelope's `errors` for a valid envelope, else the raw response data |
| `NormalizeApiError.NormalizeOutputPassesThrough` | src/lib/normalizeApiError.ts:9-16 | every result has a numeric `status` and a string `message` |
| `NormalizeApiError.NormalizeIdempotent` | src/lib/normalizeApiError.ts:9-16 | normalising a result again returns it unchanged |
| `NormalizeApiError.NormalizeBuilds` | src/lib/normalizeApiError.ts:53-59 | an input that does not pass through becomes exactly the built canonical error |
| `NormalizeApiError.NormalizeAsWrittenDiffersOnlyOnNullish` | src/lib/normalizeApiError.ts:17-18 | as written, `null` and `undefined` throw a TypeError; on every other input the model agrees with the source |
| `NormalizeApiError.NormalizeNullishIsNoResponse` | src/lib/normalizeApiError.ts:17-18 | the corrected normaliser maps `null` and `undefined` to the no-response error |
| `NormalizeApiError.FieldErrorsArrayCase` | src/__tests__/normalizeApiError.test.ts:5-17 | a 422 with `errors: {email: ["Invalid email"]}` has field errors `{email: "Invalid email"}` |
| `NormalizeApiError.FieldErrorsStringCase` | src/__tests__/normalizeApiError.test.ts:19-31 | a 422 with `errors: {email: "Invalid email"}` has field errors `{email: "Invalid email"}` |
| `NormalizeApiError.ProtoKeyCase` | src/lib/normalizeApiError.ts:35-73 | a 422 whose only field error is keyed `"__proto__"` has no field errors and keeps the envelope's message |
| `NormalizeApiError.StatusCases` | src/__tests__/normalizeApiError.test.ts:33-57 | 401 gets the session message; 429 and 500 are retriable; `{}` is status 0 and retriable |
| `ToApiError.Recognise` | src/lib/toApiError.ts:3-18 | whatever is returned is the input itself |
| `ToApiError.RecogniseIff` | src/lib/toApiError.ts:8-17 | the input is returned iff it is an object with a numeric `status`, a string `message` and a boolean `retriable`; otherwise the result is undefined |
| `ToApiError.PrimitivesRejected` | src/lib/toApiError.ts:4-6 | null, undefined and primitives give undefined |
| `ToApiError.RecognisesCanonical` | src/lib/toApiError.ts:9-14 | every canonical error in object form is recognised |
| `ToApiError.StricterThanPassThrough` | src/lib/toApiError.ts:9-13 | `{status: 503, message: "down"}` passes the normaliser unchanged but is not recognised |
| `ToApiError.RecognisesNormalized` | src/lib/toApiError.ts:9-14 | every error the normaliser builds is recognised |
| `ParseApiResponse.Parse` | src/lib/parseApiResponse.ts:7-41 | `parseApiResponse`; 204 gives no content, and any other returned value comes from a success envelope (both directions in `OkIff`, thrown values in `ThrownIsCanonical`) |
| `ParseApiResponse.NoContentIgnoresBody` | src/lib/parseApiResponse.ts:11-13 | status 204 returns no content, whatever the body and the schema |
| `ParseApiResponse.OkIff` | src/lib/parseApiResponse.ts:15-26 | apart from 204, the parser returns iff the body is a success envelope whose `data` passes the schema, and then returns the schema's value |
| `ParseApiResponse.DomainMismatchIs500` | src/lib/parseApiResponse.ts:17-24 | a success envelope with bad `data` throws `{500, "Unexpected API response", retriable false}` for any transport status |
| `ParseApiResponse.ErrorEnvelopeNormalised` | src/lib/parseApiResponse.ts:29-33 | an error envelope throws a canonical error. It keeps the transport status and takes the forced message or the envelope's. It is retriable by status, and its raw and field errors come from `errors` |
| `ParseApiResponse.NeitherShapeIsUnexpected` | src/lib/parseApiResponse.ts:36-40 | a body of neither shape throws `{status, "Unexpected API response", retriable false}` with no field errors |
| `ParseApiResponse.ThrownIsCanonical` | src/lib/parseApiResponse.ts:19-40 | every thrown value is a canonical error recognised by `toApiError`, and normalising it again returns it unchanged |
| `ParseApiResponse.FooCases` | src/__tests__/parseApiResponse.test.ts:6-25 | `{foo: "bar"}` parses to "bar"; `{foo: 123}` throws the 500 error |
| `QueryClient.ShouldRetry` | src/lib/queryClient.ts:9-13 | the `retry` callback; it retries only a recognised error, and only before the third failure (both directions in `ShouldRetryIff`) |
| `QueryClient.RetryDelay` | src/lib/queryClient.ts:14-20 | the `retryDelay` callback; every delay lies within 500..10000 ms (the exact values in `TooManyRequestsDelay` and `OtherDelay`) |
| `QueryClient.ShouldRetryIff` | src/lib/queryClient.ts:9-13 | retry iff the error is recognised, its `retriable` is true, and fewer than 3 failures occurred |
| `QueryClient.NeverRetried` | src/lib/queryClient.ts:10-11 | an unrecognised or non-retriable error is never retried |
| `QueryClient.RetryCap` | src/lib/queryClient.ts:11-12 | a retriable error retries at count 2 and not at 3; a non-retriable one not even at 0 |
| `QueryClient.RetryFollowsStatus` | src/lib/queryClient.ts:9-13 | for a normalised error, retrying depends only on status ∈ {429, 500, 502, 503, 0} and the count |
| `QueryClient.TooManyRequestsDelay` | src/lib/queryClient.ts:16-17 | for 429 the delay is `min(1000·2^attempt, 10000)`: 1000 at 0, 10000 from 4 on |
| `QueryClient.OtherDelay` | src/lib/queryClient.ts:19 | otherwise the delay is `min(500·2^attempt, 8000)`: 500 at 0, 8000 from 4 on |
| `QueryClient.DelayMonotoneAndBounded` | src/lib/queryClient.ts:14-20 | the delay never decreases with the attempt and stays within 500..10000 |
| `LegacyEnvelope.Unwrap` | src/lib/envelope.ts:15-25 | `unwrap`; it returns only for an object whose `success` is `true`, and a falsy payload throws "Request failed" with no errors (both directions in `UnwrapOkIff`) |
| `LegacyEnvelope.ToArray` | src/lib/envelope.ts:27-40 | `toArray`; any array it returns is the input itself or the input's `items` (both directions in `ToArrayIff`) |
| `LegacyEnvelope.UnwrapOkIff` | src/lib/envelope.ts:15-25 | `unwrap` returns iff the payload is an object whose `success` is exactly true, and then returns its `data` |
| `LegacyEnvelope.UnwrapFailureFromObject` | src/lib/envelope.ts:16-22 | otherwise the thrown message is `payload.message` if present, else "Request failed"; `errors` is `payload.errors` if present, else undefined |
| `LegacyEnvelope.UnwrapNonObject` | src/lib/envelope.ts:16-22 | a falsy payload throws "Request failed"; a truthy primitive makes `in` throw a TypeError |
| `LegacyEnvelope.UnwrapEnvelopes` | src/lib/envelope.ts:15-25 | a success envelope unwraps to its data; an error envelope throws its own message and errors |
| `LegacyEnvelope.ToArrayKeepsArrays` | src/lib/envelope.ts:28-30 | an array is returned unchanged |
| `LegacyEnvelope.ToArrayIff` | src/lib/envelope.ts:27-40 | the result is an array iff the input is an array or an object whose `items` is an array, and it is that array; otherwise null |
| `CartSlice.Find` | src/store/slices/cartSlice.ts:28-30 | `find` gives the first entry with the `menuId`, or none when no entry has it |
| `CartSlice.Cart.constructor` | src/store/slices/cartSlice.ts:19-21 | the cart starts empty |
| `CartSlice.Cart.AddItem` | src/store/slices/cartSlice.ts:27-39 | the new list is `Added(old list)`, and distinct `menuId`s stay distinct |
| `CartSlice.Cart.UpdateQuantity` | src/store/slices/cartSlice.ts:40-50 | the new list is `QuantityUpdated(old list)`, and distinct `menuId`s stay distinct |
| `CartSlice.Cart.RemoveItem` | src/store/slices/cartSlice.ts:51-55 | the new list is `Removed(old list)`, and distinct `menuId`s stay distinct |
| `CartSlice.Cart.ClearCart` | src/store/slices/cartSlice.ts:56-58 | the list becomes empty |
| `CartSlice.AddedMerges` | src/store/slices/cartSlice.ts:28-33 | for a present `menuId`, that entry's quantity grows by the payload's; the length and all else are unchanged |
| `CartSlice.AddedAppends` | src/store/slices/cartSlice.ts:34-38 | for a new `menuId`, exactly one entry is appended: the payload with id `${menuId}-${now}` |
| `CartSlice.MergeIgnoresRestaurant` | src/store/slices/cartSlice.ts:28-30 | the same `menuId` from another restaurant merges into the existing entry, which keeps its restaurant |
| `CartSlice.AddedPreservesDistinct` | src/store/slices/cartSlice.ts:28-38 | `addItem` keeps `menuId`s distinct |
| `CartSlice.QuantityClamped` | src/store/slices/cartSlice.ts:44-49 | the matching entry's quantity becomes `max(1, q)`; the order and other entries are unchanged |
| `CartSlice.QuantityUnknownUnchanged` | src/store/slices/cartSlice.ts:47 | an unknown `menuId` leaves the cart unchanged |
| `CartSlice.RemovedMembers` | src/store/slices/cartSlice.ts:52-54 | an entry remains iff it was present and has another `menuId` |
| `CartSlice.RemovedDistributes` | src/store/slices/cartSlice.ts:52-54 | removal distributes over concatenation, so the relative order of the rest is kept |
| `CartSlice.RemovedPreservesDistinct` | src/store/slices/cartSlice.ts:51-55 | `removeItem` keeps `menuId`s distinct |
| `UiSlice.Ui.constructor` | src/store/slices/uiSlice.ts:18-30 | modal and drawer closed, both ids null, every `last*` field undefined |
| `UiSlice.Ui.OpenMenuDetail` | src/store/slices/uiSlice.ts:36-43 | opens the modal on `menuId`; the restaurant is the one given, or null when omitted; changes only these three fields |
| `UiSlice.Ui.CloseMenuDetail` | src/store/slices/uiSlice.ts:44-48 | closes the modal and clears both ids, changing nothing else |
| `UiSlice.Ui.ToggleFilter` | src/store/slices/uiSlice.ts:49-51 | the drawer becomes the given value, or the negation when none is given |
| `UiSlice.Ui.SetLastCheckoutAt` | src/store/slices/uiSlice.ts:52-54 | changes only `lastCheckoutAt` |
| `UiSlice.Ui.SetLastCheckoutSummary` | src/store/slices/uiSlice.ts:55-72 | overwrites all six summary fields; absent payload fields become undefined |
| `UiSlice.ToggleTwiceRestores` | src/store/slices/uiSlice.ts:49-51 | two toggles without a value restore the drawer |
| `UiSlice.OpenThenClose` | src/store/slices/uiSlice.ts:36-48 | opening then closing leaves the modal closed with no ids and the modal invariant holding, the rest untouched |
| `FilterSlice.Filters.constructor` | src/store/slices/filterSlice.ts:15-22 | all six filters start null |
| `FilterSlice.Filters.SetCategory` | src/store/slices/filterSlice.ts:28-30 | writes `category` and nothing else |
| `FilterSlice.Filters.SetPriceMin` | src/store/slices/filterSlice.ts:31-33 | writes `priceMin` and nothing else |
| `FilterSlice.Filters.SetPriceMax` | src/store/slices/filterSlice.ts:34-36 | writes `priceMax` and nothing else |
| `FilterSlice.Filters.SetRating` | src/store/slices/filterSlice.ts:37-39 | writes `rating` and nothing else |
| `FilterSlice.Filters.SetSort` | src/store/slices/filterSlice.ts:40-42 | writes `sort` and nothing else |
| `FilterSlice.Filters.SetDistance` | src/store/slices/filterSlice.ts:43-45 | writes `distance` and nothing else |
| `FilterSlice.Filters.ResetFilters` | src/store/slices/filterSlice.ts:46-48 | any state becomes the initial state |
| `FilterSlice.SetCategoryTwice` | src/store/slices/filterSlice.ts:28-30 | setting a filter twice with the same payload equals setting it once |
| `FilterSlice.SetPricesAndSortTwice` | src/store/slices/filterSlice.ts:31-42 | the same for the price bounds and the sort; a null payload clears the filter |
| `FilterSlice.SetRatingAndDistanceTwice` | src/store/slices/filterSlice.ts:37-45 | the same for the rating and the distance |

## Left out

- Numbers are integers, except the filter slice's `rating`, which is a real. Floating point, `NaN` and `Infinity` are not modelled. `String` of an integer is written with all its digits, whereas JavaScript writes magnitudes of 1e21 and above in exponent form ("1e+21"). For `RetryDelay` this makes no difference: when `2 ** attempt` overflows to `Infinity`, `Math.min` still returns the cap.
- NormalizeApiError.Normalize requires that a failure's `response.status` is a number or absent, as axios guarantees. A non-numeric status would need JavaScript's loose `>=` coercion, which is not modelled.
- `Get` models property reads only for keys that are not array indices. The core reads no other keys (`length`, for example).
- ApiErrorType.ToJson leaves out properties whose value is `undefined`. The source's object literal writes `fieldErrors: undefined`. No property read can tell the two apart.
- The zod library is represented by what its schemas accept. The domain schemas (restaurant, order, auth, user) are a function parameter of `Parse`: `Some(value)` for a successful parse, `None` for a failed one.
- `Date.now()` is the parameter `now` of `Cart.AddItem`.
- `new Error(message)` is modelled by its message and the attached `errors` only.
- JsString: an object with an own `toString` key (which `JSON.parse` can produce, and whose value is never callable) makes `String` throw a TypeError. The model prints "[object Object]" instead, and so does an array holding such an object. Carrying that error through the normaliser and `unwrap` is not modelled.
- FieldErrorFromArray: when the array's first element is an object with an own `toString` key, the source throws at src/lib/normalizeApiError.ts:68. The lemma states the "[object Object]" message that `JsString` gives instead.
- UnwrapFailureFromObject: when `message` is an object with an own `toString` key, `new Error(message)` at src/lib/envelope.ts:19 throws a TypeError. The lemma states the "[object Object]" message instead.
- The Redux store, immer and dispatch are not modelled. Each reducer is a method on the slice's class.
- The order of `Object.entries` is not modelled. The field-error dictionary is a map, and each key is written once, so the order cannot matter.
- The axios instance, the bearer-token header and the 401 redirect interceptor (src/lib/api.ts) are left out: they are global state, I/O and navigation.
- The endpoint wrappers and hooks are left out. Their only logic is "parse, then rethrow through the normaliser". `ParseApiResponse.ThrownIsCanonical` proves that the rethrow returns the parser's error unchanged.
- The pages, the components, `recommended.ts` and the endpoint matrix are rendering, network access or static data.
- The search slice is a one-field setter with nothing to prove. The query client's `staleTime` and `refetchOnWindowFocus` are library configuration.
- A canonical error's message can be empty. For an unforced status the code copies the envelope's `message`, which may be `""` (`UnforcedMessage`).

## Findings

| source | as written | input that shows it | evidently intended | confidence | as-written member | corrected member |
|---|---|---|---|---|---|---|
| src/lib/normalizeApiError.ts:17-18 | `axiosError.response?.status` reads `.response` off the caught value with no guard for `null` or `undefined`, so the normaliser throws a TypeError | `normalizeApiError(null)` (for example after `throw null` in an endpoint's `try`) | a total normaliser: treat the value as a failure with no response, giving status 0, a server-error message, retriable | medium; not executed | `NormalizeApiError.NormalizeAsWrittenDiffersOnlyOnNullish` | `NormalizeApiError.NormalizeNullishIsNoResponse` |
