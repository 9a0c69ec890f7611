# Telgea MVNO normalisation pipeline in Dafny

This project models the part of the Telgea MVNO integration that turns two upstream payloads into one internal record:

- the SOAP SMS-charge response and the REST usage response, as the DTO types of `src/application/dtos/index.ts`;
- the two schema mappers, `SoapToInternalMapper` and `RestToInternalMapper`, which build a *partial internal format* and domain value objects;
- `DataAggregationService`, which folds partial formats with object spread, defaults `sms_charges` to `[]` and validates eleven required values by JavaScript truthiness, throwing on the first that fails;
- the domain model: the value objects `User`, `BillingPeriod`, `SmsCharge`, `UsageData` and the aggregate `NormalizedUserData`, whose charge list grows in place;
- the three use cases, which fetch, map, merge where there are two fragments, and rethrow any failure with a fixed prefix.

The repository holds most of this logic twice: in the suffixed `.mapper` / `.service` / `.use-case` files and in the unsuffixed files. The two copies do the same thing, so one model serves both. The table below cites each copy.

Modules:

- `Wrappers`: `Option` and `Result`.
- `JsValues`: JavaScript numbers (finite, infinite or NaN), the truthiness of numbers and strings, and the global `parseFloat`.
- `Dtos`: the payload and output records. A `Partial<InternalApiFormatDto>` is a `Fragment`: one `Option` slot per key, `None` where the key is absent.
- `Domain`: the value objects as datatypes and `NormalizedUserData` as a class. A JavaScript `Date` is `DateOf(text)`. `toISOString` is a parameter of type `Date -> Option<string>`; `None` is the RangeError an invalid Date throws.
- `SoapMapper`, `RestMapper`: the mappers as functions, with the unit tests' fixtures.
- `Aggregation`: the merge and validation.
  - `MergeFold` is the `reduce`. `LastPresent` over a `Column` is an independent reference definition of "last key wins".
  - `Validate` is the validation as one reference function. `ValidateRequiredProperties` is the method with the source's three loops over the key lists, proved equal to it.
  - `MergePartialInternalFormats` is the method with the in-place default.
- `UseCases`: each use case is a function. The SOAP and REST clients are parameters, functions from the user id to a payload or to whatever the client threw.

Every property below is proved for all inputs, except the fixture lemmas (`ParseFloatFixtureAmount` and the two `FixturePartialFormat` lemmas), which check the unit tests' examples, and `MergeOfNothingFails`, which is about the empty list.

## Model

| member | source | states |
|---|---|---|
| JsValues.ParseFloat | src/application/mappers/soap-to-internal.ts:45 | `parseFloat` of the charge amount is NaN exactly when no numeric text follows the leading white space and sign, and infinite exactly when `Infinity` does |
| JsValues.ParseFloatOfDigits | src/application/mappers/soap-to-internal.mapper.ts:52 | an amount made only of digits parses to its base-ten value |
| JsValues.ParseFloatFixtureAmount | tests/src/application/soap-to-internal.mapper.test.ts:53 | the fixture's "0.05" parses to 0.05, as the test expects |
| JsValues.ParseFloatNonNumericIsFalsy | src/application/mappers/soap-to-internal.ts:21 | a non-numeric amount such as "abc" parses to NaN, which is falsy |
| Domain.BillingPeriod.FromIsoStrings | src/domain/models/index.ts:28-30 | the period's bounds are Dates built from the two given strings |
| Domain.BillingPeriod.ToPlainObject | src/domain/models/index.ts:35-40 | succeeds exactly when both Dates render, with `start` and `end` the rendered strings; otherwise the RangeError "Invalid time value"; the read-back is `BillingPeriodPlainObjectRoundTrip` |
| Domain.SmsCharge.FromRawData | src/domain/models/index.ts:57-64 | message id, amount and currency are kept and the timestamp is a Date of the given text |
| Domain.SmsCharge.ToPlainObject | src/domain/models/index.ts:69-81 | succeeds exactly when the timestamp renders; keeps message id, amount and currency and carries the rendered timestamp; otherwise "Invalid time value"; the read-back is `SmsChargePlainObjectRoundTrip` |
| Domain.UsageData.ToPlainObject | src/domain/models/index.ts:99-113 | each camelCase field lands on its snake_case key unchanged; the read-back is `UsageDataPlainObjectRoundTrip` |
| Domain.SmsChargePlainObjectRoundTrip | src/domain/models/index.ts:57-81 | `toPlainObject` succeeds exactly when the timestamp renders; it keeps message id, amount and currency; `fromRawData` on its output restores the charge with the rendered timestamp |
| Domain.BillingPeriodPlainObjectRoundTrip | src/domain/models/index.ts:28-40 | a period from `fromISOStrings` renders exactly when both Dates render; reading the output back gives the rendered Dates; strings already in `toISOString` form come back unchanged |
| Domain.UsageDataPlainObjectRoundTrip | src/domain/models/index.ts:99-113 | `toPlainObject` renames the five fields to snake_case keys and loses nothing: the usage data can be rebuilt from them |
| Domain.PlainCharges | src/domain/models/index.ts:157 | the charges' `map(toPlainObject)` succeeds exactly when every timestamp renders; it keeps length and order, each element is that charge's plain object, and a failure is "Invalid time value" |
| Domain.NormalizedUserData.constructor | src/domain/models/index.ts:120-126 | a new aggregate holds the given user, usage data and billing period, and no charges |
| Domain.NormalizedUserData.AddSmsCharge | src/domain/models/index.ts:131-133 | the charge is appended at the end and the earlier charges keep their order |
| Domain.NormalizedUserData.AddSmsCharges | src/domain/models/index.ts:138-140 | all given charges are appended at the end, in the given order |
| Domain.NormalizedUserData.SmsCharges | src/domain/models/index.ts:145-147 | the getter returns a freshly allocated array equal to the charge list, so writes to it cannot reach the aggregate |
| Domain.NormalizedUserData.ToInternalApiFormat | src/domain/models/index.ts:152-160 | succeeds exactly when every Date renders; identity from `user`, the plain usage data, one rendered charge per charge in the same order, and the rendered period; any failure is "Invalid time value" |
| SoapMapper.ChargeRecord | src/application/mappers/soap-to-internal.ts:15-16 | the `soapenv:Envelope` / `soapenv:Body` / `sms:ChargeSMS` lookup returns the one record the response wraps, so the response is determined by it |
| SoapMapper.MapSmsResponseToSmsCharge | src/application/mappers/soap-to-internal.ts:12-24 | the domain charge keeps message id and currency, parses the amount and takes the timestamp as a Date of the raw text |
| SoapMapper.ExtractUserFromSoapResponse | src/application/mappers/soap-to-internal.ts:26-31 | the user is `sms:UserID` and `sms:PhoneNumber` |
| SoapMapper.MapToPartialInternalFormat | src/application/mappers/soap-to-internal.ts:36-54 | identity from `sms:UserID` and `sms:PhoneNumber`; exactly one charge with verbatim id, timestamp text and currency and the parsed amount; no `usage_data` and no `billing_period` |
| SoapMapper.DomainAgreesWithPartial | src/application/mappers/soap-to-internal.mapper.ts:15-61 | the domain path and the partial path agree: same user; the rendered domain charge is the partial charge with the `toISOString` timestamp, and equals it when the raw text is already in that form |
| SoapMapper.FixturePartialFormat | tests/src/application/soap-to-internal.mapper.test.ts:24-56 | on the test fixture: identity test123 / +46701234567, one charge msg456 with the raw timestamp, 0.05 EUR; the domain charge has the same values |
| RestMapper.MapResponseToUsageData | src/application/mappers/rest-to-internal.ts:12-20 | the domain usage data takes its five fields from `usage.data` and `network` |
| RestMapper.ExtractBillingPeriodFromResponse | src/application/mappers/rest-to-internal.ts:22-29 | the period's bounds are Dates of the period strings |
| RestMapper.ExtractUserFromResponse | src/application/mappers/rest-to-internal.ts:31-33 | the user is `user_id` and `msisdn` |
| RestMapper.MapToPartialInternalFormat | src/application/mappers/rest-to-internal.ts:38-58 | identity from `user_id` and `msisdn`; `usage_data` with `network.type` and `network.provider_code` renamed and the other values copied; period strings verbatim; no `sms_charges` |
| RestMapper.DomainAgreesWithPartial | src/application/mappers/rest-to-inernal.mapper.ts:15-68 | the domain usage data's plain object is the partial `usage_data`, the extracted user is the partial identity, and the rendered domain period equals the partial period exactly when both strings are already in `toISOString` form |
| RestMapper.FixturePartialFormat | unit.tests/mappers/rest-to-internal.mapper.test.ts:59-76 | on the test fixture: identity, the renamed usage record and the period strings exactly as the test expects |
| Aggregation.Spread | src/application/services/data-aggregation.ts:12 | one key of `{ ...acc, ...curr }`: the later value when the later object has the key, else the earlier one |
| Aggregation.Override | src/application/services/data-aggregation.ts:12 | `{ ...acc, ...curr }`: every key `curr` carries comes from `curr` whole, every other key from `acc`; `{}` on either side is a unit |
| Aggregation.MergeFold | src/application/services/data-aggregation.ts:11-14 | the `reduce` from `{}`: a single fragment comes through unchanged, and a key is present exactly when some fragment carries it; which value wins is `MergeIsLastWinsPerKey` |
| Aggregation.LastPresentIsLatest | src/application/services/data-aggregation.ts:11-14 | a present value followed only by absent ones is the value that survives |
| Aggregation.LastPresentAbsent | src/application/services/data-aggregation.ts:11-14 | nothing survives exactly when no fragment supplies the key |
| Aggregation.LastPresentSupplied | src/application/services/data-aggregation.ts:11-14 | whatever survives was supplied by some fragment |
| Aggregation.MergeFoldSlot | src/application/services/data-aggregation.ts:11-14 | for any key the spread treats key by key, the fold's value is the last present one |
| Aggregation.MergeIsLastWinsPerKey | src/application/services/data-aggregation.service.ts:17-20 | the `reduce` of spreads from `{}` is, on every key, the value of the last fragment carrying that key, and absent when none does |
| Aggregation.MergeIsShallow | src/application/services/data-aggregation.ts:11-14 | after any earlier fragments, a last fragment carrying `usage_data` (or `billing_period`) supplies that object whole, with no field-wise combination |
| Aggregation.WithDefaultSmsCharges | src/application/services/data-aggregation.ts:16-18 | `sms_charges` becomes `[]` only when absent, a supplied list is kept unchanged, and no other key changes |
| Aggregation.Validate | src/application/services/data-aggregation.ts:35-74 | a successful validation returns the merged object's own values, and all eleven required values in it are truthy |
| Aggregation.ValidateOkIffAllChecksPass | src/application/services/data-aggregation.service.ts:46-87 | validation succeeds exactly when all eleven truthiness checks pass |
| Aggregation.ValidateReportsFirstFailure | src/application/services/data-aggregation.ts:45-73 | when the checks before check i pass and check i fails, the error is check i's message, with the top-level, `usage_data` or `billing_period` wording |
| Aggregation.ValidateErrIsFirstFailure | src/application/services/data-aggregation.service.ts:56-86 | every validation error names the first check, in source order, that fails |
| Aggregation.ValidateRequiredProperties | src/application/services/data-aggregation.ts:35-74 | the three loops over the key lists compute exactly the reference validation |
| Aggregation.Merge | src/application/services/data-aggregation.ts:8-23 | `mergePartialInternalFormats` as a value: a result has all eleven required values truthy, and every error is one of the eleven check messages; which values win is `MergeTakesLastValues` |
| Aggregation.MergePartialInternalFormats | src/application/services/data-aggregation.ts:8-23 | fold, in-place default and looping validation compute exactly the reference merge |
| Aggregation.MergeTakesLastValues | src/application/services/data-aggregation.ts:11-20 | a successful merge holds, for each key, the last fragment's value; `sms_charges` is the last supplied list or `[]` |
| Aggregation.MergeOfNothingFails | src/application/services/data-aggregation.ts:11-48 | merging no fragments fails with "Missing required property: telgea_user_id" |
| Aggregation.EmptyIdentifierIsMissing | src/application/services/data-aggregation.ts:45-48 | an empty `telgea_user_id` is reported as missing, although the key is present |
| Aggregation.ZeroUsageIsMissing | src/application/services/data-aggregation.service.ts:71-75 | once the top-level checks pass, a `total_mb` of 0, or a truthy `total_mb` with a `roaming_mb` of 0, is reported as missing |
| Aggregation.NormalizedUserDataToInternalFormat | src/application/services/data-aggregation.ts:25-29 | the direct conversion is exactly the aggregate's `toInternalApiFormat`: it succeeds whenever the Dates render, with no validation |
| UseCases.Describe | src/application/use-cases/get-aggregated-user-data.ts:49-53 | the cause's text is an `Error`'s message, and "Unknown error" for any other thrown value |
| UseCases.GetAggregatedUserData | src/application/use-cases/get-aggregated-user-data.ts:25-55 | both clients get the same user id; if either fails, nothing is merged and the call fails with the aggregated prefix and the cause's message ("Unknown error" for a non-Error); otherwise the result is the merge of [SOAP fragment, REST fragment], with a merge error prefixed |
| UseCases.SoapThenRestMerge | src/application/use-cases/get-aggregated-user-data.ts:37-41 | merging [SOAP, REST] and defaulting gives the REST fragment with the SOAP one-element `sms_charges` |
| UseCases.AggregatedResult | src/application/use-cases/get-aggregated-user-data.use-case.ts:28-46 | the call succeeds exactly when both fetches succeed and every REST value passes its truthiness check; a result has REST's identity, usage and period and SOAP's single charge |
| UseCases.GetNormalizedUsageData | src/application/use-cases/get-normalized-usage-data.ts:19-38 | succeeds exactly when the fetch does; the result is the REST mapper's fragment, unvalidated and without `sms_charges`; a failure carries the usage prefix |
| UseCases.GetNormalizedSmsData | src/application/use-cases/get-normalized-sms-data.ts:19-40 | succeeds exactly when the fetch does; the result is the SOAP mapper's fragment with one charge and no `usage_data` or `billing_period`; a failure carries the SMS prefix |

Rows cite one copy. In the other copy the same members sit at:

- `src/application/mappers/soap-to-internal.mapper.ts`: `mapSmsResponseToSmsCharge` 15-27, `extractUserFromSoapResponse` 32-37, `mapToPartialInternalFormat` 43-61;
- `src/application/mappers/rest-to-inernal.mapper.ts`: `mapResponseToUsageData` 15-23, `extractBillingPeriodFromResponse` 28-35, `extractUserFromResponse` 40-42, `mapToPartialInternalFormat` 48-68;
- `src/application/services/data-aggregation.service.ts`: `mergePartialInternalFormats` 12-31 (default 23-25), `normalizedUserDataToInternalFormat` 36-40, `validateRequiredProperties` 46-87;
- `src/application/use-cases/get-aggregated-user-data.use-case.ts`: `execute` 25-56.

The DTO shapes of `src/application/dtos/index.ts` are the `Dtos` datatypes and hold by construction:

- the six SOAP leaves are strings;
- the REST megabyte figures are numbers, while the period bounds and network fields are strings;
- `sms_charges` is a required sequence of `SmsChargeDto` in the complete format;
- `usage_data` is a `UsageDataDto`.

`NormalizedUserData`'s `user`, `usageData` and `billingPeriod` are `const` fields, so the charge operations cannot change them.

## Left out

- The SOAP and REST clients are left out. They do network stand-ins, XML parsing with xml2js, and build mock data from `Math.random` and the clock. Their results are the `SoapClient` and `RestClient` parameters.
- Controllers, routes, application bootstrap, dependency injection, configuration and `console.error` logging are left out. They are plumbing with no effect on the records.
- Date parsing and `toISOString` are not interpreted. Which texts are valid dates, and how they are re-rendered, is the caller-supplied `IsoRenderer`.
- JsValues.ParseFloat: the value is the exact decimal the text denotes. Rounding to binary64, overflow of huge exponents to Infinity, and the sign of a negative zero are not modelled. Underflow does change truthiness: `parseFloat("1e-400")` is +0, which is falsy, while the model gives a non-zero finite value. No check reads the truthiness of a parsed amount, though: `validateRequiredProperties` (src/application/services/data-aggregation.ts:38-73) never looks inside `sms_charges`, and the pipeline does no arithmetic on amounts.
- UseCases.GetAggregatedUserData: when both fetches fail, the contract says only that the message is one of the two causes. Which rejection `Promise.all` reports depends on settlement order, which is not modelled. The function picks the SOAP one.
- A mapper reading a missing nested property throws a TypeError in JavaScript. The typed payloads here always have every property, so that failure is not modelled. The wired SOAP client parses with xml2js's `stripPrefix` tag processor (src/infrastructure/api/soap/mvno-soap-client.ts:24-27), which turns `soapenv:Envelope` into `Envelope`. Read from the text alone, the SOAP mapper's `soapResponse["soapenv:Envelope"]["soapenv:Body"]` lookup (src/application/mappers/soap-to-internal.ts:15-16) would then read a property of `undefined` on every call. So `UseCases.AggregatedResult`'s success condition describes the pipeline fed with prefixed payloads, not necessarily the running system.
- Keys explicitly set to `undefined` are not modelled. The mappers never produce them, so a key is either absent (`None`) or present (`Some`).
- "Each client is called once" is not stated. In this model a fetch is a pure function of the user id.
- Module resolution is not modelled. Two use cases import `@application/mappers/rest-to-internal.mapper`: the suffixed src/application/use-cases/get-aggregated-user-data.use-case.ts:4 and the unsuffixed src/application/use-cases/get-normalized-usage-data.ts:2, which is the one src/container.ts:13 wires in. No file has that name; the nearest is `rest-to-inernal.mapper.ts`. Read from the text alone, the wired usage use case imports a module that does not exist. So `UseCases.GetNormalizedUsageData` models the REST mapper that was evidently meant. That is `rest-to-inernal.mapper.ts`, which does the same as `rest-to-internal.ts`, and the model uses this one REST mapper everywhere.
