# The TaxJar .NET client, modelled in Dafny

This project models the client-side core of taxjar.net, a C# client for the
TaxJar sales-tax service. The client checks each request before sending it,
builds the request's path and query string, and configures the HTTP client
(base URL, bearer token, headers). It then maps the service's answer to a
value or an error. Two small JSON converters and three `ToRequest`
conversions complete the core.

Modules, one per file:

- `Wrappers` (`wrappers.dfy`): `Option` for C# null, `Result` and `Outcome` for "returns or throws".
- `Text` (`text.dfy`): the .NET string primitives the client uses. These are `IsNullOrWhiteSpace`, `string.Join`, `IndexOf`, `LastIndexOf` and ordinal case-insensitive comparison. `Split` is not used by the client; it is defined only to state that paths and queries can be taken apart again.
- `Constants` and `Entities`: the fixed strings, the request records with their defaults, and the exceptions. An exception is an `Error` value.
- `Validation` (`validation.dfy`): the request validators. Each one is a specification function stating what it decides. Each is also an imperative method that fills a `NameList`, the client's `List<string>`, step by step as the source does. Each method is proved to decide what its function says.
- `MessageTexts` (`messages.dfy`): the exact message texts the test cases expect, proved from the validators.
- `JsonConverters`: the polymorphic number/bool/string token converter and the `yyyy/MM/dd` date filter converter.
- `Serialization`: the flat JSON objects, as ordered property lists, that addresses and filters become before they are turned into query strings.
- `RequestBuilder`: resource paths, query strings, the rates path, the filter paths and the transaction paths.
- `RequestExtensions`: the `ToRequest` conversions of a customer, an order and a refund.
- `Api` (`api.dfy`): the facade:
  - API URL resolution and the API-key check;
  - the `TaxjarApi` class and its header loop;
  - how a response becomes a value or an error;
  - the planned request of every operation;
  - `Execute`, which sends a planned request only when validation and path building succeeded.

## Model

| member | source | states |
|---|---|---|
| Validation.NonBlankMembers | src/Taxjar/TaxJarRequestValidation.cs:13 | `RemoveAll(IsNullOrWhiteSpace)` keeps exactly the names that are in the list and not blank. |
| Validation.NonBlankAppend | src/Taxjar/TaxJarRequestValidation.cs:13 | Removing blanks distributes over appending two lists. |
| Validation.NameList.RemoveAllBlank | src/Taxjar/TaxJarRequestValidation.cs:13 | The loop leaves in the list exactly the non-blank names, in order. |
| Validation.NameList.AddWhen | src/Taxjar/TaxJarRequestValidation.cs:40-48 | A name is appended exactly when its check failed. |
| Validation.FormatErrorMessage | src/Taxjar/TaxJarRequestValidation.cs:11-27 | Blank names are removed in place. The message is then `Invalid {T}. ` + the one name, two names joined by "and/or", or an Oxford-comma list + ` cannot be null or empty.` |
| Validation.InvalidMessageList | src/Taxjar/TaxJarRequestValidation.cs:24-26 | With three or more names, all but the last are joined by ", " and the last follows ", and". |
| Validation.InvalidMessageFrame | src/Taxjar/TaxJarRequestValidation.cs:11-27 | Every message starts with `Invalid {T}. ` and ends with ` cannot be null or empty.` |
| Validation.InvalidMessageMentions | src/Taxjar/TaxJarRequestValidation.cs:11-27 | Every reported name occurs in the message. |
| Validation.ValidateCustomerId | src/Taxjar/TaxJarRequestValidation.cs:29-35 | Fails exactly on a blank id, with the fixed customer-id message. |
| Validation.ValidateZip | src/Taxjar/TaxJarRequestValidation.cs:58-64 | Fails exactly on a null or blank zip. It raises an argument-null error with "Zip is null or empty!". |
| Validation.ValidateTransactionId | src/Taxjar/TaxJarRequestValidation.cs:107-113 | Fails exactly on a blank id, with the fixed transaction-id message. |
| Validation.ValidateVat | src/Taxjar/TaxJarRequestValidation.cs:236-242 | Fails exactly on a blank VAT number, with the fixed VAT message. |
| Validation.ValidateCustomer | src/Taxjar/TaxJarRequestValidation.cs:37-56 | The step-by-step validator decides what `CustomerValidation` says: the id first, then the blank ones of Name and ExemptionType. |
| Validation.CollectCustomerMissing | src/Taxjar/TaxJarRequestValidation.cs:40-48 | The list it fills holds the blank ones of Name and ExemptionType, in that order. |
| Validation.CustomerAccepted | src/Taxjar/TaxJarRequestValidation.cs:37-56 | A customer passes exactly when id, name and exemption type are all non-blank. |
| Validation.CustomerIdFirst | src/Taxjar/TaxJarRequestValidation.cs:37-39 | A blank id gives exactly "Customer ID cannot be null or an empty string.", whatever Name and ExemptionType hold. |
| Validation.CustomerNamesMissing | src/Taxjar/TaxJarRequestValidation.cs:40-55 | With a valid id, exactly the blank ones of Name and ExemptionType are named, in that order. |
| Validation.ValidateTaxjarTaxCalculationRequest | src/Taxjar/TaxJarRequestValidation.cs:66-105 | The step-by-step validator decides what `TaxCalculationValidation` says. |
| Validation.CollectTaxCalculationMissing | src/Taxjar/TaxJarRequestValidation.cs:68-87 | The four presence checks list the missing ones of ToCountry, ToZip, ToState and Shipping, in that order. |
| Validation.DecideTaxCalculation | src/Taxjar/TaxJarRequestValidation.cs:89-104 | How the amount-or-line-items rule is reported. Alone, it is reported as a name. With other failures, it is a sentence appended after the list. The blank placeholder the source appends has no effect on the text. |
| Validation.PlaceholderDropped | src/Taxjar/TaxJarRequestValidation.cs:98-99 | The empty placeholder name is removed again before formatting. |
| Validation.ReportInvalid | src/Taxjar/TaxJarRequestValidation.cs:101-104 | An empty list passes. Otherwise the message is the formatted non-blank names plus the suffix. |
| Validation.TaxCalculationAccepted | src/Taxjar/TaxJarRequestValidation.cs:66-105 | Accepted if and only if:<br>• ToCountry, ToZip and ToState are non-blank;<br>• Shipping is present;<br>• there is an amount or at least one line item. |
| Validation.TaxCalculationOnlyAmountMissing | src/Taxjar/TaxJarRequestValidation.cs:89-95 | When only the amount rule fails, "Either Amount or LineItems" is reported as the single name. |
| Validation.TaxCalculationAmountAndOthersMissing | src/Taxjar/TaxJarRequestValidation.cs:97-104 | With other failures, the message is the list of those fields followed by " Additionally, either Amount or LineItems is required." |
| Validation.TaxCalculationAllMissing | src/Taxjar/TaxJarRequestValidation.cs:66-105 | A request missing everything names ToCountry, ToZip, ToState and Shipping, then the amount sentence. |
| Validation.OrderTransactionIdCheck | src/Taxjar/TaxJarRequestValidation.cs:180-187 | Valid exactly for a non-blank id. The name to report is "TransactionId" when the id is invalid, and "" when it is valid. |
| Validation.CollectCreateOrderMissing | src/Taxjar/TaxJarRequestValidation.cs:117-155 | The eight checks list the missing fields in the source's order. |
| Validation.ValidateTaxjarCreateOrderRequest | src/Taxjar/TaxJarRequestValidation.cs:115-163 | The step-by-step validator decides what `CreateOrderValidation` says. |
| Validation.CreateOrderAccepted | src/Taxjar/TaxJarRequestValidation.cs:115-163 | An order passes create validation exactly when all eight required fields are given. |
| Validation.CreateOrderNamesMissing | src/Taxjar/TaxJarRequestValidation.cs:117-155 | A field is named exactly when it is missing. |
| Validation.CreateOrderAllMissing | src/Taxjar/TaxJarRequestValidation.cs:115-163 | A request missing everything names all eight fields, in order. |
| Validation.ValidateTaxjarUpdateOrderRequest | src/Taxjar/TaxJarRequestValidation.cs:165-178 | The step-by-step validator decides what `UpdateOrderValidation` says. |
| Validation.UpdateOrderAccepted | src/Taxjar/TaxJarRequestValidation.cs:165-178 | Update validation rejects exactly a blank transaction id, and then names only that field. |
| Validation.ValidateTaxjarRefundRequestTransactionId | src/Taxjar/TaxJarRequestValidation.cs:214-234 | The method returns what `RefundIdPairCheck` says. |
| Validation.RefundIdPair | src/Taxjar/TaxJarRequestValidation.cs:214-234 | Null exactly when both ids are non-blank. Otherwise a non-empty list naming exactly the blank ones. |
| Validation.ValidateTaxjarRefundRequest | src/Taxjar/TaxJarRequestValidation.cs:189-212 | The step-by-step validator decides what `RefundValidation` says. |
| Validation.RefundAccepted | src/Taxjar/TaxJarRequestValidation.cs:189-212 | A refund passes exactly when both ids and ToCountry, ToZip and ToState are non-blank. |
| Validation.RefundNamesInOrder | src/Taxjar/TaxJarRequestValidation.cs:191-205 | The reported names are the blank ids, then the blank destination fields, in order. |
| Validation.RefundAllMissing | src/Taxjar/TaxJarRequestValidation.cs:189-212 | A request missing everything names all five fields, in order. |
| Validation.DefaultsMissingEverything | src/Taxjar.Tests/Infrastructure/TaxjarTestCaseData.cs:59-109 | The default tax-calculation, order and refund requests (the `new ...Request()` test cases) fail validation. The default customer request fails on its id. |
| MessageTexts.CustomerBothMissingMessage | src/Taxjar.Tests/Infrastructure/TaxjarTestCaseData.cs:23 | The exact text "Invalid Customer. Name and/or ExemptionType cannot be null or empty." |
| MessageTexts.AmountRuleAloneMessage | src/Taxjar/TaxJarRequestValidation.cs:89-95 | The exact text "Invalid TaxjarTaxCalculationRequest. Either Amount or LineItems cannot be null or empty." |
| MessageTexts.DefaultTaxCalculationMessage | src/Taxjar.Tests/Infrastructure/TaxjarTestCaseData.cs:59 | The exact text for the default tax-calculation request, with the amount sentence. |
| MessageTexts.UpdateOrderMessage | src/Taxjar/TaxJarRequestValidation.cs:165-178 | The exact text for a blank id under update validation. |
| MessageTexts.DefaultCreateOrderMessage | src/Taxjar.Tests/Infrastructure/TaxjarTestCaseData.cs:87 | The exact eight-field text for the default order request. |
| MessageTexts.DefaultRefundMessage | src/Taxjar.Tests/Infrastructure/TaxjarTestCaseData.cs:109 | The exact five-field text for the default refund request. |
| JsonConverters.GetString | src/Taxjar/TaxjarDateTimeFilterJsonConverter.cs:12 | A string token reads as its text and a null token as null. Any other token raises an invalid-token error. |
| JsonConverters.ReadPolymorphic | src/Taxjar/TaxJarPolymorphicNumberJsonConverter.cs:11-20 | Reading fails exactly on a structural token. |
| JsonConverters.ReadPolymorphicValues | src/Taxjar/TaxJarPolymorphicNumberJsonConverter.cs:13-19 | false gives "false" and true gives "true". A number keeps its raw text, a string its value, and null stays null. |
| JsonConverters.WritePolymorphic | src/Taxjar/TaxJarPolymorphicNumberJsonConverter.cs:22-25 | A value is written as a string token and null as a null token. |
| JsonConverters.PolymorphicRoundTrip | src/Taxjar/TaxJarPolymorphicNumberJsonConverter.cs:18-25 | Writing a value and reading it back yields the same value. |
| JsonConverters.StatusCodeEitherForm | src/Taxjar/TaxJarPolymorphicNumberJsonConverter.cs:17-18 | A status sent as the number 401 or as the string "401" reads as "401". |
| JsonConverters.ReadPolymorphicText | src/Taxjar/TaxJarPolymorphicNumberJsonConverter.cs:17-18 | Two number or string tokens read the same if and only if they carry the same text. |
| JsonConverters.PadDigits | src/Taxjar/TaxjarDateTimeFilterJsonConverter.cs:23 | `yyyy`, `MM` and `dd` give exactly the width, all decimal digits. |
| JsonConverters.DigitsRoundTrip | src/Taxjar/TaxjarDateTimeFilterJsonConverter.cs:23 | The padded digits read back as the number when it fits in the width. |
| JsonConverters.FormatDate | src/Taxjar/TaxjarDateTimeFilterJsonConverter.cs:23 | Ten characters: digits with `/` at positions 4 and 7. |
| JsonConverters.FormatDateFields | src/Taxjar/TaxjarDateTimeFilterJsonConverter.cs:23 | Year, month and day can be read back from the written text. |
| JsonConverters.FormatDateSameDay | src/Taxjar/TaxjarDateTimeFilterJsonConverter.cs:23 | Two dates write the same text if and only if they fall on the same calendar day. |
| JsonConverters.WriteDateFilter | src/Taxjar/TaxjarDateTimeFilterJsonConverter.cs:21-24 | No date gives a null token. A date gives a ten-character string token. |
| JsonConverters.ReadDateFilter | src/Taxjar/TaxjarDateTimeFilterJsonConverter.cs:10-19 | Reading gives no date exactly for null or "". Any other string goes to the parser, and a failed parse is a format error carrying the text. A non-string token raises an error. |
| JsonConverters.WriteDateFilterDropsTime | src/Taxjar/TaxjarDateTimeFilterJsonConverter.cs:23 | The time of day is not written. |
| JsonConverters.DateFilterRoundTrip | src/Taxjar/TaxjarDateTimeFilterJsonConverter.cs:10-24 | A written date reads back as midnight of the same day, given a parser that reads `yyyy/MM/dd`. No date stays no date. |
| Serialization.SerializeAddress | src/Taxjar/Entities/TaxjarAddressValidation.cs:13-44 | An address is written as its properties country, zip, state, city, street, in that order. |
| Serialization.AddressRoundTrip | src/Taxjar/Entities/TaxjarAddressValidation.cs:13-44 | Every address field can be read back from its property. |
| Serialization.SerializeFilter | src/Taxjar/Entities/TaxjarOrder.cs:149-177 | A filter is written as the three date properties, then provider. |
| Serialization.FilterValues | src/Taxjar/Entities/TaxjarRefund.cs:172-200 | The filter's properties hold the `yyyy/MM/dd` texts of its dates and the provider as given. |
| RequestBuilder.ResourcePath | src/Taxjar/Infrastructure/TaxjarRequestBuilder.cs:13-15 | `{base}/{path}`: the base, one `/`, then the path. |
| RequestBuilder.ResourcePathSplit | src/Taxjar/Infrastructure/TaxjarRequestBuilder.cs:13-15 | When neither part contains a slash, splitting at `/` gives back the two parts. |
| RequestBuilder.QueryParams | src/Taxjar/Infrastructure/TaxjarRequestBuilder.cs:24-40 | The query is empty exactly when no property survives the filter. Otherwise it begins with the first surviving `key=value` pair. |
| RequestBuilder.KeptPairsMembers | src/Taxjar/Infrastructure/TaxjarRequestBuilder.cs:35-38 | A property survives if and only if it is in the object and both its name and value are non-blank. |
| RequestBuilder.KeptPairsAppend | src/Taxjar/Infrastructure/TaxjarRequestBuilder.cs:35-38 | Filtering keeps the properties' order. |
| RequestBuilder.QueryBlankIff | src/Taxjar/Infrastructure/TaxjarRequestBuilder.cs:24-40 | The query is empty, and even blank, if and only if no property survives. |
| RequestBuilder.QuerySplit | src/Taxjar/Infrastructure/TaxjarRequestBuilder.cs:37-39 | Splitting the query at `&` gives back the rendered `key=value` pairs. This assumes no name or encoded value contains `&`. |
| RequestBuilder.RatesPath | src/Taxjar/Infrastructure/TaxjarRequestBuilder.cs:42-48 | The path is `rates/{zip}`, a null zip counting as "". It is followed by a query exactly when country, state, city or street is non-blank. |
| RequestBuilder.RatesQueryHasNoZip | src/Taxjar/Infrastructure/TaxjarRequestBuilder.cs:44 | `zip` is never a query key of the rates path. |
| RequestBuilder.RatesPathQuery | src/Taxjar/Infrastructure/TaxjarRequestBuilder.cs:42-48 | The rates path has a query if and only if country, state, city or street is non-blank. |
| RequestBuilder.ShowCustomerPath | src/Taxjar/Infrastructure/TaxjarRequestBuilder.cs:50 | The path is `customers/` followed by the id. |
| RequestBuilder.FilterOrdersPath | src/Taxjar/Infrastructure/TaxjarRequestBuilder.cs:52-57 | The path always starts with `transactions/orders?`. It is exactly that when no filter property survives. |
| RequestBuilder.FilterRefundPath | src/Taxjar/Infrastructure/TaxjarRequestBuilder.cs:69-74 | The path always starts with `transactions/refunds?`. It is exactly that when no filter property survives. |
| RequestBuilder.EmptyFilterPaths | src/Taxjar/Infrastructure/TaxjarRequestBuilder.cs:52-57 | An empty filter leaves a bare trailing `?` on both filter paths. |
| RequestBuilder.FilterByDateQuery | src/Taxjar/Infrastructure/TaxjarRequestBuilder.cs:69-74 | A filter with only a transaction date queries `transaction_date=` with the encoded `yyyy/MM/dd` text. |
| RequestBuilder.TransactionIdPath | src/Taxjar/Infrastructure/TaxjarRequestBuilder.cs:59-66 | A blank id fails with the transaction-id error before any path is built. Every other id succeeds. |
| RequestBuilder.TransactionIdPathProvider | src/Taxjar/Infrastructure/TaxjarRequestBuilder.cs:63-65 | `?provider={provider}` is appended, unencoded, exactly when the provider is non-blank. |
| RequestBuilder.TransactionIdPathQuestionMark | src/Taxjar/Infrastructure/TaxjarRequestBuilder.cs:59-66 | When neither endpoint nor id contains `?`, the path contains `?` if and only if a provider is sent. |
| RequestBuilder.ShowRefundPath | src/Taxjar/Infrastructure/TaxjarRequestBuilder.cs:67 | The transaction path under `transactions/refunds`. A blank id fails with the transaction-id error. Without a provider the path is `transactions/refunds/{id}`. |
| RequestBuilder.ExamplePaths | src/Taxjar.Tests/Transactions.cs:180 | Concrete refund and customer paths, and the failure for a blank id. |
| RequestExtensions.CustomerToRequest | src/Taxjar/Extensions/TaxjarRequestExtensions.cs:5-16 | All nine customer fields are copied unchanged. |
| RequestExtensions.CustomerRoundTrip | src/Taxjar/Extensions/TaxjarRequestExtensions.cs:5-16 | The customer can be read back from its request: nothing is lost. |
| RequestExtensions.CustomerRequestAccepted | src/Taxjar/Extensions/TaxjarRequestExtensions.cs:5-16 | The converted customer passes validation exactly when its id, name and exemption type are non-blank. |
| RequestExtensions.OrderToRequest | src/Taxjar/Extensions/TaxjarRequestExtensions.cs:18-38 | Requires the date and the three amounts, because they are unwrapped. Copies the listed fields. ToStreet stays the request default "". |
| RequestExtensions.OrderRequestAccepted | src/Taxjar/Extensions/TaxjarRequestExtensions.cs:18-38 | The converted order passes create validation if and only if the transaction id, ToCountry, ToZip and ToState are non-blank. |
| RequestExtensions.OrderToRequestDropsStreet | src/Taxjar/Extensions/TaxjarRequestExtensions.cs:18-38 | An order with a destination street loses it in the conversion. |
| RequestExtensions.OrderToRequestWithStreet | src/Taxjar/Extensions/TaxjarRequestExtensions.cs:18-38 | The corrected conversion copies ToStreet. |
| RequestExtensions.OrderWithStreetRoundTrip | src/Taxjar/Extensions/TaxjarRequestExtensions.cs:18-38 | With ToStreet also copied, the whole order can be read back from its request. |
| RequestExtensions.OrderWithStreetSameValidation | src/Taxjar/Extensions/TaxjarRequestExtensions.cs:18-38 | Copying the street does not change the create-order validation outcome. |
| RequestExtensions.RefundToRequest | src/Taxjar/Extensions/TaxjarRequestExtensions.cs:40-61 | Ids, date, amounts, customer id and line items are copied. Provider and origin fields become nullable values. ToStreet stays "". |
| RequestExtensions.RefundToRequestDropsStreet | src/Taxjar/Extensions/TaxjarRequestExtensions.cs:40-61 | A refund with a destination street loses it in the conversion. |
| RequestExtensions.RefundToRequestWithStreet | src/Taxjar/Extensions/TaxjarRequestExtensions.cs:40-61 | The corrected conversion copies ToStreet. |
| RequestExtensions.RefundWithStreetRoundTrip | src/Taxjar/Extensions/TaxjarRequestExtensions.cs:40-61 | With ToStreet also copied, the whole refund can be read back from its request. |
| RequestExtensions.RefundWithStreetSameValidation | src/Taxjar/Extensions/TaxjarRequestExtensions.cs:40-61 | Copying the street does not change the refund validation outcome. |
| RequestExtensions.RefundRequestAccepted | src/Taxjar/Extensions/TaxjarRequestExtensions.cs:40-61 | The converted refund passes refund validation if and only if both ids and the three destination fields are non-blank. |
| Api.ApiBaseUrl | src/Taxjar/TaxjarApi.cs:53 | `{url}/{version}/`: the URL, a slash, the version, a closing slash. |
| Api.GetApiUrl | src/Taxjar/TaxjarApi.cs:42-51 | The resolved base URL always ends with `/`. |
| Api.CustomApiUrl | src/Taxjar/TaxjarApi.cs:44-48 | A custom URL is returned unchanged when it ends in `/`. Otherwise it gets exactly one `/` appended. |
| Api.CustomApiUrlIdempotent | src/Taxjar/TaxjarApi.cs:44-48 | Resolving again from the resolved custom URL changes nothing. |
| Api.HostApiUrl | src/Taxjar/TaxjarApi.cs:50-53 | Without a custom URL, the result is the sandbox or production host, chosen by UseSandbox, plus `/{version}/`. |
| Api.DefaultApiUrls | src/Taxjar/TaxJarApiOptions.cs:12-17 | Default options give `https://api.taxjar.com/v2/`. With the sandbox, `https://api.sandbox.taxjar.com/v2/`. |
| Api.ApiKeyCheck | src/Taxjar/TaxjarApi.cs:30-33 | Fails exactly on a null or blank token, with "Please provide a TaxJar API key." |
| Api.DefaultOptionsRefused | src/Taxjar.Tests/Client.cs:101-113 | Default options, whose token is empty, are refused with that message. |
| Api.TaxjarApi.Create | src/Taxjar/TaxjarApi.cs:26-40 | A blank token fails. Otherwise the client records the token, the resolved URL, the headers, the timeout and the user agent. |
| Api.UserAgentText | src/Taxjar/TaxjarApi.cs:471-480 | The user agent ends with the assembly version, or the API version when the assembly has none. |
| Api.TaxjarApi.CreateClientHeaders | src/Taxjar/TaxjarApi.cs:62-80 | The header loop yields exactly `ExpectedHeaders`:<br>• the Bearer token, `application/json`, and the computed user agent;<br>• then the custom User-Agent values;<br>• the added headers are the non-reserved custom headers. |
| Api.TaxjarApi.CreateClient | src/Taxjar/TaxjarApi.cs:55-83 | The client gets the base URL, those headers and the timeout. |
| Api.PassedHeadersMembers | src/Taxjar/TaxjarApi.cs:66-79 | A custom header is added if and only if it is not Authorization or Accept in any letter case. |
| Api.CustomUserAgentsMembers | src/Taxjar/TaxjarApi.cs:74-77 | The extra User-Agent values are exactly the values of the custom User-Agent headers. |
| Api.HeadersOverlay | src/Taxjar/TaxjarApi.cs:62-80 | Whatever the custom headers, these hold:<br>• Authorization is `Bearer {token}`;<br>• Accept is `application/json`;<br>• the computed user agent comes first;<br>• no reserved header is added. |
| Api.HeaderExample | src/Taxjar/TaxjarApi.cs:68-72 | A lower-case `authorization` header is skipped. Another header is added. |
| Api.ErrorMessage | src/Taxjar/TaxjarApi.cs:95 | The message is the error text, then " - ", then the detail. A null detail counts as "". |
| Api.MapResponse | src/Taxjar/TaxjarApi.cs:85-102 | A 2xx status decodes the body. Any other status is an error. |
| Api.FailureIgnoresBodyDecoder | src/Taxjar/TaxjarApi.cs:91-97 | On a failure status the body decoder plays no part. |
| Api.ServiceError | src/Taxjar/TaxjarApi.cs:94-96 | A decoded error body gives exactly a service error with the response status, the error object and the message `{error} - {detail}`. |
| Api.UndecodableError | src/Taxjar/TaxjarApi.cs:94 | An error body that decodes to null gives a decode error whose message ends with the raw body. |
| Api.UnauthorizedExample | src/Taxjar.Tests/Client.cs:145-182 | A 401 answer gives the message `Unauthorized - {detail}`. |
| Api.Execute | src/Taxjar/TaxjarApi.cs:85-146 | The request is sent exactly when the plan succeeded, and only once. A failed plan answers with its own error. A failure status answers with the error the response maps to. On a success status, a null envelope is a null value and an envelope `env` answers `unwrap(env)`. |
| Api.ExecuteServiceError | src/Taxjar/TaxjarApi.cs:85-102 | When the service answers a failure status with a decodable error body, the operation sends its one request and answers the service error, with the status, the error object and `{error} - {detail}`. |
| Api.FailedPlanSendsNothing | src/Taxjar/TaxjarApi.cs:85-146 | A failed plan gives the same answer whatever the client and the executor. |
| Api.TaxjarApi.Send | src/Taxjar/TaxjarApi.cs:104-146 | The facade sends a planned request with the client from `CreateClient`, and only when the plan succeeded. |
| Api.RatesForLocationRequest | src/Taxjar/TaxjarApi.cs:165-173 | The zip is checked first. A GET of the rates path follows exactly when the zip is present and non-blank. |
| Api.ShowCustomerRequest | src/Taxjar/TaxjarApi.cs:192-199 | A blank id fails. Otherwise a GET of `customers/{id}`. |
| Api.CreateCustomerRequest | src/Taxjar/TaxjarApi.cs:207-211 | Sent, as a POST to `customers` with the record, exactly when customer validation passes. |
| Api.UpdateCustomerRequest | src/Taxjar/TaxjarApi.cs:219-225 | Sent, as a PUT to `customers/{id}`, exactly when customer validation passes. |
| Api.DeleteCustomerRequest | src/Taxjar/TaxjarApi.cs:233-240 | A blank id fails. Otherwise a DELETE of `customers/{id}`. |
| Api.TaxForOrderRequest | src/Taxjar/TaxjarApi.cs:273-278 | Sent, as a POST to `taxes`, exactly when tax-calculation validation passes. |
| Api.TransactionRequest | src/Taxjar/TaxjarApi.cs:302-311 | A blank id fails with the transaction-id error. Otherwise the request goes to the transaction path. |
| Api.ShowOrderRequest | src/Taxjar/TaxjarApi.cs:302-311 | The id check, then a GET of the order path with the optional provider. A blank id fails with the transaction-id error. Without a provider the request is a GET of `transactions/orders/{id}`. |
| Api.CreateOrderRequest | src/Taxjar/TaxjarApi.cs:319-326 | Sent, as a POST to `transactions/orders`, exactly when create-order validation passes. |
| Api.UpdateOrderRequest | src/Taxjar/TaxjarApi.cs:334-343 | Sent exactly when the id is non-blank, as a PUT to `transactions/orders/{id}`. Otherwise it answers the update-order validation error. |
| Api.DeleteOrderRequest | src/Taxjar/TaxjarApi.cs:352-361 | The id check, then a DELETE of the order path. A blank id fails with the transaction-id error. Without a provider the request is a DELETE of `transactions/orders/{id}`. |
| Api.RefundTransactionRequest | src/Taxjar/TaxjarApi.cs:385-392 | A blank id fails. Otherwise the refund path with the optional provider. |
| Api.CreateRefundRequest | src/Taxjar/TaxjarApi.cs:401-408 | Sent, as a POST to `transactions/refunds`, exactly when refund validation passes. |
| Api.UpdateRefundRequest | src/Taxjar/TaxjarApi.cs:416-425 | The pair check's answer is dropped. The update is sent exactly when the transaction id is non-blank. |
| Api.ValidateVatRequest | src/Taxjar/TaxjarApi.cs:463-469 | A blank VAT number fails. Otherwise a GET of `validation/{vat}`. |
| Api.InvalidRequestsAreNotSent | src/Taxjar/TaxjarApi.cs:207-211 | For each validated create operation, nothing is sent exactly when validation fails. The answer is then the validation error. |
| Api.UpdateRefundIgnoresReferenceId | src/Taxjar/TaxjarApi.cs:418-420 | A refund update with a blank reference id is still sent, although the pair check names that id and a create would fail. |

## Left out

- HTTP, `async` and cancellation are not modelled. The executor is a function from a client and a request to a status and a body, so network failures, timeouts and `ThrowIfCancellationRequested` are not modelled.
- JSON reading and writing is a parameter. A decoder returns a value, null, or the error it throws; bodies are the request records themselves. `SerializerHttpContent` and the serializer options are not modelled.
- The response records and their envelopes are not modelled. An operation's result is generic, and `unwrap` picks the envelope field. `CreateCustomerAsync` and `UpdateCustomerAsync` decode the attributes directly; for them `unwrap` is the identity.
- The plan functions of the operations without a check (categories, list customers, nexus regions, summary rates, list orders, list refunds, validate address) carry no contract, since there is nothing to state beyond their endpoint.
- Query strings are built from an ordered list of properties, standing in for the JSON round trip through `Dictionary<string, string>`. The order is the record's declaration order.
- `WebUtility.UrlEncode` is a parameter `urlEncode`.
- `DateTime.Parse` is a parameter `parse`, and a failed parse is a format error.
- `ToString("yyyy/MM/dd")` honours the current culture's date separator. The model always writes `/`, as the invariant culture does.
- `string.IndexOf(string)` compares by the current culture. The model compares ordinally.
- `StringComparison.OrdinalIgnoreCase` is modelled with ASCII case folding only.
- The headers dictionary is a list of pairs in enumeration order. The model does not enforce that keys are unique ignoring case. `HttpHeaders.Add` throwing on an invalid or misplaced header name is not modelled.
- `UserAgent.TryParseAdd` is modelled as always succeeding.
- Api.UserAgentText: states only that the text ends with the version. The OS, architecture and framework descriptions come from the runtime and are parameters.
- The constructor's timeout is kept in whole milliseconds. The `Convert.ToInt32` rounding of `TotalMilliseconds` is not modelled.
- Validation.FormatErrorMessage: requires at least one non-blank name. With none the source indexes past the end of the list. Every validator calls it with at least one such name.
- The `Customer` and `Order` record files are not part of this model. The customer's fields are those its conversion copies. The order's fields are those its conversion copies plus `ToStreet`, which the fake orders of src/Taxjar.Tests/Fixtures/TaxjarFakes.cs:291-310 set.
- Dependency-injection registration (`ServiceCollectionExtensions`) is plumbing and is not modelled.

## Findings

| source | as written | input that shows it | evidently intended | confidence | as-written member | corrected member |
|---|---|---|---|---|---|---|
| src/Taxjar/Extensions/TaxjarRequestExtensions.cs:18-38 | `Order.ToRequest` copies every destination field except `ToStreet`, so the request's street is the default "". | An order with ToStreet "1 Main St" gives a request with ToStreet "". | `ToStreet = order.ToStreet`, like the other destination fields, so that the order survives the conversion whole. | medium, not executed | RequestExtensions.OrderToRequestDropsStreet | RequestExtensions.OrderWithStreetRoundTrip |
| src/Taxjar/Extensions/TaxjarRequestExtensions.cs:40-61 | `Refund.ToRequest` copies every destination field except `ToStreet`, so the request's street is the default "". | A refund with ToStreet "1 Main St" gives a request with ToStreet "". | `ToStreet = refund.ToStreet`, so that the refund survives the conversion whole. | medium, not executed | RequestExtensions.RefundToRequestDropsStreet | RequestExtensions.RefundWithStreetRoundTrip |
