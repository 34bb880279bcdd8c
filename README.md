# laravel-efaktura — a verified Dafny model

This project models the core of `it-delmax/laravel-efaktura`, a Laravel client for the Serbian
e-invoicing system (eFaktura, SEF). The following parts are modelled:

- **BaseDTO** and the two data-transfer objects (DTOs) whose constructors add nested hydration:
  `SimplePurchaseInvoiceDto` and `AcceptRejectResponseDto`.
- **The HTTP client `EfakturaClient`**: request preparation, response handling and multipart
  filtering.
- **`EfakturaException`**, including how it picks an error message out of a response.
- **The three services**:
  - sales invoices;
  - purchase invoices;
  - the public API, with its cache and its search for a company by PIB (the Serbian tax
    identification number).
- **`EfakturaManager`**:
  - it builds the client from the package configuration;
  - it creates each service lazily, on first use;
  - it forwards `__get` and `__call` to those services.
- **The three status enums.**

PHP values are modelled as one datatype, `PhpValues.Value`:

- Arrays are ordered sequences of key/value entries.
- A read guarded by `isset` or `??` yields `null`, or the given default, for a missing key.
- An unguarded read `$a['k']` of a missing key warns, which is an `ErrorException` under Laravel's handler (`EfakturaExceptions.Required`).
- `isset` and `??` are modelled as they behave in PHP.

A DTO instance is a `Record`: its class plus a map of declared properties.

The files declare `strict_types=1`. Assigning a value of the wrong type to a typed property is
therefore a `TypeError`. The only exception is an int widened to float. The model returns that
`TypeError` as a `Failure`.

The package runs under Laravel's error handler, which rethrows every PHP warning as an
`ErrorException`. The model follows it. Each of these ends the call with `ErrorException`
rather than carrying on with "Array", `false` or `null`:

- an array converted to a string;
- a file that `fopen` or `file_get_contents` cannot open;
- an unguarded read of a missing array key;
- a property read on a value that is not an object.

The application's side effects are modelled as state:

- **The HTTP transport** is a function parameter `server(history, request)`. The client records
  every request it sends in `sent`.
- **Laravel's cache** is a `CacheStore` class holding a map.
- **`Cache::remember`** is the function `CacheStores.Remember`.

The service methods are specified against these definitions:

- the request they append to `client.sent`;
- the answer the server gives to that request;
- how that answer is decoded or hydrated;
- for the cached getters, the new cache contents and whether a request was sent at all.

| file | models |
|---|---|
| `wrappers.dfy` | `Option` / `Result` |
| `php_values.dfy` | PHP arrays, `isset`, `??`, string/int conversions |
| `http.dfy` | requests, responses, `failed()` |
| `dto_schemas.dfy` | declared properties and property types of every DTO class |
| `base_dto.dfy` | `BaseDTO` constructor, `toArray`, `fromArray`, `collection`, `__get` |
| `dtos.dfy` | `fromArray` / `collection` dispatch per class |
| `simple_purchase_invoice.dfy`, `accept_reject_response.dfy` | the overriding constructors |
| `efaktura_exception.dfy` | `EfakturaException` |
| `efaktura_client.dfy` | `EfakturaClient` |
| `cache_store.dfy` | Laravel cache, cache keys and TTLs, `Cache::remember` |
| `queries.dfy` | optional query parameters |
| `sales_invoice_service.dfy`, `purchase_invoice_service.dfy`, `public_api_service.dfy` | the services |
| `efaktura_manager.dfy` | `EfakturaManager` |
| `sales_invoice_status.dfy`, `purchase_invoice_status.dfy`, `cir_invoice_status.dfy` | the enums |

## Model

| member | source | states |
|---|---|---|
| BaseDto.Defaults | src/DTO/SimplePurchaseInvoiceDto.php:9-66 | a fresh DTO has exactly its declared properties, all `null` |
| BaseDto.Assign | src/DTO/BaseDTO.php:15-19 | assigning to a typed property: null, untyped and fitting values are kept; an int goes into a float property widened; any other value is a `TypeError` (iff) |
| BaseDto.Construct | src/DTO/BaseDTO.php:13-20 | the constructor method (a loop over the input array) computes `BaseConstruct` |
| BaseDto.Absorb | src/DTO/BaseDTO.php:15-19 | the `foreach` loop with its invariant equals the fold `AbsorbAll` over the entries |
| BaseDto.AbsorbStep | src/DTO/BaseDTO.php:15-19 | one more entry of the loop is one `AbsorbEntry` step |
| BaseDto.FailureStands | src/DTO/BaseDTO.php:15-19 | once an assignment throws, the rest of the input does not matter |
| BaseDto.AbsorbKeepsProperties | src/DTO/BaseDTO.php:16 | only declared properties are written: the object keeps exactly its declared property set |
| BaseDto.AbsorbSucceeds | src/DTO/BaseDTO.php:15-19 | construction succeeds iff every entry is accepted (an unknown key is skipped; an int key into `property_exists` is a `TypeError`) |
| BaseDto.AbsorbValues | src/DTO/BaseDTO.php:15-19 | each property ends up holding the value of the last entry with its name |
| BaseDto.HydratedByLookup | src/DTO/BaseDTO.php:15-19 | that value is the array's read of the key, passed through the property's type |
| BaseDto.AbsorbSpec | src/DTO/BaseDTO.php:13-20 | the constructor: success iff all entries are accepted; declared properties only; missing keys stay `null`; present keys are assigned under the type rule |
| BaseDto.AbsorbFailsWithTypeError | src/DTO/BaseDTO.php:13-20 | the only way construction fails is a `TypeError` |
| BaseDto.MapItemsSpec | src/DTO/BaseDTO.php:30-32 | `array_map` over a list keeps its keys and length and turns each DTO into its `toArray` |
| BaseDto.ToArray | src/DTO/BaseDTO.php:22-43 | the `toArray` method computes `AsArray` |
| BaseDto.EmitLoop | src/DTO/BaseDTO.php:25-41 | the loop over the object's properties computes `Emit` |
| BaseDto.EmitLookup | src/DTO/BaseDTO.php:25-41 | `toArray` holds a key iff the property is declared and non-null, with its serialised value |
| BaseDto.EmitEntries | src/DTO/BaseDTO.php:25-41 | every emitted entry is a declared, non-null property with its serialised value |
| BaseDto.AsArrayLookup | src/DTO/BaseDTO.php:22-43 | the same, stated for the declared properties of the record's class |
| BaseDto.SerializePlain | src/DTO/BaseDTO.php:37-38 | scalars and plain arrays are emitted unchanged |
| BaseDto.Collection | src/DTO/BaseDTO.php:60-63 | `collection` succeeds iff every item is an array that `fromArray` accepts (the `array` parameter type); the result keeps keys and order |
| BaseDto.Get | src/DTO/BaseDTO.php:65-68 | `__get` yields the property when it is set and `null` otherwise |
| BaseDto.EmitOfAbsorb | src/DTO/BaseDTO.php:13-43 | toArray after construction: each declared key given in the input comes back, as the type rule assigned it; no other key appears |
| BaseDto.ToArrayOfFromArray | src/DTO/BaseDTO.php:22-58 | the same through `fromArray` and `toArray`, for a class that uses `BaseDTO`'s own constructor |
| BaseDto.AbsorbOfEmit | src/DTO/BaseDTO.php:13-43 | constructing from an object's own `toArray` restores its properties when they are plain |
| BaseDto.FromArrayOfToArray | src/DTO/BaseDTO.php:22-58 | `fromArray(toArray(x)) == x` for DTOs with plain properties, for a class that uses `BaseDTO`'s own constructor |
| BaseDto.RehydrateRecord | src/DTO/SimplePurchaseInvoiceDto.php:72-74 | a nested DTO property is replaced, when the key is set and holds an array, by `fromArray` of that array; otherwise nothing changes; no other property changes |
| BaseDto.RehydrateList | src/DTO/SimplePurchaseInvoiceDto.php:84-86 | a list property is replaced by `collection` of the array under the same conditions; no other property changes |
| BaseDto.AbsorbOfEmitCorrected | src/DTO/BaseDTO.php:13-43 | with nested hydration repaired, constructing from `toArray` restores every non-object property |
| BaseDto.NestedRestored | src/DTO/SimplePurchaseInvoiceDto.php:72-74 | rehydrating from `toArray` restores a nested DTO |
| BaseDto.ListRestored | src/DTO/SimplePurchaseInvoiceDto.php:84-86 | rehydrating from `toArray` restores a list of DTOs |
| BaseDto.RebuildItems | src/DTO/BaseDTO.php:60-63 | `collection` of the mapped `toArray` items gives the original items back |
| BaseDto.PropertyFromData | src/DTO/BaseDTO.php:15-19 | a non-object property holds the input's value under the type rule, or `null` if absent |
| BaseDto.RecordArrayRejected | src/DTO/BaseDTO.php:17 | as written, an array given for an object-typed property is a `TypeError` |
| BaseDto.StringKept | src/DTO/BaseDTO.php:17 | a string property keeps the given string |
| BaseDto.IntWidened | src/DTO/BaseDTO.php:17 | an int given for a float property is stored widened |
| DtoSchemas.SchemaOf | src/DTO/SimplePurchaseInvoiceDto.php:9-66 | a class's schema lists its declared properties and their types |
| Dtos.FromArrayDeclared | src/DTO/BaseDTO.php:55-58 | `fromArray` of every class, as written or corrected, yields an object of that class with exactly its declared properties |
| Dtos.BaseDeclared | src/DTO/BaseDTO.php:55-58 | the same for classes without their own constructor |
| Dtos.CollectionItems | src/DTO/BaseDTO.php:60-63 | `collection` maps every item to `fromArray` of that class, keeping keys |
| Dtos.AsWrittenNestedRejected | src/DTO/SimplePurchaseInvoiceDto.php:68-90 | as written, `fromArray` of the purchase invoice or the accept/reject answer is a `TypeError` when the data holds an array under a party or under `invoice` |
| Dtos.FromArrayRoundTrip | src/DTO/BaseDTO.php:22-58 | for a class that keeps the base constructor, `fromArray(toArray(x)) == x` for plain records, as written or corrected |
| SimplePurchaseInvoice.Construct | src/DTO/SimplePurchaseInvoiceDto.php:68-90 | the constructor computes `Hydrate`: the base constructor, then four parties, then two lists |
| SimplePurchaseInvoice.PropertiesDeclared | src/DTO/SimplePurchaseInvoiceDto.php:68-90 | the result has exactly the declared properties |
| SimplePurchaseInvoice.RebuildKeeps | src/DTO/SimplePurchaseInvoiceDto.php:72-89 | the nested steps change no property set |
| SimplePurchaseInvoice.RebuildKeepsKey | src/DTO/SimplePurchaseInvoiceDto.php:72-89 | the nested steps leave every non-nested property as the base constructor set it |
| SimplePurchaseInvoice.ScalarCopied | src/DTO/SimplePurchaseInvoiceDto.php:70 | every non-nested property is set by the base constructor from the input |
| SimplePurchaseInvoice.NestedDeclared | src/DTO/SimplePurchaseInvoiceDto.php:38-55 | the six nested keys are declared properties |
| SimplePurchaseInvoice.NonNestedNotRecord | src/DTO/SimplePurchaseInvoiceDto.php:9-66 | no other property is object-typed |
| SimplePurchaseInvoice.StatusPreserved | src/DTO/SimplePurchaseInvoiceDto.php:19-21 | `status` and `cirStatus` keep the given string |
| SimplePurchaseInvoice.AmountWidened | src/DTO/SimplePurchaseInvoiceDto.php:49 | an integer `payableAmount` is stored as a float |
| SimplePurchaseInvoice.AsWrittenRejectsPartyArray | src/DTO/SimplePurchaseInvoiceDto.php:38-41 | as written, any party given as an array makes the constructor throw a `TypeError` |
| SimplePurchaseInvoice.PartyHydrated | src/DTO/SimplePurchaseInvoiceDto.php:72-83 | corrected: a party given as an array becomes `PartyDto::fromArray` of it |
| SimplePurchaseInvoice.ListHydrated | src/DTO/SimplePurchaseInvoiceDto.php:84-89 | `taxSubtotals` / `invoiceLines` become the collections of their DTOs, item for item |
| SimplePurchaseInvoice.AsWrittenRoundTripFails | src/DTO/SimplePurchaseInvoiceDto.php:68-90 | as written, `fromArray(toArray(x))` throws whenever `x` has a party set |
| SimplePurchaseInvoice.RoundTrip | src/DTO/SimplePurchaseInvoiceDto.php:68-90 | corrected: `fromArray(toArray(x)) == x` for an invoice whose scalars are plain, whose parties are plain `PartyDto`s or `null`, and whose two lists are plain DTO lists or `null` |
| SimplePurchaseInvoice.RebuiltFrom | src/DTO/SimplePurchaseInvoiceDto.php:70-89 | the base step on `toArray(x)` succeeds, and the nested steps then give `x` back |
| SimplePurchaseInvoice.CorrectedAbsorb | src/DTO/SimplePurchaseInvoiceDto.php:70 | the corrected base step on `toArray(x)` keeps the property set, restores every non-nested property and leaves a `null` nested property `null` |
| SimplePurchaseInvoice.PartiesRestored | src/DTO/SimplePurchaseInvoiceDto.php:72-83 | the four party steps restore the four parties from `toArray(x)` |
| SimplePurchaseInvoice.ListsRestored | src/DTO/SimplePurchaseInvoiceDto.php:84-89 | the two list steps restore `taxSubtotals` and `invoiceLines` from `toArray(x)` |
| AcceptRejectResponse.Construct | src/DTO/AcceptRejectResponseDto.php:14-21 | the constructor computes `Hydrate` |
| AcceptRejectResponse.PropertiesDeclared | src/DTO/AcceptRejectResponseDto.php:9-12 | the result has exactly the four declared properties |
| AcceptRejectResponse.ScalarCopied | src/DTO/AcceptRejectResponseDto.php:10-12 | `success`, `message` and `httpStatus` hold the input's values, or `null` |
| AcceptRejectResponse.InvoiceAbsent | src/DTO/AcceptRejectResponseDto.php:18-20 | without an `invoice` key the invoice stays `null` |
| AcceptRejectResponse.AsWrittenRejectsInvoiceArray | src/DTO/AcceptRejectResponseDto.php:9 | as written, an `invoice` array makes the constructor throw a `TypeError` |
| AcceptRejectResponse.AsWrittenRoundTripFails | src/DTO/AcceptRejectResponseDto.php:14-21 | as written, `fromArray(toArray(x))` throws whenever `x` has an invoice |
| AcceptRejectResponse.InvoiceHydrated | src/DTO/AcceptRejectResponseDto.php:18-20 | corrected: an `invoice` array becomes `ChangeStatusInvoiceResponseDto::fromArray` of it |
| AcceptRejectResponse.InvoiceSerialised | src/DTO/BaseDTO.php:27-28 | `toArray` nests the invoice's own `toArray`, which holds its two declared fields |
| AcceptRejectResponse.RoundTrip | src/DTO/AcceptRejectResponseDto.php:14-21 | corrected: `fromArray(toArray(x)) == x` |
| AcceptRejectResponse.CorrectedBase | src/DTO/AcceptRejectResponseDto.php:16 | the base constructor on `toArray(x)` restores every property except the invoice |
| AcceptRejectResponse.InvoiceArrayExample | src/DTO/AcceptRejectResponseDto.php:18-20 | a concrete input that is rejected as written and hydrated once corrected |
| EfakturaExceptions.WithMessage | src/Exceptions/EfakturaException.php:17-29 | the plain constructor: the message, code 0, no response |
| EfakturaExceptions.Implode | src/Exceptions/EfakturaException.php:51-52 | `implode` succeeds iff every item converts to a string; when the first item does not, its fault is thrown (an array item: `ErrorException` "Array to string conversion") |
| EfakturaExceptions.ImplodeFault | src/Exceptions/EfakturaException.php:51-52 | a failed `implode` throws the fault of the first item that does not convert, every earlier item having converted |
| EfakturaExceptions.Required | src/EfakturaManager.php:37 | an unguarded `$a['k']` gives the stored value iff the key is there, `null` included; a missing key is the `ErrorException` "Undefined array key" |
| EfakturaExceptions.CastFailure | src/Exceptions/EfakturaException.php:51-52 | an array converted to a string is an `ErrorException` "Array to string conversion"; an object without `__toString` is an `Error` |
| EfakturaExceptions.ExtractErrorMessage | src/Exceptions/EfakturaException.php:46-54 | the precedence `message`, `error`, `Message`, the joined `errors` list, then "Unknown error"; a non-string value is a `TypeError`; an `errors` list that does not join throws what `implode` throws |
| EfakturaExceptions.FieldErrorsThrow | src/Exceptions/EfakturaException.php:51-52 | an answer `{"errors": {"field": [...]}}` makes `extractErrorMessage` throw `ErrorException` "Array to string conversion" |
| EfakturaExceptions.AsMessage | src/Exceptions/EfakturaException.php:46 | the string return type admits strings only |
| EfakturaExceptions.StoredBody | src/Exceptions/EfakturaException.php:33 | the JSON body, or `['raw' => body]` when it does not decode |
| EfakturaExceptions.FromResponse | src/Exceptions/EfakturaException.php:31-44 | code and HTTP status come from the response; with an array body a non-empty given message is the exception's message, otherwise the extracted one (failing iff extraction fails); a non-array body is a `TypeError` |
| EfakturaExceptions.Context | src/Exceptions/EfakturaException.php:71-77 | the log context holds exactly `http_status` and `response_body` |
| EfakturaExceptions.RawBodyMessage | src/Exceptions/EfakturaException.php:31-44 | for a non-JSON body the exception keeps the raw body and says "Unknown error" |
| EfakturaExceptions.MessageWinsOverError | src/Exceptions/EfakturaException.php:48-49 | `message` takes precedence over `error` |
| Client.RTrimSlash | src/Services/EfakturaClient.php:26 | `rtrim($baseUrl, '/')`: a prefix of the input, without a trailing slash, that removes only slashes |
| Client.RTrimSlashKeeps | src/Services/EfakturaClient.php:26 | trimming is idempotent, leaves slash-free URLs alone and ignores one added slash |
| Client.Nested | src/Services/EfakturaClient.php:50 | a nested config read is set iff both levels are set |
| Client.OptionsOf | src/Services/EfakturaClient.php:40-58 | timeouts default to 30 and 10; retry is on iff `retry.times` is set and above zero by PHP's loose `>`; the `times` value is passed on as given, `sleep` defaulting to 100 |
| Client.StringTimesRetry | src/Services/EfakturaClient.php:50-55 | a `times` given as decimal text (as an environment variable gives it) turns retry on iff the number it writes is positive, and is passed on as that text |
| Client.DefaultOptions | src/Services/EfakturaClient.php:40-58 | an empty config gives the defaults and no retry |
| Client.HandleResponse | src/Services/EfakturaClient.php:220-239 | a failed response becomes an `EfakturaException`; an empty body is `[]`; a non-JSON body is `['raw' => body]`; a JSON non-array is a `TypeError` |
| Client.FileResponse | src/Services/EfakturaClient.php:191-206 | a successful download returns the raw body |
| Client.SameFailureRule | src/Services/EfakturaClient.php:191-239 | file and JSON requests fail on the same responses, with the same exception |
| Client.RawSuccess | src/Services/EfakturaClient.php:233-236 | a successful non-JSON answer is exactly `['raw' => body]` |
| Client.AttachmentOf | src/Services/EfakturaClient.php:141-145 | an attachable item becomes a part with its `name`, its `contents` and `filename ?? null`; without `name` it is the `ErrorException` "Undefined array key \"name\"" |
| Client.Attachments | src/Services/EfakturaClient.php:139-147 | only items whose `contents` is set and is a resource become attachments; the fold fails iff some attachable item has no `name` |
| Client.AttachmentsFilter | src/Services/EfakturaClient.php:139-147 | no usable item gives no parts; usable items that all have a name give one part each; every part comes from a usable item |
| Client.EfakturaClient.constructor | src/Services/EfakturaClient.php:23-28 | the client keeps the key and config, stores the base URL right-trimmed, and has sent nothing |
| Client.EfakturaClient.BuildQueryString | src/Services/EfakturaClient.php:208-215 | empty iff there is no query; otherwise `?` followed by the encoded query |
| Client.EfakturaClient.WithQuery | src/Services/EfakturaClient.php:100-111 | the endpoint is left alone without a query, else the query string is appended |
| Client.EfakturaClient.Send | src/Services/EfakturaClient.php:40-58 | sending records the request and returns the server's answer to it |
| Client.EfakturaClient.Get | src/Services/EfakturaClient.php:84-95 | a GET with the query as parameters, handled by `handleResponse` |
| Client.EfakturaClient.Post | src/Services/EfakturaClient.php:100-111 | a POST of the data to the endpoint plus query string |
| Client.EfakturaClient.PostXml | src/Services/EfakturaClient.php:116-128 | a POST of the XML body |
| Client.EfakturaClient.PostMultipart | src/Services/EfakturaClient.php:133-154 | a POST of the attachments filtered from the parts; an attachable item without `name` throws `ErrorException` and nothing is sent |
| Client.EfakturaClient.Put | src/Services/EfakturaClient.php:159-170 | a PUT of the data |
| Client.EfakturaClient.Delete | src/Services/EfakturaClient.php:175-186 | a DELETE with the data as body |
| Client.EfakturaClient.GetFile | src/Services/EfakturaClient.php:191-206 | a GET whose body is returned raw |
| CacheStores.CacheStore.constructor | src/Services/PublicApiService.php:44 | the cache starts empty |
| CacheStores.CacheStore.Get | src/Services/PublicApiService.php:44 | a missing key reads as `null` |
| CacheStores.CacheStore.Put | src/Services/PublicApiService.php:44 | storing sets one key and nothing else |
| CacheStores.CacheStore.Forget | src/Services/PublicApiService.php:196-199 | forgetting removes one key and nothing else |
| CacheStores.CacheKey | src/Services/PublicApiService.php:40 | the key is the configured prefix (default `efaktura_`) followed by the name; an array prefix throws `ErrorException` "Array to string conversion" |
| CacheStores.Ttl | src/Services/PublicApiService.php:41 | the TTL defaults to 86400 |
| CacheStores.KeysSeparate | src/Services/PublicApiService.php:40 | different names give different cache keys |
| CacheStores.ArrayReturn | src/Services/PublicApiService.php:38 | an `array` return type admits arrays only |
| CacheStores.RememberSpec | src/Services/PublicApiService.php:44-46 | `Cache::remember` calls the closure iff the key is missing; on a hit it returns the stored value and changes nothing; no other key changes |
| CacheStores.RememberTwice | src/Services/PublicApiService.php:44-46 | after one successful fetch, a second `remember` is a hit with the same result |
| CacheStores.CachedSpec | src/Services/PublicApiService.php:38-50 | with caching off the service always fetches and the cache is untouched; with caching on it fetches iff the key is missing |
| Queries.PutIfGivenAppends | src/Services/PurchaseInvoiceService.php:214-224 | setting a new optional key appends an entry only when a value is given |
| Queries.StatusThenDateFrom | src/Services/PurchaseInvoiceService.php:214-220 | `status` then `dateFrom` are appended in that order |
| Queries.FilterQueryEntries | src/Services/PurchaseInvoiceService.php:207-229 | the filter query holds exactly the given `status`, `dateFrom`, `dateTo`, in that order |
| SalesInvoices.LastSegment | src/Services/SalesInvoiceService.php:70 | `basename` is the longest slash-free suffix |
| SalesInvoices.RequestIdThenSendToCir | src/Services/SalesInvoiceService.php:125-140 | `requestId` then `sendToCir` are appended when given |
| SalesInvoices.UblQueryEntries | src/Services/SalesInvoiceService.php:125-140 | the UBL query is the given optional keys followed by `executeValidation` as `"true"`/`"false"` |
| SalesInvoices.UblPartAttached | src/Services/SalesInvoiceService.php:66-78 | the UBL upload sends one `ublFile` part named after the file's basename when the file is open, and none when `fopen` gave `false` without a warning; the item always has a name, so building the request never throws |
| SalesInvoices.StreamOf | src/Services/SalesInvoiceService.php:69 | the part's `contents` is a stream exactly when `fopen` opened the file |
| SalesInvoices.UblItemAttached | src/Services/SalesInvoiceService.php:66-78 | the same for a given file name |
| SalesInvoices.UblItemLookups | src/Services/SalesInvoiceService.php:67-71 | the part's `name`, `contents` and `filename` |
| SalesInvoices.DeletedId | src/Services/SalesInvoiceService.php:159-164 | `delete` returns `(int)` of the response's first element, or the requested id when it is absent; an int is returned as is, a string by PHP's string-to-int cast |
| PhpValues.Saturate | src/Services/SalesInvoiceService.php:163 | a cast result stays within the 64-bit bounds, equal to the value inside them and clamped to the nearer bound outside |
| PhpValues.StringToInt | src/Services/SalesInvoiceService.php:163 | `(int)` of a string is 0 without a leading number, otherwise the number truncated toward zero and saturated |
| PhpValues.StringToIntOfIntText | src/Services/SalesInvoiceService.php:163 | `(int)` reads back the decimal text of every 64-bit integer |
| PhpValues.CastOfSignedDigits | src/Services/SalesInvoiceService.php:163 | an optional minus and digits cast to their signed value, saturated |
| PhpValues.CastWhole | src/Services/SalesInvoiceService.php:163 | digits followed by trailing text cast to the digits scaled by any exponent that follows, saturated |
| PhpValues.CastFraction | src/Services/SalesInvoiceService.php:163 | a decimal with a fraction casts to its value scaled by any exponent, truncated toward zero, saturated |
| PhpValues.ExponentOfDigits | src/Services/SalesInvoiceService.php:163 | an `e`/`E`, an optional minus and digits are read as that signed exponent |
| PhpValues.TinyExponentCast | src/Services/SalesInvoiceService.php:163 | `(int)"1.0E-5"` is 0 |
| PhpValues.DecimalTextAboveZero | src/Services/EfakturaClient.php:50 | a decimal numeral string is above zero by the loose `>` iff its number is positive |
| SalesInvoices.FindByNumber | src/Services/SalesInvoiceService.php:46-51 | `findByNumber` always returns `null` |
| SalesInvoices.ReasonBody | src/Services/SalesInvoiceService.php:171-194 | the cancel/storno body holds `invoiceId` and the reason key, in that order |
| SalesInvoices.SalesInvoiceService.constructor | src/Services/SalesInvoiceService.php:22-25 | the service keeps its client and cache config |
| SalesInvoices.SalesInvoiceService.Get | src/Services/SalesInvoiceService.php:32-39 | one GET with `invoiceId`; the handled answer |
| SalesInvoices.SalesInvoiceService.UploadUbl | src/Services/SalesInvoiceService.php:58-81 | a warning from `fopen` throws `ErrorException` with no request; otherwise one multipart POST with the UBL query, the answer hydrated as `MiniInvoiceDto` |
| SalesInvoices.SalesInvoiceService.ImportUbl | src/Services/SalesInvoiceService.php:88-103 | one XML POST with the UBL query; hydrated as `MiniInvoiceDto` |
| SalesInvoices.SalesInvoiceService.ImportUblFromFile | src/Services/SalesInvoiceService.php:110-123 | a warning from `file_get_contents` throws `ErrorException`; a `false` without one throws "Cannot read file: …"; neither sends a request; otherwise it is `importUbl` of the contents |
| SalesInvoices.SalesInvoiceService.DeleteMultiple | src/Services/SalesInvoiceService.php:149-152 | one DELETE with the ids as body |
| SalesInvoices.SalesInvoiceService.Delete | src/Services/SalesInvoiceService.php:159-164 | one DELETE; success iff the request succeeds, returning `DeletedId` |
| SalesInvoices.SalesInvoiceService.Cancel | src/Services/SalesInvoiceService.php:171-179 | one POST of the cancel body; hydrated as `InvoiceDto` |
| SalesInvoices.SalesInvoiceService.Storno | src/Services/SalesInvoiceService.php:186-194 | one POST of the storno body; hydrated as `InvoiceDto` |
| SalesInvoices.SalesInvoiceService.GetPdf | src/Services/SalesInvoiceService.php:201-206 | one file GET of the PDF |
| SalesInvoices.SalesInvoiceService.GetXml | src/Services/SalesInvoiceService.php:225-230 | one file GET of the XML |
| SalesInvoices.SalesInvoiceService.GetSignature | src/Services/SalesInvoiceService.php:249-254 | one file GET of the signature |
| SalesInvoices.SalesInvoiceService.GetChanges | src/Services/SalesInvoiceService.php:262-269 | one POST with the date; the collection of `SalesInvoiceStatusChangeDto` |
| SalesInvoices.SalesInvoiceService.GetIds | src/Services/SalesInvoiceService.php:276-298 | one POST with the filter query; the handled answer |
| SalesInvoices.SalesInvoiceService.FetchVatExemptionReasons | src/Services/SalesInvoiceService.php:320-325 | one GET; the collection of exemption reasons |
| SalesInvoices.SalesInvoiceService.GetVatExemptionReasons | src/Services/SalesInvoiceService.php:306-318 | `Cache::remember` semantics: the result, the new cache, and a request only when it fetched |
| PurchaseInvoices.DecisionBodyEntries | src/Services/PurchaseInvoiceService.php:114-165 | the accept/reject body is the id, `accepted` and `comment` (or `null`), in that order |
| PurchaseInvoices.AssignQueryEntries | src/Services/PurchaseInvoiceService.php:294-316 | the assignment query holds exactly the given optional keys |
| PurchaseInvoices.PurchaseInvoiceService.constructor | src/Services/PurchaseInvoiceService.php:20-23 | the service keeps its client and cache config |
| PurchaseInvoices.PurchaseInvoiceService.Get | src/Services/PurchaseInvoiceService.php:30-37 | one GET; hydrated as `SimplePurchaseInvoiceDto` |
| PurchaseInvoices.PurchaseInvoiceService.NestedAnswerRejected | src/Services/PurchaseInvoiceService.php:30-37 | as written, a successful answer holding a party array (or an `invoice` array for accept/reject) ends in a `TypeError` |
| PurchaseInvoices.PurchaseInvoiceService.GetPdf | src/Services/PurchaseInvoiceService.php:44-49 | one file GET of the PDF |
| PurchaseInvoices.PurchaseInvoiceService.GetXml | src/Services/PurchaseInvoiceService.php:68-73 | one file GET of the XML |
| PurchaseInvoices.PurchaseInvoiceService.GetUblByCirInvoiceId | src/Services/PurchaseInvoiceService.php:92-95 | one file GET of the UBL by CIR id |
| PurchaseInvoices.PurchaseInvoiceService.GetSignature | src/Services/PurchaseInvoiceService.php:102-107 | one file GET of the signature |
| PurchaseInvoices.PurchaseInvoiceService.AcceptReject | src/Services/PurchaseInvoiceService.php:114-123 | one POST of the decision body; hydrated as `AcceptRejectResponseDto` |
| PurchaseInvoices.PurchaseInvoiceService.Accept | src/Services/PurchaseInvoiceService.php:130-133 | `acceptReject` with `true` |
| PurchaseInvoices.PurchaseInvoiceService.Reject | src/Services/PurchaseInvoiceService.php:140-143 | `acceptReject` with `false` |
| PurchaseInvoices.PurchaseInvoiceService.AcceptRejectByCirInvoiceId | src/Services/PurchaseInvoiceService.php:150-165 | the same by CIR id |
| PurchaseInvoices.PurchaseInvoiceService.AcceptByCirId | src/Services/PurchaseInvoiceService.php:172-175 | accept by CIR id |
| PurchaseInvoices.PurchaseInvoiceService.RejectByCirId | src/Services/PurchaseInvoiceService.php:182-185 | reject by CIR id |
| PurchaseInvoices.PurchaseInvoiceService.GetChanges | src/Services/PurchaseInvoiceService.php:193-200 | one POST with the date; the collection of status changes |
| PurchaseInvoices.PurchaseInvoiceService.GetIds | src/Services/PurchaseInvoiceService.php:207-229 | one POST with the filter query; hydrated as `PurchaseInvoicesDto` |
| PurchaseInvoices.PurchaseInvoiceService.GetOverview | src/Services/PurchaseInvoiceService.php:237-259 | one GET with the filter query; the collection of overviews |
| PurchaseInvoices.PurchaseInvoiceService.GetNew | src/Services/PurchaseInvoiceService.php:267-270 | `getOverview` with status `New` |
| PurchaseInvoices.PurchaseInvoiceService.RecordVatReverseCharge | src/Services/PurchaseInvoiceService.php:277-287 | one POST of the reverse-charge body |
| PurchaseInvoices.PurchaseInvoiceService.AssignCirInvoice | src/Services/PurchaseInvoiceService.php:294-316 | one POST with the assignment query; hydrated as `PurchaseInvoiceDto` |
| PurchaseInvoices.PurchaseInvoiceService.CancelCirAssignment | src/Services/PurchaseInvoiceService.php:323-328 | one GET; hydrated as `PurchaseInvoiceDto` |
| PublicApi.CacheNamesDistinct | src/Services/PublicApiService.php:40-60 | the three cache names differ, so the entries never collide |
| PublicApi.DropNulls | src/Services/PublicApiService.php:126-131 | `array_filter` keeps only non-null entries of the input |
| PublicApi.DropGiven | src/Services/PublicApiService.php:126-131 | filtering drops an entry exactly when its value was not given |
| PublicApi.CheckBodyEntries | src/Services/PublicApiService.php:120-139 | the registration-check body holds exactly the given identifiers, in order |
| PublicApi.CheckBySingleKey | src/Services/PublicApiService.php:146-169 | `checkByPib`/`Mb`/`Jbkjs` send a body with only that key |
| PublicApi.PibOf | src/Services/PublicApiService.php:181 | `$company->pib` succeeds iff the item is a record object, through `__get`; on an array, string, null or other non-object it is the `ErrorException` "Attempt to read property \"pib\" on …" |
| PublicApi.FirstWithPibSpec | src/Services/PublicApiService.php:180-186 | `null` iff every item is a record object without the PIB; otherwise the first item that matches or is not an object decides: a match (checked against `?MiniCompanyDto`) or that item's `ErrorException`; the result is one of the companies |
| PublicApi.Values | src/Services/PublicApiService.php:180 | `foreach` visits the array's values in order |
| PublicApi.SubscribeResult | src/Services/PublicApiService.php:98-103 | `raw ?? ''`, which must be a string |
| PublicApi.PublicApiService.constructor | src/Services/PublicApiService.php:16-19 | the service keeps its client and cache config |
| PublicApi.PublicApiService.GetVersion | src/Services/PublicApiService.php:26-31 | one GET; hydrated as `EfakturaVersionDto` |
| PublicApi.PublicApiService.GetUnitMeasures | src/Services/PublicApiService.php:38-50 | `Cache::remember` semantics for unit measures |
| PublicApi.PublicApiService.FetchAllCompanies | src/Services/PublicApiService.php:72-79 | one GET with `includeAllStatuses`; the collection of `MiniCompanyDto` |
| PublicApi.PublicApiService.GetAllCompanies | src/Services/PublicApiService.php:58-70 | `Cache::remember` semantics under `companies_all` / `companies_active` |
| PublicApi.PublicApiService.DownloadAllCompanies | src/Services/PublicApiService.php:86-91 | one file GET with `includeAllStatuses` |
| PublicApi.PublicApiService.Subscribe | src/Services/PublicApiService.php:98-103 | one POST; `SubscribeResult` of the answer |
| PublicApi.PublicApiService.UpdateCompany | src/Services/PublicApiService.php:110-113 | one PUT |
| PublicApi.PublicApiService.CheckIfCompanyRegistered | src/Services/PublicApiService.php:120-139 | one POST of the filtered body; hydrated as `CompanyAccountOnEfakturaDto` |
| PublicApi.PublicApiService.CheckByPib | src/Services/PublicApiService.php:146-149 | check with PIB only |
| PublicApi.PublicApiService.CheckByMb | src/Services/PublicApiService.php:156-159 | check with MB only |
| PublicApi.PublicApiService.CheckByJbkjs | src/Services/PublicApiService.php:166-169 | check with JBKJS only |
| PublicApi.PublicApiService.FindCompanyByPib | src/Services/PublicApiService.php:176-187 | the loop returns `FirstWithPib` of the active companies, fetched through the cache, so a non-object item before any match throws |
| PublicApi.PublicApiService.ClearCache | src/Services/PublicApiService.php:192-200 | exactly the four prefixed keys are removed from the cache |
| Manager.BaseUrlSelection | src/EfakturaManager.php:37-39 | a missing `environment` is the undefined-key `ErrorException`; otherwise the demo environment picks `urls.demo`, any other value `urls.production`, each with its default; a non-string URL is a `TypeError` |
| Manager.ApiKeyOf | src/EfakturaManager.php:42 | the API key must be a string; a missing key is the undefined-key `ErrorException`, a present non-string (`null` included) a `TypeError` |
| Manager.RetryLookup | src/EfakturaManager.php:47 | the client's `retry` is `http.retry`, default `[]` |
| Manager.ConnectTimeoutLookup | src/EfakturaManager.php:46 | the client's `connect_timeout` is `http.connect_timeout`, default 10 |
| Manager.TimeoutLookup | src/EfakturaManager.php:45 | the client's `timeout` is `http.timeout`, default 30 |
| Manager.ClientOptions | src/EfakturaManager.php:44-49 | the client's timeouts come from the `http` section; retry is on iff `http.retry` is an array whose `times` is above zero by PHP's loose `>`, and that `times` is passed on |
| Manager.ManagerDefaults | src/EfakturaManager.php:35-51 | an empty config throws at `environment`; with only `environment` (not 'demo') and `api_key` set, the production URL, the key, 30 and 10 second timeouts and no retry |
| Manager.CacheConfigOf | src/EfakturaManager.php:69 | `cache ?? []`, which must be an array |
| Manager.Lower | src/EfakturaManager.php:141-151 | `method_exists` compares names case-insensitively: lower-casing maps each character |
| Manager.RouteSpec | src/EfakturaManager.php:138-156 | `__call` goes to sales, then purchase, then public; a protected method is an `Error`; a name on none of them is a `BadMethodCallException` |
| Manager.GetReachesSales | src/EfakturaManager.php:140-142 | `get` goes to the sales service |
| Manager.AcceptReachesPurchase | src/EfakturaManager.php:144-146 | `accept` goes to the purchase service |
| Manager.RouteIgnoresCase | src/EfakturaManager.php:138-156 | routing ignores the case of the method name |
| Manager.EfakturaManager.constructor | src/EfakturaManager.php:29-33 | no service exists yet |
| Manager.EfakturaManager.Create | src/EfakturaManager.php:29-51 | a missing `environment`, then a missing `api_key`, throws the undefined-key `ErrorException`; then an ill-typed key or URL is a `TypeError`; construction succeeds iff key and URL are strings, with a fresh client holding the trimmed URL and the derived options |
| Manager.EfakturaManager.EnvironmentComplement | src/EfakturaManager.php:109-120 | `isDemo` and `isProduction` are complements, and match the URL chosen |
| Manager.EfakturaManager.SalesInvoice | src/EfakturaManager.php:64-74 | created once on first use, then the same instance |
| Manager.EfakturaManager.PurchaseInvoice | src/EfakturaManager.php:79-89 | created once on first use, then the same instance |
| Manager.EfakturaManager.PublicApiService | src/EfakturaManager.php:94-104 | created once on first use, then the same instance |
| Manager.EfakturaManager.Property | src/EfakturaManager.php:125-133 | the three service names give the services; any other name is an `InvalidArgumentException` |
| Manager.EfakturaManager.Call | src/EfakturaManager.php:138-156 | the call is routed per `RouteSpec`, and creates exactly the services it inspects |
| SalesInvoiceStatuses.TryFrom | src/Enums/SalesInvoiceStatus.php:9-18 | `tryFrom` only yields a case with that value |
| SalesInvoiceStatuses.CasesComplete | src/Enums/SalesInvoiceStatus.php:9-18 | ten distinct cases |
| SalesInvoiceStatuses.ValueRoundTrip | src/Enums/SalesInvoiceStatus.php:9-18 | `tryFrom(x->value) == x` |
| SalesInvoiceStatuses.ValueInjective | src/Enums/SalesInvoiceStatus.php:9-18 | the values are distinct |
| SalesInvoiceStatuses.FinalCases | src/Enums/SalesInvoiceStatus.php:36-44 | final iff Approved, Rejected, Cancelled or Storno |
| SalesInvoiceStatuses.LabelsDistinct | src/Enums/SalesInvoiceStatus.php:20-34 | labels are non-empty and distinct |
| PurchaseInvoiceStatuses.TryFrom | src/Enums/PurchaseInvoiceStatus.php:9-15 | `tryFrom` only yields a case with that value |
| PurchaseInvoiceStatuses.CasesComplete | src/Enums/PurchaseInvoiceStatus.php:9-15 | seven distinct cases |
| PurchaseInvoiceStatuses.ValueRoundTrip | src/Enums/PurchaseInvoiceStatus.php:9-15 | `tryFrom(x->value) == x` |
| PurchaseInvoiceStatuses.ValueInjective | src/Enums/PurchaseInvoiceStatus.php:9-15 | the values are distinct |
| PurchaseInvoiceStatuses.StatusPartition | src/Enums/PurchaseInvoiceStatus.php:30-46 | final iff Approved/Rejected/Cancelled/Storno; needs action iff New/Seen; never both; only UnsuccesfullyDelivered is neither |
| PurchaseInvoiceStatuses.LabelsDistinct | src/Enums/PurchaseInvoiceStatus.php:17-28 | labels are non-empty and distinct |
| CirInvoiceStatuses.TryFrom | src/Enums/CirInvoiceStatus.php:9-14 | `tryFrom` only yields a case with that value |
| CirInvoiceStatuses.CasesComplete | src/Enums/CirInvoiceStatus.php:9-14 | six distinct cases |
| CirInvoiceStatuses.ValueRoundTrip | src/Enums/CirInvoiceStatus.php:9-14 | `tryFrom(x->value) == x` |
| CirInvoiceStatuses.ValueInjective | src/Enums/CirInvoiceStatus.php:9-14 | the values are distinct |
| CirInvoiceStatuses.LabelsDistinct | src/Enums/CirInvoiceStatus.php:16-26 | labels are non-empty and distinct |

## Left out

- `downloadPdf` and `downloadXml` (both services): they write with `file_put_contents`. File-system I/O is not modelled. `getPdf` and `getXml`, which they wrap, are modelled.
- `SimpleSalesInvoiceDto`, `SalesInvoicesDto` and the `SendToCir` enum are not part of this model:
  - Sales `get` and `getIds` return the handled array rather than a hydrated DTO.
  - `sendToCir` is passed as its string value.
- Cache TTL expiry: the modelled cache never expires an entry. The TTL is computed and stored, but time is not modelled. Laravel's `put` with a TTL of 0 seconds or less forgets the key instead of storing it, so with such a TTL every call fetches again; the model (`CacheStores.CacheStore.Put`, `CacheStores.Remember`, `CacheStores.RememberTwice`) stores the entry whatever the TTL.
- Request headers, authentication, request/response logging and the joining of base URL and endpoint: the model records the endpoint and the options.
- `http_build_query`/`urlencode`: this is the client parameter `encodeQuery`. Formatting a `DateTimeInterface` is modelled as a string the caller passes in.
- The transport itself is the parameter `server`. Laravel's retry loop is represented only by the retry options it receives.
- Manager.EfakturaManager.Call: the arguments forwarded by `__call` are not modelled. The result names the target service and the lower-cased method name, not the forwarded call's return value.
- Manager.RouteSpec: no concrete routing lemma is stated for method names longer than `getIds`, although `RouteSpec` covers every name.
- PublicApi.PibOf: for an enum case or a date object in the list the failure is an `ErrorException` whose message does not name the real class. A Carbon date would throw Carbon's own exception from its `__get`.
- Floats are an abstract `FloatRep`. Only int-to-float widening is modelled, not float arithmetic.
- PhpValues.StringToInt: the value of a numeric prefix is exact. PHP goes through a double when the prefix has a fraction or an exponent, so rounding beyond about 15 significant digits, an exponent overflowing to `INF` and the platform's out-of-range float cast are not modelled.
- PhpValues.AboveZero: a numeric string is compared by its exact decimal value, so a tiny positive exponent form that PHP's double would underflow to 0 counts as above zero.
- Client.OptionsOf: the options carry the configured values as they are. Laravel's `timeout()`, `connectTimeout()` and `retry()` take ints, so under `strict_types` a value that `env()` gives as a string (`"60"`, `"3"`) is a `TypeError` when `makeRequest` runs. Those calls are in Laravel and are not modelled.
- Client.HandleResponse: the transport `server` answers each request once. With retry on (the shipped default is `retry.times` = 3), Laravel resends a failed response (status 400 or above) up to `times` times and then throws its own `RequestException`. So `EfakturaException::fromResponse` in `handleResponse` and `getFile` is reached only when retry is off or `times` is 1. Also, a timeout set through `.env` reaches `->timeout()` as a string, which is a `TypeError` before any request. The model promises an `EfakturaException` and records one request per call; Laravel's retry loop is not modelled.
- `toJson` and `jsonSerialize`: these wrap `json_encode` of `toArray`, which is modelled. JSON encoding itself is not.
- The service provider, facades, the console command and the contract interfaces are not part of this model.
- `getClient`, `getApiKey` and `getBaseUrl` are plain field reads. The fields are visible in the model.

## Findings

| source | as written | input that shows it | evidently intended | confidence | as-written member | corrected member |
|---|---|---|---|---|---|---|
| src/DTO/SimplePurchaseInvoiceDto.php:68-90 | `parent::__construct($data)` assigns `$data['accountingSupplierParty']` (an array) to the typed property `?PartyDto` before the override runs; under `strict_types` this throws `TypeError`, so the party branch is never reached | `['accountingSupplierParty' => ['name' => 'X']]` | the party array is turned into a `PartyDto` | not executed | SimplePurchaseInvoice.AsWrittenRejectsPartyArray | SimplePurchaseInvoice.PartyHydrated |
| src/DTO/AcceptRejectResponseDto.php:14-21 | the same for `invoice` (`?ChangeStatusInvoiceResponseDto`) | `['invoice' => ['invoiceNumber' => '1']]` | the invoice array is turned into a `ChangeStatusInvoiceResponseDto` | not executed | AcceptRejectResponse.AsWrittenRejectsInvoiceArray | AcceptRejectResponse.InvoiceHydrated |
| src/DTO/AcceptRejectResponseDto.php:14-21 | because of the above, `fromArray($dto->toArray())` throws whenever the invoice is set | any response DTO with an invoice | `fromArray(toArray(x)) == x` | not executed | AcceptRejectResponse.AsWrittenRoundTripFails | AcceptRejectResponse.RoundTrip |
| src/DTO/SimplePurchaseInvoiceDto.php:68-90 | because of the first row, `fromArray($dto->toArray())` throws whenever a party is set | any purchase invoice DTO with a supplier party | `fromArray(toArray(x)) == x` | not executed | SimplePurchaseInvoice.AsWrittenRoundTripFails | SimplePurchaseInvoice.RoundTrip |

The corrected constructors skip the base assignment of a nested array. The nested step then
hydrates it, as the override evidently intends. Every constructor in `base_dto.dfy`, and the
constructors that use it, takes a flag `fixNested`:

- `false` is the code as written.
- `true` is the corrected behaviour.

The services call `Dtos.FromArray` with `fixNested = false`, so they throw as the code does
(`PurchaseInvoices.PurchaseInvoiceService.NestedAnswerRejected`). `Dtos.FromArray(cls, data, true)`
is the corrected path, and the round trips above are proved for it.
