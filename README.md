# VuFind record loading and ILS API request handling, in Dafny

This project models two parts of VuFind.

**The record loader** (`VuFind\Record\Loader`) turns record requests into record drivers.
- `load(id, source = 'Solr', tolerateMissing = false, params = null)` fetches one record. It asks the search service's `retrieve` for it. If nothing comes back, it asks the fallback loader registry. After that it either builds the `Missing` placeholder through the record factory, or throws `RecordMissing` with the message `Record <source>:<id> does not exist.`.
- `loadBatch(ids, flag, paramsBySource)` fetches many records. It accepts requests as `{source, id}` maps or `"source|id"` strings. It groups the ids by source, in the order each source is first seen, and makes one `retrieveBatch` call per source with that source's own parameters. It matches the returned drivers back to the requests by source identifier and unique id. It asks the fallback registry for any ids still missing. Every request that is still unanswered gets a `Missing` placeholder.

The search service, the record factory and the fallback registry are function-valued fields of `RecordLoader.Loader`. Every call to them is recorded in a call log:
- `RecordLoader.Loader.Load` and `RecordLoader.Loader.LoadBatchSpec` return the log next to the result.
- `RecordLoader.Loader.LoadBatch` keeps it as a ghost out-parameter.

`LoadBatch` is an imperative method in three loops: grouping, one backend call per group, and slot filling. It is proved equal to `LoadBatchSpec`, and `LoaderProperties` proves what `LoadBatchSpec` promises. `LoaderScenarios` restates each scenario of `LoaderTest.php` as a lemma. Each such lemma fixes concrete collaborators and proves the exact result and the exact sequence of collaborator calls.

The source of `Loader` itself is not part of this model. Its behaviour is the one the unit tests pin down. Where a natural reading of the loader's description differs from the tests, the tests are followed:
- Batch loading always goes through `retrieveBatch`, even for a group of one id.
- A missing record in a batch becomes the `Missing` placeholder whatever the second argument of `loadBatch` says. `loadBatch` never throws `RecordMissing`.

**The ILS API driver base** (`AbstractAPI`) shapes a request and classifies the response.
- `makeRequest` builds an HTTP request to `config['API']['base_url']` followed by the path, with a 120-second timeout and the caller's headers. It passes headers and parameters through `preRequest`. It logs the request when a logger is attached; parameters and headers are logged for GET only. It puts the parameters in the query (GET), the raw body (a string) or the form (otherwise). It sends the request and turns statuses 400, 401/403, 404 and 500 into exceptions.
- `setConfig` stores the configuration and throws `BadConfig` when no base URL is configured.

`IlsApi.HttpClient` and `IlsApi.ApiDriver` are classes whose methods update their fields, as the PHP objects do. The HTTP transport is the `send` parameter of `IlsApi.ApiDriver.MakeRequest`.

## Model

| member | source | states |
|---|---|---|
| Records.LookupFirstMatch | module/VuFind/tests/unit-tests/src/VuFindTest/Record/LoaderTest.php:250-258 | A request is answered by a driver exactly when some driver has its source identifier and unique id. The answer is the first such driver. |
| Identifiers.Parse | module/VuFind/tests/unit-tests/src/VuFindTest/Record/LoaderTest.php:188-191 | A `{source, id}` map always converts. A `"source|id"` string converts exactly when it contains `|`, and the string is then the source, `|` and the id. Otherwise it yields `InvalidIdentifier` with the string. |
| Identifiers.ParseKeyOf | module/VuFind/tests/unit-tests/src/VuFindTest/Record/LoaderTest.php:188-191 | Round trip: converting the compound string of a reference gives the reference back. |
| Identifiers.ParseAll | module/VuFind/tests/unit-tests/src/VuFindTest/Record/LoaderTest.php:188-191 | A converted batch has one reference per request, in order. A failed batch fails with the error of a request all of whose predecessors convert. |
| Identifiers.ParseAllSucceeds | module/VuFind/tests/unit-tests/src/VuFindTest/Record/LoaderTest.php:188-191 | Converse of `ParseAll`: if every request converts, the batch converts to exactly those references. |
| Identifiers.ParseAllStops | module/VuFind/tests/unit-tests/src/VuFindTest/Record/LoaderTest.php:188-191 | The first request that fails to convert aborts the batch with its error. |
| Grouping.SourcesDistinct | module/VuFind/tests/unit-tests/src/VuFindTest/Record/LoaderTest.php:179-185 | The grouped sources are distinct, and they are exactly the sources the requests name. |
| Grouping.SourcesFirstSeen | module/VuFind/tests/unit-tests/src/VuFindTest/Record/LoaderTest.php:179-185 | Sources are listed in the order of their first request. |
| Grouping.IdsForEmpty | module/VuFind/tests/unit-tests/src/VuFindTest/Record/LoaderTest.php:179-185 | A source has ids exactly when some request names it. |
| Grouping.GroupStep | module/VuFind/tests/unit-tests/src/VuFindTest/Record/LoaderTest.php:179-191 | One more request puts a new source last, or appends its id to its known source's ids, and changes no other group. |
| Grouping.GroupsPartition | module/VuFind/tests/unit-tests/src/VuFindTest/Record/LoaderTest.php:179-191 | The groups together hold exactly as many ids as there are requests. |
| RecordLoader.MissingIdsExact | module/VuFind/tests/unit-tests/src/VuFindTest/Record/LoaderTest.php:220-226 | The ids handed on as missing are exactly the group's ids that the backend's records do not answer. |
| RecordLoader.Loader.Fill | module/VuFind/tests/unit-tests/src/VuFindTest/Record/LoaderTest.php:192-199 | The result has one entry per request. |
| RecordLoader.Loader.LoadForSource | module/VuFind/tests/unit-tests/src/VuFindTest/Record/LoaderTest.php:179-185 | One group's `retrieveBatch` call, with that source's parameters or none, then the registry calls for its missing ids, yield `Fetch` and log `SourceCalls`. |
| RecordLoader.Loader.Dispatch | module/VuFind/tests/unit-tests/src/VuFindTest/Record/LoaderTest.php:179-185 | The loop over groups in first-seen order yields every group's records and logs their calls in that order. |
| RecordLoader.Loader.Reassemble | module/VuFind/tests/unit-tests/src/VuFindTest/Record/LoaderTest.php:192-199 | The loop over requests fills each slot in order and logs one factory call per placeholder. |
| RecordLoader.Loader.LoadBatch | module/VuFind/tests/unit-tests/src/VuFindTest/Record/LoaderTest.php:156-200 | The imperative `loadBatch` returns the result of `LoadBatchSpec` and makes exactly its calls. |
| RecordLoader.GroupRequests | module/VuFind/tests/unit-tests/src/VuFindTest/Record/LoaderTest.php:188-191 | The conversion and grouping loop converts the batch. On success it yields the sources in first-seen order and, for each source, its ids in request order. |
| RecordLoader.GroupAdvance | module/VuFind/tests/unit-tests/src/VuFindTest/Record/LoaderTest.php:188-191 | Extending the grouping by one request keeps it the grouping of the longer batch. |
| LoaderProperties.LoadRetrievesOnce | module/VuFind/tests/unit-tests/src/VuFindTest/Record/LoaderTest.php:115-125 | `load` calls `retrieve(source, id, params)` first, and makes no other search-service call. Source defaults to `Solr`, and the parameters arrive unchanged. |
| LoaderProperties.LoadOutcome | module/VuFind/tests/unit-tests/src/VuFindTest/Record/LoaderTest.php:56-108 | The result is the first retrieved record, else the first fallback record. Otherwise a tolerated miss yields the `Missing` placeholder with exactly one factory call. It throws `RecordMissing("Record S:I does not exist.")` exactly when nothing is found and the miss is not tolerated. |
| LoaderProperties.LoadBatchFailsOnlyOnBadInput | module/VuFind/tests/unit-tests/src/VuFindTest/Record/LoaderTest.php:188-199 | `loadBatch` succeeds exactly when every request converts. It fails only with `InvalidIdentifier`, never `RecordMissing`, and then calls nothing. |
| LoaderProperties.LoadBatchIgnoresFlag | module/VuFind/tests/unit-tests/src/VuFindTest/Record/LoaderTest.php:192-199 | The second argument of `loadBatch` changes neither the result nor the calls. |
| LoaderProperties.FillAt | module/VuFind/tests/unit-tests/src/VuFindTest/Record/LoaderTest.php:192-199 | Each output entry is its slot's record, or the factory's `Missing` placeholder for a gap. |
| LoaderProperties.LoadBatchSlot | module/VuFind/tests/unit-tests/src/VuFindTest/Record/LoaderTest.php:192-199 | The output has the length of the input. Entry i answers request i or is the placeholder. The backend's record wins over the fallback's, and an unanswered request gets the placeholder. |
| LoaderProperties.DispatchBackendCalls | module/VuFind/tests/unit-tests/src/VuFindTest/Record/LoaderTest.php:179-185 | The search-service calls for a list of groups are one `retrieveBatch` per group, in list order. |
| LoaderProperties.LoadBatchBackendCalls | module/VuFind/tests/unit-tests/src/VuFindTest/Record/LoaderTest.php:179-185 | `loadBatch` makes exactly one `retrieveBatch` per distinct source and never calls `retrieve`. Calls follow first-seen order, with ids in request order and that source's own parameters or none. |
| LoaderProperties.DispatchRegistryCalls | module/VuFind/tests/unit-tests/src/VuFindTest/Record/LoaderTest.php:289-313 | Registry calls concern only sources with missing ids. Every such source is asked when a registry exists, and the loader receives exactly the missing ids. |
| LoaderProperties.LoadBatchRegistryAndFactoryCalls | module/VuFind/tests/unit-tests/src/VuFindTest/Record/LoaderTest.php:289-313 | In `loadBatch`, `has` is asked only about sources with missing ids, and about all of them. When `has(s)` answers yes, `get(s)` and `load` of exactly the missing ids are made. The factory is called once per placeholder, always for `Missing`. |
| LoaderProperties.SourceRegistryLog | module/VuFind/tests/unit-tests/src/VuFindTest/Record/LoaderTest.php:289-313 | A group's registry calls are exactly the expected exchange for its missing ids, and it makes no registry call about another source. |
| LoaderProperties.DispatchRegistryLog | module/VuFind/tests/unit-tests/src/VuFindTest/Record/LoaderTest.php:289-313 | Over distinct sources, the registry calls about a source are the expected exchange for its missing ids: `has` once, then `get` and `load` once each only if `has` answers yes. Nothing is asked about a source with no missing ids or none in the list. |
| LoaderProperties.LoadBatchRegistryLog | module/VuFind/tests/unit-tests/src/VuFindTest/Record/LoaderTest.php:289-313 | For every source, the registry calls of `loadBatch` about it are exactly that exchange: once each of `has`, `get` and `load`, and `get`/`load` only when `has` answers yes. There are none for a source with no missing ids or outside the batch. |
| LoaderProperties.LoadBatchLoadsFromRegistry | module/VuFind/tests/unit-tests/src/VuFindTest/Record/LoaderTest.php:300-311 | When `has(s)` answers yes for a source with missing ids, `loadBatch` calls `get(s)` and `load` of exactly those ids. |
| LoaderProperties.LoadCallLog | module/VuFind/tests/unit-tests/src/VuFindTest/Record/LoaderTest.php:56-108 | The whole log of `load`: `retrieve`; when that finds nothing, the expected registry exchange for `[id]`; and when nothing is recovered and a miss is tolerated, one `get('Missing')`. |
| LoaderProperties.PlaceholderCallsShape | module/VuFind/tests/unit-tests/src/VuFindTest/Record/LoaderTest.php:173-176 | The slot-filling pass only calls the factory for `Missing`, once per gap. |
| LoaderScenarios.MissingRecordThrows | module/VuFind/tests/unit-tests/src/VuFindTest/Record/LoaderTest.php:56-67 | `load('test')` over an empty backend throws `RecordMissing("Record Solr:test does not exist.")` after one `retrieve('Solr','test')`. |
| LoaderScenarios.MissingRecordFromFallback | module/VuFind/tests/unit-tests/src/VuFindTest/Record/LoaderTest.php:75-86 | `load('test','Summon')` returns the fallback's driver. The calls are `retrieve`, then `has`, `get` and `load(['test'])` on Summon. |
| LoaderScenarios.ToleratedMissingRecord | module/VuFind/tests/unit-tests/src/VuFindTest/Record/LoaderTest.php:93-108 | `load('test','Solr',true)` returns the factory's `Missing` driver after one `retrieve` and one `get('Missing')`. |
| LoaderScenarios.SingleRecord | module/VuFind/tests/unit-tests/src/VuFindTest/Record/LoaderTest.php:115-125 | `load('test')` returns the retrieved driver after exactly one `retrieve('Solr','test')`. |
| LoaderScenarios.SingleRecordWithBackendParameters | module/VuFind/tests/unit-tests/src/VuFindTest/Record/LoaderTest.php:132-149 | The parameter bag reaches `retrieve` as its third argument. |
| LoaderScenarios.BatchInputLiteral | module/VuFind/tests/unit-tests/src/VuFindTest/Record/LoaderTest.php:188-191 | The modelled inputs of both batch tests are the tests' inputs, with the string keys spelled out. |
| LoaderScenarios.ParseRequests2 | module/VuFind/tests/unit-tests/src/VuFindTest/Record/LoaderTest.php:228-231 | The fallback batch's mixed map and string input converts to its three references. |
| LoaderScenarios.ParseRequests | module/VuFind/tests/unit-tests/src/VuFindTest/Record/LoaderTest.php:188-191 | The mixed map and string input converts to the four references. |
| LoaderScenarios.GroupSources2 | module/VuFind/tests/unit-tests/src/VuFindTest/Record/LoaderTest.php:219-224 | The fallback batch groups into its two sources in first-seen order. |
| LoaderScenarios.GroupSources | module/VuFind/tests/unit-tests/src/VuFindTest/Record/LoaderTest.php:179-185 | The batch groups into its three sources in first-seen order. |
| LoaderScenarios.GroupIds2 | module/VuFind/tests/unit-tests/src/VuFindTest/Record/LoaderTest.php:219-224 | In the fallback batch, each source's ids are in request order. |
| LoaderScenarios.GroupIds | module/VuFind/tests/unit-tests/src/VuFindTest/Record/LoaderTest.php:179-185 | Each source's ids are in request order. |
| LoaderScenarios.BatchLoadOver | module/VuFind/tests/unit-tests/src/VuFindTest/Record/LoaderTest.php:156-200 | The batch over any three distinct `|`-free source names gives the result and calls of testBatchLoad. |
| LoaderScenarios.BatchLoad | module/VuFind/tests/unit-tests/src/VuFindTest/Record/LoaderTest.php:156-200 | testBatchLoad returns `[driver1, driver2, driver3, missing]`. The calls are `retrieveBatch` for Solr `[test1,test2]` with the Solr bag, Summon `[test3]` with none and WorldCat `[test4]` with its bag, then one `get('Missing')`. |
| LoaderScenarios.BatchLoadWithFallbackOver | module/VuFind/tests/unit-tests/src/VuFindTest/Record/LoaderTest.php:207-240 | The three-request batch over any two distinct `|`-free source names gives the result and calls of testBatchLoadWithFallback. |
| LoaderScenarios.BatchLoadWithFallback | module/VuFind/tests/unit-tests/src/VuFindTest/Record/LoaderTest.php:207-240 | testBatchLoadWithFallback returns `[driver1, driver2, driver3]` with no placeholder. The calls are `retrieveBatch` for Solr and Summon, then `has`, `get` and `load(['test3'])` on Summon. |
| IlsApi.PreRequest | module/VuFind/src/VuFind/ILS/Driver/AbstractAPI.php:63-66 | The default request correction returns headers and parameters unchanged. |
| IlsApi.DebugLogsGetOnly | module/VuFind/src/VuFind/ILS/Driver/AbstractAPI.php:79-93 | A GET request's log entry holds exactly the parameters and headers sent. Any other method's entry holds empty parameters and headers. |
| IlsApi.PlacedParams | module/VuFind/src/VuFind/ILS/Driver/AbstractAPI.php:111-135 | The URL is the base URL followed by the path, with timeout 120 and the caller's method and headers. Parameters go to exactly one place (query for GET, raw body for a string, form otherwise) and read back unchanged. |
| IlsApi.StatusTable | module/VuFind/src/VuFind/ILS/Driver/AbstractAPI.php:136-148 | 400 → `BadRequest(body)`; 401 and 403 → `Forbidden(body)`; 404 → `RecordMissing(body)`; 500 → ILS error `"500: Internal Server Error"`. Every other status returns the response unchanged, in both directions. |
| IlsApi.ConfigGuard | module/VuFind/src/VuFind/ILS/Driver/AbstractAPI.php:160-167 | `setConfig` fails exactly when `API.base_url` is absent, and then with `BadConfig("API Driver configured without base url.")`. |
| IlsApi.HttpClient.constructor | module/VuFind/src/VuFind/ILS/Driver/AbstractAPI.php:111-115 | A new client holds the URL, method and timeout, with no headers or parameters yet. |
| IlsApi.HttpClient.AddHeaders | module/VuFind/src/VuFind/ILS/Driver/AbstractAPI.php:118-119 | Appends the extra headers and changes nothing else. |
| IlsApi.HttpClient.SetParameterGet | module/VuFind/src/VuFind/ILS/Driver/AbstractAPI.php:127-128 | Sets the query fields and changes nothing else. |
| IlsApi.HttpClient.SetContent | module/VuFind/src/VuFind/ILS/Driver/AbstractAPI.php:130-131 | Sets the raw body and changes nothing else. |
| IlsApi.HttpClient.SetParameterPost | module/VuFind/src/VuFind/ILS/Driver/AbstractAPI.php:132-133 | Sets the form fields and changes nothing else. |
| IlsApi.ApiDriver.DebugRequest | module/VuFind/src/VuFind/ILS/Driver/AbstractAPI.php:79-93 | Appends one entry, with parameters and headers for GET only. |
| IlsApi.ApiDriver.MakeRequest | module/VuFind/src/VuFind/ILS/Driver/AbstractAPI.php:105-149 | Sends `ExpectedRequest` for the configured base URL and classifies the response by `CheckResponse`. It logs one entry exactly when a logger is attached, and leaves the configuration alone. |
| IlsApi.ApiDriver.SetConfig | module/VuFind/src/VuFind/ILS/Driver/AbstractAPI.php:160-167 | Stores the configuration, then fails with `BadConfig` exactly when no base URL is configured. |

## Left out

- `Loader.php` is not part of this model. Its behaviour is taken from the unit tests only.
- A `"source|id"` string without `|`: the tests never show one. The model rejects it with `InvalidIdentifier`. A string with several `|` is split at the first one.
- The record cache: it is always absent in the tests.
- Exceptions thrown by the backends.
- De-duplication of requests, and a single-id shortcut in batch mode: the tests show neither.
- Record drivers are reduced to their unique id and source identifier. The placeholder is exactly what the factory returns; any data the loader might stamp onto it is left out.
- `ParamBag` is a map from names to value lists.
- The mocks of the search service return their collections call by call. The modelled services answer by source, which gives the same answers for the call order the tests expect.
- LoaderScenarios.BatchLoadOver: states the batch test over abstract source names. LoaderScenarios.BatchLoad instantiates it with `Solr`, `Summon` and `WorldCat`.
- The call log is one sequence across all collaborators. The tests check each collaborator's calls on their own; the model also fixes their interleaving.
- IlsApi.ApiDriver.MakeRequest: requires array parameters for GET, because the HTTP client's `setParameterGet` accepts only an array.
- A subclass's own `preRequest` is left out. The model uses the default, which changes nothing.
- The HTTP transport (`createClient`, `send`) is the function parameter `send`. A fresh client starts with no headers.
- The debug message text built with `print_r` is left out. A log entry keeps the method, path, parameters and headers.
- Whether a logger is attached is a boolean field.
- Configuration values are strings. PHP's `isset` also treats a present but `null` base URL as absent; null values are not modelled.
- The parent class's `setConfig` is not part of this model. It is taken to store the configuration.
- `monorepo-builder.php` is release configuration with no logic.
