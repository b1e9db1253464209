# GCApi core, modelled in Dafny

GCApi is a Swift SDK for the Geocaching REST API (version 1.0). This project
models the sequential logic at its centre:

- **The query builder** (`GCQueryBuilder`). It holds a scheme, a host, a
  versioned path and an ordered list of query items. Every operation edits
  that list in place through one upsert, `addFragment`: drop every item with
  the name, then append the new item. The structured `q` filter grows by
  `+key:value` clauses. The spatial filters replace `q` wholesale. Field
  lists are comma joins of raw enumeration values. `add(logs:trackables:)`
  and `expandAttributes` rewrite an existing `fields` item, and
  `add(skip:take:)` sets only positive paging values. The model is the class
  `QueryBuilder.GCQueryBuilder` over a `seq<QueryItem>`. Each method is
  proved against the function `Upsert` (or `WithLogsTrackables` /
  `WithSkipTake`) and keeps the invariant that no two items share a name.
  Separate lemmas prove what an upsert means: the key reads as the new
  value, every other name reads as before, the new item is last and the
  other items keep their order.
- **The request and response pipeline of `GCApi`**:
  - the environment parameters;
  - the `+` → `%2B` escape of `createUrl`;
  - request assembly with the bearer token;
  - the encoder's error tagging;
  - the two-format date decoding and its single encoding format;
  - the HTTP status classification in `getData`'s completion handler;
  - the outcome rules of `parseResponse`;
  - the authorization state: an in-memory session plus one persisted slot in
    the settings store. It is a class (`GCApi.AuthStore`) whose methods are
    proved against step functions on the pair of slots.
- **Forward-compatible enumeration decoding and the request compositions.**
  - `GCGeocacheType` and `GeocacheLogType` decode an integer they do not
    declare to `Unknown` instead of failing.
  - `getCache`, `getCaches`, both `searchCaches` variants, `getCacheLogs` and
    `createGeocacheLog` drive the builder in a fixed order. Each is a method
    that runs the builder model and returns the path and the item list; the
    network call that follows is left out. Read as a dictionary, the list
    holds exactly the parameters listed for that request.

Modules: `Wrappers` (Option, Result), `Text` (decimal rendering, fixed-width
digits, join, split, replace), `QueryBuilder`, `ApiDates`, `GCApi`,
`Geocache`, `Logs`.

## Model

| member | source | states |
|---|---|---|
| Text.NatToStringDigits | Sources/GCApi/GCQueryBuilder.swift:131-138 | An integer's decimal text is a non-empty run of digits with no leading zero |
| Text.IntToStringShape | Sources/GCApi/GCQueryBuilder.swift:140-151 | An integer's text is non-empty and holds neither a comma nor a plus sign, so it cannot break a field list or a `q` clause |
| Text.IntToStringParses | Sources/GCApi/GCQueryBuilder.swift:144-145 | Every 64-bit integer written as its `description` reads back as the same value |
| Text.PadDigitsValue | Sources/GCApi/GCApi.swift:55-56 | A fixed-width digit field holds exactly the number it was written from |
| Text.DigitsValuePad | Sources/GCApi/GCApi.swift:55-56 | Any digit field is what padding its own value to its width writes |
| Text.SplitJoin | Sources/GCApi/GCQueryBuilder.swift:150 | Splitting a comma join gives back the parts when no part holds a comma |
| Text.ReplaceAllAbsent | Sources/GCApi/GCQueryBuilder.swift:65 | Replacing a pattern that never occurs leaves the text unchanged |
| Text.ReplaceCharRemoves | Sources/GCApi/GCApi.swift:313 | Replacing a character by text without it removes every occurrence |
| Text.ReplaceCharAbsent | Sources/GCApi/GCApi.swift:313 | Replacing a character that does not occur is the identity |
| QueryBuilder.WithoutRemoves | Sources/GCApi/GCQueryBuilder.swift:22-24 | After `removeAll(where:)` no item carries the removed name, and the list did not grow |
| QueryBuilder.WithoutSubset | Sources/GCApi/GCQueryBuilder.swift:22-24 | Every item kept by the removal comes from the input |
| QueryBuilder.LookupFinds | Sources/GCApi/GCQueryBuilder.swift:153-158 | `getParameter` returns nothing exactly when no item has the name, and otherwise returns the value of the first item with it |
| QueryBuilder.RemoveAllNamed | Sources/GCApi/GCQueryBuilder.swift:22-24 | The removal loop keeps exactly the items of other names, in order |
| QueryBuilder.UpsertPlacesLast | Sources/GCApi/GCQueryBuilder.swift:21-26 | After `addFragment(k, v)` the item `(k, v)` is last and no other item is named `k` |
| QueryBuilder.UpsertLookup | Sources/GCApi/GCQueryBuilder.swift:21-26 | After `addFragment(k, v)`, `k` reads as `v` and every other name reads as before |
| QueryBuilder.UpsertKeepsOthers | Sources/GCApi/GCQueryBuilder.swift:21-26 | The items of other names keep their values and relative order |
| QueryBuilder.UpsertAbsent | Sources/GCApi/GCQueryBuilder.swift:21-26 | Adding a name the list does not hold appends one item |
| QueryBuilder.UpsertReplacesLast | Sources/GCApi/GCQueryBuilder.swift:21-26 | Re-setting the name of the last item replaces it where it stands |
| QueryBuilder.UpsertLastWins | Sources/GCApi/GCQueryBuilder.swift:21-26 | Setting a name twice equals setting it once to the later value |
| QueryBuilder.UpsertKeepsUnique | Sources/GCApi/GCQueryBuilder.swift:21-26 | `addFragment` never creates two items with the same name |
| QueryBuilder.WithoutKeepsUnique | Sources/GCApi/GCQueryBuilder.swift:22-24 | Removing items keeps the names unique |
| QueryBuilder.EmptyReadsAs | Sources/GCApi/GCQueryBuilder.swift:18 | A new builder's list reads as the empty dictionary |
| QueryBuilder.UpsertReadsAs | Sources/GCApi/GCQueryBuilder.swift:21-26 | Read as a dictionary, `addFragment` is a dictionary update |
| QueryBuilder.LookupAppend | Sources/GCApi/GCQueryBuilder.swift:153-158 | Looking a name up in two joined lists finds it in the first one if it is there |
| QueryBuilder.LookupWithout | Sources/GCApi/GCQueryBuilder.swift:22-24 | Removing one name does not change what another name reads as |
| QueryBuilder.WithoutAppend | Sources/GCApi/GCQueryBuilder.swift:22-24 | Removal acts on each part of a joined list separately |
| QueryBuilder.WithoutAbsent | Sources/GCApi/GCQueryBuilder.swift:22-24 | Removing a name no item carries leaves the list unchanged |
| QueryBuilder.FieldNamesRoundTrip | Sources/GCApi/GCQueryBuilder.swift:140-151 | A field list of comma-free names, split at its commas, gives back the names in order |
| QueryBuilder.FieldArray | Sources/GCApi/GCQueryBuilder.swift:140-151 | An empty input gives `""`; a single value gives its own text |
| QueryBuilder.FieldArraySplits | Sources/GCApi/GCQueryBuilder.swift:140-151 | The field list is the comma join of the raw values in input order: splitting it at commas gives them back |
| QueryBuilder.FieldArrayIntegers | Sources/GCApi/GCQueryBuilder.swift:144-150 | A list of integer raw values splits into one decimal text per value, each reading back as that value |
| QueryBuilder.Fixed6Shape | Sources/GCApi/GCQueryBuilder.swift:169 | `%.6f` writes exactly six digits after the point and never a comma |
| QueryBuilder.Fixed6Value | Sources/GCApi/GCQueryBuilder.swift:169 | The sign, whole degrees and six decimals of `%.6f` give back the coordinate in micro-degrees |
| QueryBuilder.ExpandEntries | Sources/GCApi/GCQueryBuilder.swift:115-124 | There is one `expand` entry for each positive count |
| QueryBuilder.LogsTrackablesLookup | Sources/GCApi/GCQueryBuilder.swift:110-129 | Without `fields` nothing changes. Otherwise `fields` gains the sub-selection of each positive count, logs first, and `expand` lists the matching entries when a count is positive. Every other name reads as before |
| QueryBuilder.SkipTakeLookup | Sources/GCApi/GCQueryBuilder.swift:131-138 | `skip` and `take` are set only when positive; every other name, and a non-positive one, reads as before |
| QueryBuilder.GCQueryBuilder.constructor | Sources/GCApi/GCQueryBuilder.swift:14-19 | A new builder has scheme `https`, the configured host, path `/v1.0/` + base path and no query items |
| QueryBuilder.GCQueryBuilder.AddFragment | Sources/GCApi/GCQueryBuilder.swift:21-26 | The list becomes the upsert of the old one, keeps unique names, and the items of other names are unchanged |
| QueryBuilder.GCQueryBuilder.AddQueryFragment | Sources/GCApi/GCQueryBuilder.swift:28-37 | `q` becomes its old value (or `""`) followed by `+key:value`; with no earlier `q` it starts with `+` |
| QueryBuilder.GCQueryBuilder.AddBoundingBox | Sources/GCApi/GCQueryBuilder.swift:39-41 | `q` is replaced wholesale by `box:[[lat,lon],[lat,lon]]` |
| QueryBuilder.GCQueryBuilder.AddCenterRadius | Sources/GCApi/GCQueryBuilder.swift:43-45 | `q` is replaced wholesale by `location:[lat,lon]+radius:Nmi` |
| QueryBuilder.GCQueryBuilder.AddBox | Sources/GCApi/GCQueryBuilder.swift:47-49 | `q` is replaced wholesale by the same `box:` filter |
| QueryBuilder.GCQueryBuilder.AddType | Sources/GCApi/GCQueryBuilder.swift:51-53 | `type` is set to the field list of the raw values |
| QueryBuilder.GCQueryBuilder.AddTypes | Sources/GCApi/GCQueryBuilder.swift:55-57 | `types` is set to the field list of the raw values |
| QueryBuilder.GCQueryBuilder.ExpandAttributes | Sources/GCApi/GCQueryBuilder.swift:59-67 | Without `fields` the list is unchanged. Otherwise every `attributes` in `fields` becomes `attributes[<list>]` |
| QueryBuilder.GCQueryBuilder.AddIsLite | Sources/GCApi/GCQueryBuilder.swift:69-71 | `lite` is set to `true` or `false` |
| QueryBuilder.GCQueryBuilder.AddTrackableGetType | Sources/GCApi/GCQueryBuilder.swift:73-75 | `type` is set to the decimal raw value |
| QueryBuilder.GCQueryBuilder.AddFields | Sources/GCApi/GCQueryBuilder.swift:77-79 | `fields` is set to the field list |
| QueryBuilder.GCQueryBuilder.AddExcludeFound | Sources/GCApi/GCQueryBuilder.swift:81-83 | `q` gains the clause `+fby:not(user)` |
| QueryBuilder.GCQueryBuilder.AddTerrain | Sources/GCApi/GCQueryBuilder.swift:85-87 | `q` gains the clause `+terr:from-to` |
| QueryBuilder.GCQueryBuilder.AddDifficulty | Sources/GCApi/GCQueryBuilder.swift:89-91 | `q` gains the clause `+diff:from-to` |
| QueryBuilder.GCQueryBuilder.AddSizes | Sources/GCApi/GCQueryBuilder.swift:93-95 | `q` gains the clause `+size:` and the size list |
| QueryBuilder.GCQueryBuilder.AddFavourite | Sources/GCApi/GCQueryBuilder.swift:97-99 | `q` gains the clause `+minFav:N` |
| QueryBuilder.GCQueryBuilder.AddRefCodes | Sources/GCApi/GCQueryBuilder.swift:101-103 | `referenceCodes` is set to the comma join of the codes |
| QueryBuilder.GCQueryBuilder.AddUserNames | Sources/GCApi/GCQueryBuilder.swift:105-107 | `usernames` is set to the comma join of the names |
| QueryBuilder.GCQueryBuilder.AddLogsTrackables | Sources/GCApi/GCQueryBuilder.swift:110-129 | The list becomes `WithLogsTrackables` of the old list, whose meaning `LogsTrackablesLookup` states; names stay unique |
| QueryBuilder.GCQueryBuilder.AddSkipTake | Sources/GCApi/GCQueryBuilder.swift:131-138 | The list becomes `WithSkipTake` of the old list, whose meaning `SkipTakeLookup` states; names stay unique |
| ApiDates.FormatDate | Sources/GCApi/GCApi.swift:317-326 | The encoder writes every date as 23 characters |
| ApiDates.ParseMillisFormat | Sources/GCApi/GCApi.swift:345-346 | A string the first formatter accepts has 23 characters and representable fields |
| ApiDates.ParseSecondsFormat | Sources/GCApi/GCApi.swift:347-348 | A string the legacy formatter accepts has 19 characters and no milliseconds |
| ApiDates.DecodeDate | Sources/GCApi/GCApi.swift:341-351 | Decoding succeeds exactly when one of the two formats matches. The value is the millisecond formatter's when it matches and the legacy formatter's otherwise, and a failure names the string |
| ApiDates.FormatShape | Sources/GCApi/GCApi.swift:320-323 | The encoded text has the `yyyy-MM-dd'T'HH:mm:ss.SSS` shape, with each field padded to its width |
| ApiDates.DecodeFormatted | Sources/GCApi/GCApi.swift:317-351 | Decoding reads back every date the encoder writes |
| ApiDates.FormatParsed | Sources/GCApi/GCApi.swift:336-346 | A string the millisecond format accepts is exactly what the encoder writes for the date read |
| ApiDates.LegacyFormSameInstant | Sources/GCApi/GCApi.swift:345-348 | The legacy form of a date without milliseconds decodes to the same date as its full form |
| ApiDates.MidnightExample | Sources/GCApi/GCApi.swift:335-339 | `2000-06-17T00:00:00.000` and `2000-06-17T00:00:00` both decode to 17 June 2000, midnight |
| ApiDates.DateOnlyFails | Sources/GCApi/GCApi.swift:350 | A date with no time of day matches neither format and fails |
| GCApi.ApiParamsForType | Sources/GCApi/GCApi.swift:60-82 | Each environment gets its fixed host and endpoints and its plist keys, each defaulting to `""`; without a plist every field is `""` |
| GCApi.CreateUrl | Sources/GCApi/GCApi.swift:311-315 | The escaped URL contains no `+` |
| GCApi.CreateUrlIdempotent | Sources/GCApi/GCApi.swift:311-315 | Escaping twice is escaping once |
| GCApi.CreateUrlKeepsPlusFree | Sources/GCApi/GCApi.swift:311-315 | A URL without `+` passes through unchanged |
| GCApi.RequestHeaders | Sources/GCApi/GCApi.swift:252 | A request carries exactly the four fixed headers, with `bearer` + token as the authorization |
| GCApi.Encode | Sources/GCApi/GCApi.swift:317-330 | The encoder's data is returned as is, and its failure is reported as `decodeError` |
| GCApi.BuildRequest | Sources/GCApi/GCApi.swift:228-252 | Without a token the call fails with `missingToken`. A payload that is not a string is encoded into the body, and its failure is delivered. A request carries the URL, the method's raw value and the fixed headers |
| GCApi.ParseResponse | Sources/GCApi/GCApi.swift:357-389 | With data: the raw bytes for `Data`, else the decoded value or `parsingError`. Without data: `networkError` if there is an error, and nothing at all with neither |
| GCApi.RetryAfterAsWritten | Sources/GCApi/GCApi.swift:277-284 | The 429 hint is the header's value only when it is an `Int`, and 60 otherwise |
| GCApi.RetryAfter | Sources/GCApi/GCApi.swift:277-284 | The 429 hint is the header's integer value, also when it arrives as decimal text; it is 60 when the header is absent or does not parse |
| GCApi.RetryAfterIgnoresTextHeader | Sources/GCApi/GCApi.swift:279-282 | As written, a text header `120` yields 60; the corrected reading yields 120 |
| GCApi.RetryAfterReadsText | Sources/GCApi/GCApi.swift:279-282 | The corrected reading returns any 64-bit value written as header text |
| GCApi.HandleResponseWith | Sources/GCApi/GCApi.swift:257-301 | For a given reading of the retry hint, each outcome holds exactly when its status holds: 204 gives the `true` placeholder (checked before 2xx); 401, 403 and 404 map to their errors; 429 gives `tooManyRequests` with the hint read from the headers; any other non-2xx status gives `unmappedHttpError` with the decoded body or the `999` substitute; no HTTP response gives `noResponse`; other 2xx statuses go to `parseResponse` |
| GCApi.HandleResponse | Sources/GCApi/GCApi.swift:277-284 | The handler as written: a 429 carries the header's value only when it is an `Int`, so an absent or textual header gives 60; every other status is answered as the corrected handler answers it |
| GCApi.HandleResponseCorrected | Sources/GCApi/GCApi.swift:279-282 | The intended handler: a 429 carries the retry hint read also from header text |
| GCApi.TextRateLimitResponse | Sources/GCApi/GCApi.swift:279-282 | A 429 with the header text `120` is answered `tooManyRequests(nextCall: 60)` as written and 120 as intended, whatever the body |
| GCApi.Stored | Sources/GCApi/GCApi.swift:408-420 | The store yields a session exactly when the key holds an archived session |
| GCApi.SaveStep | Sources/GCApi/GCApi.swift:391-406 | The store now yields the in-memory state; when there is none the key is removed; no other key changes |
| GCApi.LoadStep | Sources/GCApi/GCApi.swift:408-428 | It reports true exactly when the store holds a session, adopts it then, and otherwise changes nothing |
| GCApi.LogoutStep | Sources/GCApi/GCApi.swift:202-206 | Memory and store both lose the state; no other key changes |
| GCApi.IsAuthorizedStep | Sources/GCApi/GCApi.swift:155-160 | It loads only when memory is empty, and answers with the loaded state's flag |
| GCApi.DidChangeStep | Sources/GCApi/GCApi.swift:436-444 | An authorized state replaces the current one and is saved; any other state is ignored; no key but the session's changes |
| GCApi.LogoutIdempotent | Sources/GCApi/GCApi.swift:202-206 | Logging out twice is logging out once, and nothing is authorized afterwards |
| GCApi.SaveThenLoad | Sources/GCApi/GCApi.swift:391-428 | What `saveState` writes, `loadState` reads back |
| GCApi.DidChangeSurvivesRestart | Sources/GCApi/GCApi.swift:436-444 | A state accepted by `didChange` is found authorized by a new process |
| GCApi.AuthStore.constructor | Sources/GCApi/GCApi.swift:408-409 | A process starts with nothing in memory and the store as it was left |
| GCApi.AuthStore.SaveState | Sources/GCApi/GCApi.swift:391-406 | The new slots are `SaveStep` of the old ones |
| GCApi.AuthStore.LoadState | Sources/GCApi/GCApi.swift:408-428 | The new slots and the result are `LoadStep` of the old ones |
| GCApi.AuthStore.Logout | Sources/GCApi/GCApi.swift:202-206 | The new slots are `LogoutStep` of the old ones |
| GCApi.AuthStore.IsAuthorized | Sources/GCApi/GCApi.swift:155-160 | The new slots and the result are `IsAuthorizedStep` of the old ones |
| GCApi.AuthStore.DidChange | Sources/GCApi/GCApi.swift:436-444 | The new slots are `DidChangeStep` of the old ones |
| GCApi.AuthStore.Authorize | Sources/GCApi/GCApi.swift:169-200 | Without a view controller nothing happens. Without configuration the result is `configurationMissing`. A stored session is loaded and the flow is not started. Otherwise a granted state is kept and saved, and a denial clears memory and is reported as `networkError` |
| GCApi.AuthStore.StartCall | Sources/GCApi/GCApi.swift:208-226 | `getData` loads when memory is empty and launches authorization exactly when the state is not authorized. Either way it goes on to build the escaped URL, or fails with `badURL` |
| Geocache.GeocacheTypeFromRaw | Sources/GCApi/GCGeogache.swift:132-152 | `GCGeocacheType(rawValue:)` returns the case with that raw value, and nothing only when no case has it |
| Geocache.DecodeGeocacheType | Sources/GCApi/GCGeogache.swift:154-158 | Decoding fails exactly when the value is not an `Int`. A declared raw value gives its case and any other integer gives `Unknown` |
| Geocache.DecodeGeocacheTypeRoundTrip | Sources/GCApi/GCGeogache.swift:132-158 | Every case decodes from its own raw value |
| Geocache.NewGeocacheTypeIsUnknown | Sources/GCApi/GCGeogache.swift:157 | A code the client does not know decodes to `Unknown` |
| Geocache.TypeListRoundTrip | Sources/GCApi/GCGeogache.swift:340 | The `type` list splits into one decimal code per requested type, in order, and each code decodes back to its type |
| Geocache.SizeListRoundTrip | Sources/GCApi/GCQueryBuilder.swift:93-95 | The `size` clause's list splits into one decimal code per requested size, in order |
| Geocache.SizeRawInjective | Sources/GCApi/GCGeogache.swift:265-273 | No two cache sizes share a raw value |
| Geocache.ClauseLookup | Sources/GCApi/GCGeogache.swift:361-376 | A guarded clause extends `q` by exactly that clause when its input is given; every other name reads as before |
| Geocache.ClauseStep | Sources/GCApi/GCGeogache.swift:361-376 | A guarded clause appends exactly its own text to the current filter |
| Geocache.RadiusChain | Sources/GCApi/GCGeogache.swift:335-341 | After the radius search's sequence of builder calls, each of its seven names reads as its last write, and `expand` is present only with a positive count |
| Geocache.BoxFilterChain | Sources/GCApi/GCGeogache.swift:355-376 | After the box filter, `lite`, the optional `type` and the guarded clauses, `q` is the box filter followed by every clause switched on, in the order `fby`, `terr`, `diff`, `size`, `minFav` |
| Geocache.BoxTail | Sources/GCApi/GCGeogache.swift:377-379 | The field list, the expansion and the paging after the filter set their names and leave every other name as the filter left it |
| Geocache.ExpandAfter | Sources/GCApi/GCGeogache.swift:302-303 | Setting `fields` before `add(logs:trackables:)` means the expansion always finds `fields`; the two items end the list |
| Geocache.GetCacheItemsExact | Sources/GCApi/GCGeogache.swift:299-303 | `getCache` lists `lite=false`, the completed field list and, with a positive count, `expand` |
| Geocache.GetCachesItemsExact | Sources/GCApi/GCGeogache.swift:316-321 | `getCaches` lists the reference codes, `lite`, the completed field list and, with a positive count, `expand` |
| Geocache.RadiusSearchLookup | Sources/GCApi/GCGeogache.swift:334-341 | The radius search's list reads as exactly its seven parameters |
| Geocache.BoxSearchLookup | Sources/GCApi/GCGeogache.swift:354-379 | The box search's list reads as exactly its parameters, including the composed `q` filter |
| Geocache.BoxSearchDefaultPaging | Sources/GCApi/GCGeogache.swift:354-379 | With the box defaults (`skip` 0, `take` 50) the query has `take=50` and no `skip` |
| Geocache.RadiusSearchDefaultPaging | Sources/GCApi/GCGeogache.swift:334-339 | With the radius defaults (`skip` 0, `take` 0) the query has no paging |
| Geocache.GetCacheQuery | Sources/GCApi/GCGeogache.swift:299-303 | `getCache` builds path `/v1.0/geocaches/<code>` and exactly the items of `GetCacheItemsExact` |
| Geocache.GetCachesQuery | Sources/GCApi/GCGeogache.swift:316-321 | `getCaches` builds path `/v1.0/geocaches` and exactly the items of `GetCachesItemsExact` |
| Geocache.SearchRadiusQuery | Sources/GCApi/GCGeogache.swift:334-341 | The radius search builds path `/v1.0/geocaches/search/` and a list of unique names reading as its seven parameters |
| Geocache.AddSearchClauses | Sources/GCApi/GCGeogache.swift:361-376 | Each clause is appended to `q` only when its inputs are given: both ends for `terr` and `diff`, a positive minimum for `minFav` |
| Geocache.SearchBoxQuery | Sources/GCApi/GCGeogache.swift:354-379 | The box search builds path `/v1.0/geocaches/search/` and a list of unique names reading as its parameters, with `type` present only when a type list is given |
| Logs.LogTypeFromRaw | Sources/GCApi/GCLogs.swift:29-50 | `GeocacheLogType(rawValue:)` returns the case with that raw value, and nothing only when no case has it |
| Logs.DecodeLogType | Sources/GCApi/GCLogs.swift:52-56 | Decoding fails exactly when the value is not an `Int`. A declared raw value gives its case and any other integer gives `Unknown` |
| Logs.LogTypeRawInjective | Sources/GCApi/GCLogs.swift:29-50 | No two cases share a raw value |
| Logs.DecodeLogTypeRoundTrip | Sources/GCApi/GCLogs.swift:29-56 | Every case decodes from its own raw value |
| Logs.UndeclaredLogTypeIsUnknown | Sources/GCApi/GCLogs.swift:50-55 | An undeclared integer decodes to `Unknown`, raw 999, instead of failing |
| Logs.ReviewerNotesDistinct | Sources/GCApi/GCLogs.swift:47-48 | Codes 18 and 68 decode to two different cases |
| Logs.NewLogTypeModel | Sources/GCApi/GCLogs.swift:60-66 | A new log type carries the given id and no name or image |
| Logs.GeocacheLogModel.constructor | Sources/GCApi/GCLogs.swift:70-92 | A new log sets the date, text, type, coordinates and cache code, and leaves every server-side field unset |
| Logs.CacheLogsItemsExact | Sources/GCApi/GCLogs.swift:129-131 | Paging on a new builder followed by the field list gives the positive paging items, then `fields` |
| Logs.GetCacheLogsQuery | Sources/GCApi/GCLogs.swift:128-131 | `getCacheLogs` builds path `/v1.0/geocaches/<code>/geocachelogs/` and the paging items before `fields` |
| Logs.DefaultLogPaging | Sources/GCApi/GCLogs.swift:128-131 | With the default paging the list is `take=50` then `fields`, with no `skip` |
| Logs.CreateLogQuery | Sources/GCApi/GCLogs.swift:113-115 | `createGeocacheLog` builds path `/v1.0/geocachelogs` with only the field list |

## Left out

- Network dispatch through `URLSession`, the data task and its `resume`, and delivery on the main queue are left out; they are asynchronous. The model returns the outcome the completion handler would be called with.
- `cancelRequests` and the `onGoingDatatasks` hash table are left out: they only cancel concurrent tasks.
- `returnSuccessValuesInMainThread` only chooses the thread a success is delivered on, so it is left out.
- The AppAuth library (`OIDAuthState`, `performAction(freshTokens:)`, `OIDServiceConfiguration`, `OIDAuthorizationRequest`) is foreign code. A session is an opaque value with an `isAuthorized` flag. The flow's result, the token and the presence of a view controller and a configuration are parameters.
- `NSKeyedArchiver` and `NSKeyedUnarchiver` are left out: a stored blob is either an archived session or foreign data.
- GCApi.HandleResponseWith: a 204 answers the `true` placeholder for every result type. The source's forced cast `true as! T` (GCApi.swift:260) traps when the caller's type is not `Bool`, as for the user-waypoint and note requests. The model has no dynamic type test on the type parameter, so the trap is not modelled.
- GCApi.Stored: `ForeignData` stands for an archive of another class, which reads as no session. A stored value that is not a keyed archive at all makes the forced `try!` unarchive of `loadState` (GCApi.swift:416) crash; that crash is not modelled.
- `UserDefaults` is a map from key to blob, and setting `nil` removes the key; `synchronize` is left out.
- GCApi.AuthStore.StartCall: models the decision at the start of `getData`, not the retry callback that calls `getData` again after authorization succeeds.
- GCApi.AuthStore.Authorize: the case without a view controller stops on a debug assertion in the source; the model takes the release-build path, which delivers nothing.
- The generic `JSONEncoder` / `JSONDecoder` machinery is foreign code. Serialisation and decoding are function parameters; only the date strategy and the error tagging are modelled.
- ApiDates.FormatDate: requires every field to fit its width. `yyyy` writes a year of 10000 or later with five digits, and the model does not cover those dates.
- ApiDates.DecodeDate: reads only the fixed-width shape of the two formats, not `DateFormatter`'s calendar validation, time zone or locale.
- `URLComponents.string` rendering and percent-encoding are left out, and so is `URL(string:)`. `createUrl` takes the rendered string, and whether it parses is a parameter of `StartCall`.
- QueryBuilder.Fixed6: coordinates are integer micro-degrees instead of `Double`, so the rounding of `%.6f` is not modelled.
- QueryBuilder.FieldArray: a raw value is a string or an integer; `createFieldArray`'s third branch, which gives `""` for any other raw type, has no input in this model because every enumeration the SDK passes is backed by `String` or `Int`.
- QueryBuilder.GCQueryBuilder.ExpandAttributes: without `fields` the source stops on a debug assertion; the model takes the release-build path, which changes nothing. `add(logs:trackables:)` is modelled the same way.
- The host comes from `GCApi.shared().baseUrl`. It is a constructor parameter, because the shared instance and the plist loading (`gcapiPlist`) are left out.
- Logs.GeocacheLogModel.constructor: the owner `UserModel` is reduced to its reference code, and `CoordinatesModel` to micro-degrees.
- The resource wrappers outside geocaches and logs (lists, users, trackables, trackable logs, waypoints, friends), the user-waypoint, note and type-list requests in GCGeogache.swift, and the DTO classes are not part of this model. They only assemble a builder and forward to `getData`.
- `resolveViewController` (UIKit) and `print` logging are left out.

## Findings

| source | as written | input that shows it | evidently intended | confidence | as-written member | corrected member |
|---|---|---|---|---|---|---|
| Sources/GCApi/GCApi.swift:279-282 | The retry hint of a 429 response is the `x-rate-limit-reset` header only if its value is an `Int` (`as? Int`). `HTTPURLResponse.allHeaderFields` holds header values as strings, so this never matches | A 429 response with header `x-rate-limit-reset: 120` gives `tooManyRequests(nextCall: 60)` | The header's number of seconds, parsed from its text, with 60 only when it is absent or unreadable | medium, not executed | GCApi.RetryAfterAsWritten, GCApi.RetryAfterIgnoresTextHeader, GCApi.HandleResponse, GCApi.TextRateLimitResponse | GCApi.RetryAfter, GCApi.RetryAfterReadsText, GCApi.HandleResponseCorrected |
