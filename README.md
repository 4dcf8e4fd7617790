# Groundwater service core, modelled in Dafny

This project models the ingestion and lookup logic behind the groundwater
service's backend, and proves properties of that model. It covers five parts:

- **Ingestion run.** `fetchAndSaveGroundwaterData` pages through the station
  service 1000 features at a time. It builds an escaped where clause for the
  state and the optional district. Each feature becomes an upsert keyed on
  (stationId, date), and each page's upserts go out in one unordered bulk write.
- **PIN resolver.** `getPinCode` tries Redis first, then the process-local
  cache, then the postal lookup service. Only a six-digit PIN is written back.
- **PIN suggestions.** `getAllPincodesForPlace` lists the offices for a place,
  optionally filtered by district, and caches the list.
- **Request handling.** The query-parameter validator, the query built from
  the filters, and the shaping of both routes' responses.
- **Stored record.** The schema's constraints, read as a validity predicate,
  and the pre-save hook that trims location strings.

The layout is one module per source file or concept:

| file | module | what it holds |
|---|---|---|
| `wrappers.dfy` | `Wrappers` | `Option` |
| `text.dfy` | `Text` | `trim`, ASCII `toLowerCase`, `^\d{6}$`, `includes`, `join`, and the decimal rendering of a count |
| `records.dfy` | `Records` | the document type, `ValidRecord`, and the (stationId, date) and place keys |
| `groundwater_model.dfy` | `GroundwaterModel` | the document object and its pre-save hook; `TrimLocation` is its pure partner |
| `postal.dfy` | `Postal` | the postal service's reply, the office selection, and the PIN taken from it |
| `pin_resolver.dfy` | `PinResolver` | `Resolve`, which specifies `getPinCode`, and class `PinCaches`, which holds Redis and the local cache as maps |
| `store.dfy` | `Store` | the collection as a map from (stationId, date) to document, and the bulk upsert with and without the unique index |
| `ingest.dfy` | `Ingest` | the where clause, the normaliser, the page step `Step`, and the loop specification `Run`/`After` with the methods proved against them |
| `params.dfy` | `QueryParams` | `req.query` values: absent, string, array or object; their truthiness and their string coercion |
| `validate.dfy` | `Validate` | `validateQueryParams` |
| `pincode_service.dfy` | `PincodeService` | `Suggest`, which specifies `getAllPincodesForPlace`, and class `PinListCache` |
| `routes.dfy` | `Routes` | the query builder, the store's find/sort/limit, and both route handlers |

Stateful code is modelled as classes and methods. Each method is proved equal
to a pure specification function, and the properties are lemmas about those
functions:

- `PinCaches.GetPinCode` is proved against `Resolve`.
- `PinListCache.GetAllPincodesForPlace` is proved against `Suggest`.
- `Collection.BulkWrite` is proved against `Apply`, which is the unindexed
  writer for the collection the source configures and the indexed one when
  the unique index is in force.
- `NormalisePage` is proved against `NormaliseAll`.
- The pagination loop `IngestPages` is proved against `Run`.
- `GroundwaterDocument.PreSave` is proved against `TrimLocation`.

Everything outside the process is an input, named below:

| input | what it stands for |
|---|---|
| `upstream(where, offset)` | page replies of the station service |
| `lookup(place)` | replies of the postal service |
| `storeUp(offset)` | reachability of the store |
| `RedisHealth` | whether each Redis command succeeds |
| `clock(offset, i)` | the reading `new Date()` gives for the undated feature at index `i` of the page at `offset` |
| `parseDate`, `DateParser` | `new Date(text)` |

Where the code and the design description of the service differ, the model
follows the code:

- Lookup order is Redis first, then the local map.
- The where clause has no fallback variant.
- There is no retry, no backoff and no 5000-record cap.
- The resolver has no retry by district name.

## Model

| member | source | states |
|---|---|---|
| `PinResolver.RedisGet` | backend/src/services/fetchGroundwater.ts:11-20 | a Redis read yields a value only when the command succeeds and the `pin:`-prefixed key is present; a failed command is a miss |
| `PinResolver.RedisSet` | backend/src/services/fetchGroundwater.ts:22-29 | a successful write maps the `pin:` key to the PIN; a failed write changes nothing; the local cache is never touched |
| `PinResolver.BlankVillageSkipsEverything` | backend/src/services/fetchGroundwater.ts:33 | an absent or all-whitespace village gives no PIN and leaves both caches unchanged |
| `PinResolver.CacheKeyIgnoresPadding` | backend/src/services/fetchGroundwater.ts:35 | surrounding whitespace on the village, or on a district when one is given, does not change the cache key, blank values included |
| `PinResolver.CacheKeyIgnoresCase` | backend/src/services/fetchGroundwater.ts:35 | inputs equal after lowercasing share a cache key |
| `PinResolver.TierOrder` | backend/src/services/fetchGroundwater.ts:37-43 | a Redis hit answers the call with the caches unchanged; otherwise a local hit answers it; the lookup service is consulted exactly when both miss |
| `PinResolver.RedisFailureIsMiss` | backend/src/services/fetchGroundwater.ts:11-43 | a failed Redis read gives the same PIN, tier and local cache as a Redis miss |
| `PinResolver.WriteBackOnlyValid` | backend/src/services/fetchGroundwater.ts:59-65 | the caches change only on a lookup result; such a result is six digits; the local cache then maps the key to it, and Redis does too when its write succeeds; a failed lookup writes nothing |
| `PinResolver.FailedLookupChangesNothing` | backend/src/services/fetchGroundwater.ts:49-77 | a thrown call, a non-Success status or an empty office list leaves both caches as they were, and an answer from the lookup tier is then no PIN |
| `PinResolver.SecondResolutionIsCached` | backend/src/services/fetchGroundwater.ts:37-64 | after a successful lookup, resolving the same inputs again is served from a cache, whatever the lookup service would now say |
| `PinResolver.ResolveKeepsLocalValid` | backend/src/services/fetchGroundwater.ts:59-62 | if the local cache holds only six-digit PINs before a resolution, it does after |
| `PinResolver.PinCaches.GetCachedPin` | backend/src/services/fetchGroundwater.ts:11-20 | returns what `RedisGet` specifies, which is the stored value under `pin:` + key |
| `PinResolver.PinCaches.SetCachedPin` | backend/src/services/fetchGroundwater.ts:22-29 | the new cache state is the one `RedisSet` specifies |
| `PinResolver.PinCaches.GetPinCode` | backend/src/services/fetchGroundwater.ts:32-78 | the PIN, the tier used and the new state of both caches are those of `Resolve` |
| `Postal.Offices` | backend/src/services/fetchGroundwater.ts:49-50 | an accessor for the `PostOffice` list of a successful reply; its contract only restates that such a list is non-empty |
| `Postal.FirstMatch` | backend/src/services/fetchGroundwater.ts:53-55 | `find` yields the first office whose district equals the given one ignoring case, and none only when no office matches |
| `Postal.SelectOffice` | backend/src/services/fetchGroundwater.ts:50-57 | the chosen office is the first one, unless a district is given and some office's district equals it ignoring case; then it is the first such office |
| `Postal.PinFromReply` | backend/src/services/fetchGroundwater.ts:49-60 | a PIN is returned exactly when the reply succeeded and the selected office's Pincode is six digits, and then it is that Pincode |
| `Postal.DistrictOverridesFirst` | backend/src/services/fetchGroundwater.ts:50-57 | with a district given, the PIN comes from the first matching office, whatever offices come before it |
| `Ingest.ReadLiteral` | backend/src/services/fetchGroundwater.ts:93 | the SQL-92 reading of a quoted literal the where clause is written for: `''` is one quote, a lone quote closes, every other character stands for itself; a literal that closes has consumed at least its closing quote |
| `Ingest.EscapeQuotesApostrophe` | backend/src/services/fetchGroundwater.ts:93 | with the escaping as written, the state `a'b` is escaped as `a\'b`, and the clause's literal reads back as the state `a\` with `b'` left after it |
| `Ingest.ReadPlain` | backend/src/services/fetchGroundwater.ts:93 | a character other than a quote at the front of a literal stands for itself |
| `Ingest.EscapesOfQuoteFree` | backend/src/services/fetchGroundwater.ts:93 | neither escaping changes a value without a quote |
| `Ingest.EscapeQuotesRoundTrip` | backend/src/services/fetchGroundwater.ts:93 | the escaping as written reads back exactly for values without a quote, backslashes included |
| `Ingest.EscapeLiteralRoundTrip` | backend/src/services/fetchGroundwater.ts:93 | with quotes doubled, every value reads back exactly and the reader resumes right after its closing quote |
| `Ingest.LiteralAfterPrefix` | backend/src/services/fetchGroundwater.ts:93 | a doubled-quote literal after any prefix is read back exactly from the end of the prefix |
| `Ingest.TailsResume` | backend/src/services/fetchGroundwater.ts:93 | both forms of the district condition are empty or start with a space, so the reader resumes at them |
| `Ingest.WhereClauseAsWrittenNamesState` | backend/src/services/fetchGroundwater.ts:93 | the clause the source builds starts `state_name='`, and for a state without a quote its literal reads back as exactly that state, followed by the district condition |
| `Ingest.WhereClauseAsWrittenNamesDistrict` | backend/src/services/fetchGroundwater.ts:93 | for a given district without a quote, the source's condition after the state is ` AND district_name='` and a literal reading back as exactly that district |
| `Ingest.WhereClauseNamesState` | backend/src/services/fetchGroundwater.ts:93 | the corrected clause starts `state_name='` and its literal reads back as exactly the given state, whatever it contains, followed by the district condition |
| `Ingest.WhereClauseNamesDistrict` | backend/src/services/fetchGroundwater.ts:93 | when a district is given, the corrected condition after the state is ` AND district_name='` and a literal reading back as exactly that district |
| `Ingest.WhereClausesAgree` | backend/src/services/fetchGroundwater.ts:93 | for a state and district without quotes, the clause the source builds is the corrected clause |
| `Ingest.TrimOpt` | backend/src/services/fetchGroundwater.ts:121-124 | `s?.trim()` keeps an absent field absent and trims a present one |
| `Ingest.FirstTruthy` | backend/src/services/fetchGroundwater.ts:116 | `a \|\| b \|\| null`: the first non-empty of the two, else none |
| `Ingest.TrimOptTruthy` | backend/src/services/fetchGroundwater.ts:121 | a trimmed state is truthy exactly when the original is present and not blank, which is exactly when it passes the schema's required-string check |
| `Ingest.TrimOptEdgeTrimmed` | backend/src/services/fetchGroundwater.ts:121-124 | a trimmed location string has no leading or trailing whitespace |
| `Ingest.BuildOpDrops` | backend/src/services/fetchGroundwater.ts:138-140 | a feature yields no upsert exactly when its state is absent or blank, or both water-level fields are absent |
| `Ingest.BuildOpKey` | backend/src/services/fetchGroundwater.ts:142-151 | a kept feature's upsert filters on (`station_code \|\| id \|\| null`, measurement date or the clock reading taken for that feature), sets a document carrying that key and the resolved PIN, with source WRIS |
| `Ingest.UndatedReadingsKeyedByClock` | backend/src/services/fetchGroundwater.ts:131-144 | two undated readings of one station get the same upsert filter exactly when their clock readings are equal, so readings taken at different moments are stored as separate documents |
| `Ingest.BuildOpValidity` | backend/src/services/fetchGroundwater.ts:119-136 | a built document's coordinates form a two-element point, and the document satisfies every schema constraint exactly when the upstream trend is absent or one of Rising, Falling, Stable |
| `Ingest.BuiltLocationAlreadyTrimmed` | backend/src/services/fetchGroundwater.ts:120-126 | with a six-digit or absent PIN, the pre-save hook leaves a built location unchanged |
| `Ingest.NormaliseAllShape` | backend/src/services/fetchGroundwater.ts:111-155 | a page yields exactly one upsert per kept feature, each keyed on its own (stationId, date); the local cache keeps holding only six-digit PINs |
| `Ingest.NormalisePage` | backend/src/services/fetchGroundwater.ts:111-155 | the upserts and the new cache state are those of `NormaliseAll`, which resolves one feature after another |
| `Ingest.StepContinues` | backend/src/services/fetchGroundwater.ts:163-164 | the loop goes on only after a fetched page of a full 1000 features |
| `Ingest.StepStops` | backend/src/services/fetchGroundwater.ts:101-173 | the loop stops exactly on a failed fetch, an empty or short page, or a page with upserts whose store is unreachable or, only under the unique index, whose upserts collide |
| `Ingest.StepAgreesWithoutCollision` | backend/src/services/fetchGroundwater.ts:157-161 | a page none of whose upserts collides on a place key has the same effect with and without the unique index |
| `Ingest.StepSavedCount` | backend/src/services/fetchGroundwater.ts:157-160 | a page adds at most one saved document per kept feature; on the collection the source configures, a page written to a reachable store adds exactly one per kept feature, unchanged documents included |
| `Ingest.RunPages` | backend/src/services/fetchGroundwater.ts:86-174 | a run requests the pages at offsets `offset`, `offset + 1000`, …; every page before the last was full; the total only grows |
| `Ingest.RunKeeps` | backend/src/services/fetchGroundwater.ts:90-174 | an invariant that every page keeps holds when the run ends |
| `Ingest.NoFullPageStops` | backend/src/services/fetchGroundwater.ts:90-173 | a loop that goes on only past full pages leaves by its own exits before any offset from which no page is full |
| `Ingest.OutageStopsAtOnce` | backend/src/services/fetchGroundwater.ts:162-172 | a station service that fails or answers a short page at the first request ends the run after that one request, with that pass's state and count, whatever the bound |
| `Ingest.DrainedServiceEnds` | backend/src/services/fetchGroundwater.ts:90-173 | a station service with no full page from some offset on ends every run before that offset |
| `Ingest.StepKeepsHealthy` | backend/src/services/fetchGroundwater.ts:157-161 | a page keeps the collection filed by (stationId, date) and the local cache holding only six-digit PINs, and under the unique index keeps no two documents sharing a place key |
| `Ingest.IngestionRun` | backend/src/services/fetchGroundwater.ts:86-174 | a whole ingestion run, with or without the unique index, requests offsets 0, 1000, 2000, …, goes on only past full pages, and keeps the collection and caches as `StepKeepsHealthy` says |
| `Ingest.SavePage` | backend/src/services/fetchGroundwater.ts:111-161 | saving a non-empty page leaves the collection and caches `Step` specifies for the collection's writer and returns its saved count; the loop stops after the page exactly when the write failed or the page was short; a failed write saves nothing |
| `Ingest.IngestPage` | backend/src/services/fetchGroundwater.ts:91-173 | one pass of the loop follows `Run`: a pass that ends the loop ends in the final result, and one that goes on continues at the next offset, which is below the bound when the run leaves by its own exits |
| `Ingest.IngestPages` | backend/src/services/fetchGroundwater.ts:86-174 | for any station service and store on which the loop leaves by its own exits, the collection, the caches and `totalSaved` after the loop are those of `Run` from offset 0 |
| `Ingest.FetchAndSaveGroundwaterData` | backend/src/services/fetchGroundwater.ts:81-174 | the whole call ends in the state and total `Run` gives for the collection's writer and the where clause the source builds for the state and district |
| `Store.Upsert` | backend/src/services/fetchGroundwater.ts:142-151 | an upsert sets the document under its filter; it counts as inserted when the key was new, and otherwise as modified, because the timestamps always change `updatedAt` |
| `Store.OutcomeOf` | backend/src/services/fetchGroundwater.ts:158-159 | the bulk call fails exactly when some operation was rejected |
| `Store.UnindexedIsOverlay` | backend/src/services/fetchGroundwater.ts:158 | without the unique index, a batch leaves the old documents overlaid with the last document each key is set to |
| `Store.UnindexedIdempotent` | backend/src/services/fetchGroundwater.ts:142-151 | re-running the same upserts leaves the collection as after one run |
| `Store.UnindexedCounts` | backend/src/services/fetchGroundwater.ts:158-159 | without the index nothing is rejected, each operation is counted exactly once as modified or inserted, the upserted count is exactly how many documents the collection gained, and no document is lost |
| `Store.IndexedCounts` | backend/src/services/fetchGroundwater.ts:158-159 | each operation is counted exactly once as modified, inserted or rejected; the upserted count is exactly how many documents the collection gained; no document is lost |
| `Store.IndexedWithoutRejectionIsUnindexed` | backend/src/types/index.ts:176-185 | when no operation collides on a place key, the indexed write is the unindexed write |
| `Store.UpsertKeepsKeyed` | backend/src/services/fetchGroundwater.ts:144-148 | an upsert whose document carries its filter's key keeps every document under its own (stationId, date) |
| `Store.IndexedKeepsKeyed` | backend/src/services/fetchGroundwater.ts:157-159 | under the unique index, a batch of such upserts keeps every document under its own (stationId, date) |
| `Store.UnindexedKeepsKeyed` | backend/src/services/fetchGroundwater.ts:157-159 | without the index, a batch of such upserts keeps every document under its own (stationId, date) |
| `Store.ApplyKeepsShape` | backend/src/services/fetchGroundwater.ts:157-159 | either writer keeps every document under its own (stationId, date); the indexed writer also keeps place keys unique |
| `Store.UpsertKeepsUnique` | backend/src/types/index.ts:176-185 | an upsert the index lets through keeps place keys unique |
| `Store.IndexedKeepsUnique` | backend/src/types/index.ts:176-185 | with the unique index in force, no two stored documents share (state, district, village, pinCode, date) after any batch |
| `Store.UnindexedAllowsDuplicatePlaces` | backend/src/models/Groundwater.ts:29-36 | without the index, two upserts for different stations with the same place and date leave two documents sharing a place key; with it, exactly one of the two is rejected |
| `Store.Collection.BulkWrite` | backend/src/services/fetchGroundwater.ts:158 | an unreachable store throws and changes nothing; otherwise the collection and the answer are those of the batch under the collection's writer, unindexed for the collection the source configures |
| `GroundwaterModel.TrimField` | backend/src/models/Groundwater.ts:40 | a present non-empty field is trimmed; an absent or empty one is left as it is |
| `GroundwaterModel.TrimLocation` | backend/src/models/Groundwater.ts:39-45 | the hook touches only state, district, block, village and pinCode; stationId and coordinates are unchanged |
| `GroundwaterModel.TrimFieldTrims` | backend/src/models/Groundwater.ts:40-44 | after the hook a field has no leading or trailing whitespace |
| `GroundwaterModel.TrimLocationTrims` | backend/src/models/Groundwater.ts:39-45 | after the hook, no location string field has leading or trailing whitespace |
| `GroundwaterModel.TrimFieldIdempotent` | backend/src/models/Groundwater.ts:40-44 | trimming a field twice gives the same result as once |
| `GroundwaterModel.TrimLocationIdempotent` | backend/src/models/Groundwater.ts:39-45 | running the hook twice gives the same location as running it once |
| `GroundwaterModel.TrimFieldKeepsTrimmed` | backend/src/models/Groundwater.ts:40-44 | a field already without edge whitespace is left unchanged |
| `GroundwaterModel.TrimLocationKeepsTrimmed` | backend/src/models/Groundwater.ts:39-45 | a location already without edge whitespace is left unchanged |
| `GroundwaterModel.GroundwaterDocument.PreSave` | backend/src/models/Groundwater.ts:39-45 | the hook replaces the location by its trimmed form and changes no other field of the document |
| `QueryParams.AsString` | backend/src/middleware/validate.ts:22 | a string coerces to itself and a one-element array to its element |
| `Validate.ValidateQueryParams` | backend/src/middleware/validate.ts:5-41 | every rejection has status 400; accepting means the state is a string of at least two non-blank characters and the district and village are strings when present |
| `Validate.FirstFailure` | backend/src/middleware/validate.ts:9-41 | the first failing check's message, and none exactly when no check fails |
| `Validate.ValidateIsFirstFailure` | backend/src/middleware/validate.ts:9-41 | the middleware reports the first failing check of state, district, village, pinCode, fromDate, toDate, in that order, and calls `next()` exactly when none fails |
| `Validate.StateRequired` | backend/src/middleware/validate.ts:9-11 | an absent, non-string or shorter-than-two trimmed state is refused with "Valid state name is required" |
| `Validate.PinChecked` | backend/src/middleware/validate.ts:22-24 | past the string checks, a present PIN that is not exactly six digits is refused before the dates are looked at |
| `Validate.RepeatedPinPasses` | backend/src/middleware/validate.ts:22-24 | a PIN sent in bracket form arrives as a one-element array and passes, because the test coerces it to its only element |
| `Validate.JoinHasComma` | backend/src/middleware/validate.ts:22 | an array of two or more items coerces to text with a comma right after the first item |
| `Validate.AcceptedShape` | backend/src/middleware/validate.ts:9-24 | once the middleware passes a query, the state is a string, the district and village are strings or falsy, the PIN is never an object, and an array PIN holds exactly one six-digit item |
| `Validate.DuplicatedPinRejected` | backend/src/middleware/validate.ts:22-24 | a PIN given twice arrives as a two-element array, coerces to `682001,682001` and is refused with the PIN message |
| `PincodeService.Surviving` | backend/src/services/pincodeService.ts:36-40 | the district filter keeps exactly the offices whose lowercased district contains the lowercased district, and keeps them all when no district is given |
| `PincodeService.SurvivingAppend` | backend/src/services/pincodeService.ts:36-40 | the filter distributes over concatenation, so it keeps the offices' order |
| `PincodeService.Suggestions` | backend/src/services/pincodeService.ts:42-46 | one suggestion per office |
| `PincodeService.PinListCache.GetAllPincodesForPlace` | backend/src/services/pincodeService.ts:14-55 | the list and the new cache are those of `Suggest` |
| `PincodeService.BlankPlaceIsEmpty` | backend/src/services/pincodeService.ts:18 | a blank place name gives `[]` with the cache untouched, whatever the service would answer |
| `PincodeService.CachedIgnoresLookup` | backend/src/services/pincodeService.ts:21-22 | a cached key is answered with the cached list, independent of the service |
| `PincodeService.FailureWritesNothing` | backend/src/services/pincodeService.ts:24-54 | a thrown call, a non-Success status or an empty office list gives `[]` and writes no entry |
| `PincodeService.FreshAnswer` | backend/src/services/pincodeService.ts:33-48 | a fresh answer lists the surviving offices in order as (Pincode, Name, District), one each; with a district, each suggestion's district contains it ignoring case; the list is cached under the key, even when empty |
| `PincodeService.SecondCallCached` | backend/src/services/pincodeService.ts:20-48 | after a call that hit or succeeded, the same call again returns the same list and leaves the cache alone, without the service |
| `PincodeService.KeyNotTrimmed` | backend/src/services/pincodeService.ts:20-25 | the key is lowercased but not trimmed: `Kakinada ` and `Kakinada` share a request but not a key |
| `PincodeService.KeysCollide` | backend/src/services/pincodeService.ts:20 | the key does not separate place from district: place `a_b` without district and place `a` with district `b_` share a key |
| `Routes.BuildQuery` | backend/src/routes/groundwater.ts:22-34 | the query always has the state; district, village and PIN appear exactly when given and equal them; `date` is absent without bounds, and otherwise has `$gte` exactly when fromDate is given and `$lte` exactly when toDate is, each the parsed bound |
| `Routes.FieldMatches` | backend/src/types/index.ts:103-107 | a location condition as the store casts it through a `trim` path: a string value matches the field holding its trimmed form, and an array value matches a field holding the trimmed form of any of its items |
| `Routes.Matches` | backend/src/routes/groundwater.ts:36 | a document matches the query when every field condition holds and its date lies within the date condition, if any |
| `Routes.Selected` | backend/src/routes/groundwater.ts:22-36 | the documents the parameters ask for, stated on the parameters rather than on the built query |
| `Routes.PaddedValueMatches` | backend/src/types/index.ts:103-107 | whitespace around a string value does not change which fields it matches |
| `Routes.PaddedStateSelectsTheSame` | backend/src/routes/groundwater.ts:22-36 | a state padded with whitespace selects the same documents as the bare state |
| `Routes.ListValueMatches` | backend/src/types/index.ts:107 | an array value, which the store reads as `$in`, matches a field holding the trimmed form of any one of its items |
| `Routes.BracketPinSelected` | backend/src/routes/groundwater.ts:22-36 | the bracket-form PIN `pinCode[]=682001`, which the middleware lets through, selects the documents stored with that PIN in the given state |
| `Routes.MatchesBuilt` | backend/src/routes/groundwater.ts:22-36 | the built query matches exactly the documents that the parameters describe |
| `Routes.MatchingRows` | backend/src/routes/groundwater.ts:36 | the store finds no more rows than it holds documents, and it finds every document the query matches |
| `Routes.MatchingRowsSound` | backend/src/routes/groundwater.ts:36-37 | every row the store finds is the projection of a stored document the query matches |
| `Routes.FindFromMatches` | backend/src/routes/groundwater.ts:36-40 | every row of the sorted, limited answer is the projection of a stored document the query matches |
| `Routes.Insert` | backend/src/routes/groundwater.ts:38 | inserting a row adds exactly that row |
| `Routes.InsertSorted` | backend/src/routes/groundwater.ts:38 | inserting a row into a newest-first list keeps it newest first |
| `Routes.SortByDateDesc` | backend/src/routes/groundwater.ts:38 | the sort is a permutation, newest first, with undated documents last |
| `Routes.Find` | backend/src/routes/groundwater.ts:36-40 | the store answers at most 200 rows, newest first |
| `Routes.FindIsNewest` | backend/src/routes/groundwater.ts:36-40 | the answer is all matches when there are at most 200, and otherwise 200 of them, none older than a match left out |
| `Routes.PrefixIsNewest` | backend/src/routes/groundwater.ts:38-39 | the first `n` rows of a newest-first sequence are part of it, and none is older than a row left out |
| `Routes.FoundRowSelected` | backend/src/routes/groundwater.ts:22-40 | every row found shows a document of the collection that the parameters select |
| `Routes.SelectedRowFound` | backend/src/routes/groundwater.ts:22-40 | when at most 200 documents match, every document the parameters select is in the answer |
| `Routes.Enumerates` | backend/src/routes/groundwater.ts:36 | the sequence the route reads lists exactly the documents the ingestion run stored in its (stationId, date) map |
| `Routes.FoundRowStored` | backend/src/routes/groundwater.ts:22-40 | every row found shows a document stored under some (stationId, date) that the parameters select |
| `Routes.StoredSelectedFound` | backend/src/routes/groundwater.ts:22-40 | when at most 200 documents match, every stored document the parameters select is listed |
| `Routes.GroundwaterRoute` | backend/src/routes/groundwater.ts:11-52 | a refused query answers 400 with the validator's message; a failing store answers 500; otherwise the listing is exactly the store's answer to the query built from the parameters, with values cast as `FieldMatches` says: at most 200 selected rows newest first, `total` equal to their number, and the message chosen by whether there are any |
| `Routes.CountMessage` | backend/src/routes/groundwater.ts:69 | `${n} PIN code(s) found` for a non-empty list, and the no-result message exactly when it is empty |
| `Routes.SuggestRoute` | backend/src/routes/groundwater.ts:56-75 | a missing, empty or non-string place is refused with 400 before any lookup; a blank place gets no PINs and the no-result message, whatever the district; otherwise an array or object district is answered with 500, and a missing or string one gets the service's list and cache update, with a message counting the list |

## Left out

- Network calls are oracles, and their timeouts are not modelled. The station-service request, the postal-service request and `encodeURIComponent` are all inputs; the postal oracle is indexed by the trimmed name.
- The Redis client, its connection and its reconnect strategy are not modelled. Each command's success is an input; one `RedisHealth` holds for every resolution of an ingestion run.
- TTLs are not modelled because they are time-driven. This covers the 24-hour expiry on Redis and both `NodeCache`s, and the `checkperiod`. Cache entries never expire in the model.
- The `Promise.all` fan-out over a page's features is modelled as a sequential pass in feature order. Concurrent resolutions could interleave their reads and writes of the caches differently.
- `new Date()` for an undated feature is the input `clock(offset, i)`: each feature reads the clock on its own, so the reading depends on the page offset and the feature's index. Which moments the clock returns is not modelled; two readings may be equal or differ. `new Date(text)` is the input `parseDate`. Date validity in the validator is the abstract predicate `DateParser.valid`.
- Coordinates, water levels and availability are floats; they are opaque `real` values and never computed with.
- Some store behaviour is not modelled: `$set` dropping `undefined` fields, the stored `createdAt` and `updatedAt` values, update validators and the schema's setters on update. An upsert sets exactly the document the normaliser built. The timestamps' effect on the counts is modelled: every matched upsert counts as modified.
- The order in which an unordered bulk write performs its operations is not modelled. The model applies them in sequence, and a rejected one does not stop the others.
- The collection queried by `GET /groundwater` is a sequence of documents in natural order, connected to the map the ingestion run writes by `Routes.Enumerates`. Mongo leaves the order of equal dates unspecified; the model's insertion sort keeps equal dates in natural order. `_id` is left out of the projected rows.
- Object values in a query are not modelled: Mongo would read them as query operators. `Validate.AcceptedShape` shows none passes the middleware.
- Nested arrays in a query are not modelled: an array value holds strings only. Under `qs`, `pinCode[0][0]=682001` arrives as `[['682001']]`, which the PIN test coerces to `682001` and passes, and the store would then meet an array inside `$in`. `Validate.AcceptedShape` says nothing about such input.
- The body the error middleware sends for a refused query is not modelled: it is Express glue. The route model returns the refusal's status and message.
- Ingest.FetchAndSaveGroundwaterData: requires that the loop leave by one of its own exits before some offset. The exits are a failed fetch, an empty or short page, or a failed write, and `OutageStopsAtOnce` and `DrainedServiceEnds` give such services. On a service whose pages stay full and whose writes keep succeeding, the source's `while (true)` never ends, and the model does not cover that case. `Ingest.IngestPages` requires the same.
- Logging calls are not modelled: they do not affect the result.
- Authentication, the user model, the error and logger middleware, app and server wiring, the daily cron, configuration, the seed script and the placeholder ML service are not part of this model.
- The station service's `where` parser is not part of this model. `ReadLiteral` stands for it and reads a quoted literal as SQL-92 does: a doubled quote is one quote, and a backslash is an ordinary character.
- Ingest.WhereClauseAsWrittenNamesState: holds only for a state without a quote, because with a quote the clause the source builds names another state (see Findings).
- Ingest.WhereClauseAsWrittenNamesDistrict: holds only for a district without a quote, for the same reason.
- Lengths are counted in Unicode characters. JavaScript's `state.trim().length` counts UTF-16 code units, so a state made of one character outside the Basic Multilingual Plane is 2 long in the source and 1 in the model.
- The lowercasing is ASCII-only. `toLowerCase` on non-ASCII letters is not modelled, and `trim` removes exactly the ECMAScript whitespace and line-terminator characters.

## Findings

| source | as written | input that shows it | evidently intended | confidence | as-written member | corrected member |
|---|---|---|---|---|---|---|
| backend/src/models/Groundwater.ts:29-36 | the model is built from a new `Schema(GroundwaterSchemaDefinition)`, so the compound unique index declared on `GroundwaterSchema` (backend/src/types/index.ts:176-185) never reaches the collection | two upserts for stations `S1` and `S2` with the same state, no district, village or PIN, and the same date | "prevent duplicate records": no two documents share (state, district, village, pinCode, date); a colliding upsert fails and the bulk call reports the error | medium, not executed | `Store.UnindexedAllowsDuplicatePlaces` | `Store.IndexedKeepsUnique` |
| backend/src/services/fetchGroundwater.ts:93 | a quote in a name is escaped with a backslash, which an SQL-92 literal does not recognise, so the quote closes the literal early | state `a'b` gives `state_name='a\'b'`, which names the state `a\` and leaves `b'` opening a literal that never closes | the value is read back intact: double each quote | low, not executed (depends on the station service reading literals as SQL-92 does) | `Ingest.EscapeQuotesApostrophe` | `Ingest.EscapeLiteralRoundTrip` |

The ingestion loop is modelled as the source runs it: `FetchAndSaveGroundwaterData`
fetches with `WhereClauseAsWritten` and writes through the collection's
writer, and the collection the source configures is unindexed. The same loop
over an indexed collection is the corrected program: `IngestionRun` proves it
keeps place keys unique. `StepAgreesWithoutCollision` shows that both agree on
every page whose upserts do not collide, and `WhereClausesAgree` shows that
both clauses agree on names without quotes.
