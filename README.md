# userfeed-clubhouse-sync, modelled in Dafny

The system keeps two trackers in step: a Clubhouse project board and the scraped
Userfeed feedback board. A MongoDB collection of story records is the identity
cache between the two. This project models the core of that sync:

- **The configuration tables** (`config.dfy`, module `Config`). They map
  Clubhouse columns to workflow-state ids and columns to Userfeed statuses, and
  list the statuses that are pushed. The module proves the table shape that the
  column-id inversion and the status decision rely on.
- **The cache** (`local_db.dfy`, module `LocalDb`). The collection is a sequence
  of documents in natural order.
  - On values: `findOne` (the first match), the `findStories` filter, the
    `findOneAndUpdate` upsert with `$set` merge semantics, and the seed mark.
  - Class `LocalDbUpdater` holds the collection and its connection state. Its
    methods are proved against those functions.
- **The story records** (`records.dfy`, module `Records`). A story is the
  in-memory object the pushers mutate in place (class `StoryRecord`) and the
  document the collection stores (datatype `Doc`).
- **Clubhouse creation** (`clubhouse_pusher.dfy`, module `ClubhousePusher`): the
  description and payload, and the in-place update of a record on success.
  `createStories` keeps one result per input, and a failure leaves an
  `undefined` slot.
- **The Userfeed side** (`userfeed_pusher.dfy`, module `UserfeedPusher`):
  - normalising feed rows into records (the bug/feature rule, the URL prefix);
  - the page fetch that records `trueUrl` and yields the form token;
  - the status put and the link-comment post;
  - `Promise.all` over the link batch.
- **The app flows** (`app.dfy`, module `App`):
  - the inverted `idToColumns` table;
  - `processClubHouseChange`, the inbound status decision;
  - the startup catch-up, which replays a synthetic event per tracked story;
  - the outbound pipeline (load, upsert, findStories(false), create, link,
    upsert);
  - the startup sequence (connect, seed only when empty, pipeline, catch-up);
  - the webhook accept rule.

  Each flow is a function over the collection and the remotes' answers. Class
  `SyncApp` runs it on the objects and is proved to compute that function.

The remote services are parameters:

- the Clubhouse API is a function from a create request to an optional response;
- story pages are a function from a redirect URL to an optional (resolved URL,
  CSRF token) pair;
- Userfeed form posts are a predicate on requests (accepted or not);
- the feed is an optional list of rows whose HTML fields are already extracted.

A promise that rejects is `Rejected`. One that never settles is `Pending`: a
rejection nothing handles, or a callback that never resolves its promise.

The model follows the code where it differs from the system's design
description:

- **A failed create leaves an `undefined` slot.** The record is not dropped.
  Linking that slot throws, so the whole link batch rejects and the final upsert
  of the run is skipped. This covers the stories created successfully in the
  same run (`FailedCreateSkipsFinalUpsert`).
- **The link batch is a plain `Promise.all`.** One rejection rejects the batch,
  and one failed page fetch leaves it unsettled.
- **A feed row that cannot be parsed rejects the whole load.** It is not
  dropped.
- **An event for an untracked story dereferences a null story.** This is a
  TypeError inside the promise, with no request and no write (`Untracked`).
- **An event without `actions[0]` throws synchronously,** so the webhook route
  answers 500.
- **`findStories(true)` also filters on pushable status.** The catch-up
  therefore never replays `complete` stories.
- **The catch-up is a `forEach`.** A tracked story without Clubhouse data throws
  and stops it.
- **The payload's `external_id` is read from the record's top-level `id`,**
  which records never have, so it is always left out.
- **The webhook HMAC is computed over the re-serialised event,** not the raw
  body.
- **A failed seed load leaves startup stalled.** There is no first sync and no
  polling.

## Model

| member | source | states |
|---|---|---|
| Config.ColumnIdsDistinct | config.js:22-30 | the seven configured columns have pairwise distinct ids and names |
| Config.StatusMappingTotal | config.js:22-40 | `statusMapping` has an entry for exactly the columns of `columnToIds` |
| Config.StatusMappingValues | config.js:32-40 | every column maps to planned, in_progress or complete; only `deployed` maps to complete; grooming, ready_for_development and paused map to planned |
| Config.PushableStatuses | config.js:44 | the pushable statuses are exactly planned and in_progress, so complete is never pushed |
| Records.FromDocs | localDbUpdater.js:83-86 | a query result becomes fresh, pairwise distinct objects that serialise to the documents, in order |
| LocalDb.FirstIndex | localDbUpdater.js:64 | `findOne` in natural order: the index of the first matching document, none exactly when no document matches |
| LocalDb.FindStoryIn | localDbUpdater.js:61-69 | `findOne({clubhouseId})`: the first stored document with that Clubhouse id, or none (its properties: `LocalDb.FindStoryInSpec`) |
| LocalDb.Merge | localDbUpdater.js:97-103 | `$set` of a record on the matched document: each field the record has replaces the stored one, an absent Clubhouse field keeps the stored value |
| LocalDb.UpsertOne | localDbUpdater.js:97-103 | `findOneAndUpdate` with `upsert: true`: merge into the first document with the record's `userfeedId`, or append the record (its properties: `LocalDb.UpsertOneSpec`) |
| LocalDb.UpsertAll | localDbUpdater.js:91-107 | updateAndCreateStoriesLocal on values: one upsert per record, in list order |
| LocalDb.Select | localDbUpdater.js:75-88 | a document is returned exactly when it is stored and passes the filter (`clubhouseId` present as asked and not 0, status pushable) |
| LocalDb.FindStoryInSpec | localDbUpdater.js:61-69 | findStory returns a stored document with the requested `clubhouseId`, and nothing exactly when no document has it |
| LocalDb.SelectExcludesSeededAndUnpushable | localDbUpdater.js:79-82 | neither findStories call returns a seeded record (id 0) or an unpushable status; `false` returns untracked records, `true` tracked ones |
| LocalDb.SlotSpec | localDbUpdater.js:97-98 | the upsert matches a document exactly when the `userfeedId` is stored, and it matches the only one when ids are unique |
| LocalDb.UpsertOneSpec | localDbUpdater.js:97-103 | an upsert of a stored id creates no document and one of a new id appends the record; the id set gains the record's id; `$set` merges into the matched document; documents with other ids are untouched |
| LocalDb.UpsertOneKeepsUnique | localDbUpdater.js:97-103 | an upsert keeps the collection free of duplicate `userfeedId`s |
| LocalDb.UpsertOneIdempotent | localDbUpdater.js:97-103 | repeating the same upsert leaves the collection unchanged |
| LocalDb.UpsertAllKeepsUnique | localDbUpdater.js:91-107 | a batch upsert keeps `userfeedId`s unique |
| LocalDb.UpsertAllIds | localDbUpdater.js:91-107 | after a batch upsert the stored ids are the old ones plus the records' ids, and a batch of stored ids creates no document |
| LocalDb.UpsertAllKeepsClubhouseFields | localDbUpdater.js:96-104 | records without Clubhouse fields (a feed refresh) leave every stored `clubhouseId` and `clubhouseData` as it was |
| LocalDb.UpsertAllRecords | localDbUpdater.js:91-107 | a batch of records with distinct ids that all carry Clubhouse fields leaves each record's Clubhouse id and data stored under its `userfeedId` |
| LocalDb.SelectKeepsUnique | localDbUpdater.js:75-88 | findStories over a duplicate-free collection returns no two documents with the same `userfeedId` |
| LocalDb.SeedKeepsUnique | localDbUpdater.js:42-53 | seeding distinct new records into a duplicate-free collection keeps it duplicate-free |
| LocalDb.MarkSeeded | localDbUpdater.js:45-47 | the marking loop sets `clubhouseId` to 0 on every record and changes no other field |
| LocalDb.MarkAll | localDbUpdater.js:45-47 | the records' documents become their seed marks |
| LocalDb.LocalDbUpdater.constructor | localDbUpdater.js:5-14 | a new updater keeps the pushable statuses and has no client and no collection |
| LocalDb.LocalDbUpdater.InitDbConnection | localDbUpdater.js:17-31 | a client is always created; the collection is set only when the connection succeeds |
| LocalDb.LocalDbUpdater.CloseDbConnection | localDbUpdater.js:34-39 | without a client it throws and changes nothing; otherwise client and collection are cleared |
| LocalDb.LocalDbUpdater.SeedDb | localDbUpdater.js:42-53 | every record is marked with id 0 in place, and the marked records are appended to the collection |
| LocalDb.LocalDbUpdater.StoryCount | localDbUpdater.js:56-58 | the count is the number of stored documents |
| LocalDb.LocalDbUpdater.FindStory | localDbUpdater.js:61-69 | null exactly when no document has the id; otherwise a fresh object for the first such document |
| LocalDb.LocalDbUpdater.FindStories | localDbUpdater.js:75-88 | fresh distinct objects for exactly the filtered documents, in natural order |
| LocalDb.LocalDbUpdater.UpdateAndCreateStoriesLocal | localDbUpdater.js:91-107 | the collection is the records upserted one by one, in list order, and the input list is returned |
| ClubhousePusher.BuildDescription | clubHousePusher.js:21-23 | the description is the Userfeed description, the link label, then the redirect URL |
| ClubhousePusher.BuildPayload | clubHousePusher.js:32-38 | the create payload: name, description with the Userfeed link, no external id, project 4, type feature (its properties: `ClubhousePusher.PayloadContents`) |
| ClubhousePusher.CreateResult | clubHousePusher.js:26-54 | createStory on values: the record with the response's id and data when the API answers, `undefined` otherwise (its properties: `ClubhousePusher.CreateResultSpec`) |
| ClubhousePusher.CreateResults | clubHousePusher.js:9-18 | one result per input, in input order, each the result of createStory on that input |
| ClubhousePusher.PayloadContents | clubHousePusher.js:32-38 | the payload's name is the title; its description starts with the description and ends with the link; it is always a feature of project 4 with no external id |
| ClubhousePusher.PayloadDependsOnlyOnText | clubHousePusher.js:32-38 | two records that agree on title, description and link get the same payload, whatever their type |
| ClubhousePusher.CreateResultSpec | clubHousePusher.js:46-53 | a create succeeds exactly when the API answers; it then sets `clubhouseId` to the response id and `clubhouseData` to the response and changes nothing else; a failure changes nothing |
| ClubhousePusher.AfterCreateKeepsPayload | clubHousePusher.js:32-48 | a create changes only the Clubhouse fields, so the record still yields the payload that was sent |
| ClubhousePusher.ClubHousePusher.constructor | clubHousePusher.js:4-6 | the pusher keeps its API token |
| ClubhousePusher.ClubHousePusher.CreateStory | clubHousePusher.js:26-54 | sends the token and the payload of the record; on success it updates the same object's two Clubhouse fields and returns it; on failure it leaves the object untouched and returns `undefined` |
| ClubhousePusher.ClubHousePusher.CreateStories | clubHousePusher.js:9-18 | one slot per input in order: the same object when created, `undefined` otherwise; every object ends as its create leaves it |
| ClubhousePusher.ClubHousePusher.CreateEach | clubHousePusher.js:11-15 | createStory on each input in turn; an object that appears twice sees both updates |
| ClubhousePusher.ClubHousePusher.CreateSlot | clubHousePusher.js:12-14 | createStory on one slot moves the processed prefix on by one |
| UserfeedPusher.ParseAll | userfeedPusher.js:11-19 | the load succeeds exactly when every row parses; it then holds one record per row, in row order |
| UserfeedPusher.ParseData | userfeedPusher.js:22-43 | parseData on an extracted row: the record, or none where extraction throws (its properties: `UserfeedPusher.ParseDataSpec`, `UserfeedPusher.KindRule`) |
| UserfeedPusher.ContainsOccurrence | userfeedPusher.js:37 | `includes` holds exactly when the substring occurs at some index |
| UserfeedPusher.ParseDataSpec | userfeedPusher.js:22-43 | `userfeedId` and `userfeedData.id` are the row id; status, title and description are copied; the record has no Clubhouse fields; the link is the Userfeed origin plus the href; parsing fails exactly when the type span, title or description cannot be read |
| UserfeedPusher.KindRule | userfeedPusher.js:24-37 | the type is bug exactly when the type text contains "Bug", and feature otherwise, including for a span without children |
| UserfeedPusher.WithHeaderSpec | userfeedPusher.js:48-49 | setting a header on the copy sets exactly that header and keeps every stored header |
| UserfeedPusher.CommentBodySpec | userfeedPusher.js:127-133 | the comment body carries the encoded token after the field name, and the encoded Clubhouse URL as link target and as link text |
| UserfeedPusher.CommentRequestSpec | userfeedPusher.js:118-140 | a comment exists exactly when the story has Clubhouse data; it is posted to the resolved URL plus `/comments` with the body above and the accept and content-type headers, and keeps every other header |
| UserfeedPusher.StatusRequestSpec | userfeedPusher.js:160-175 | the put goes to the resolved URL plus `/set_status?status=` plus the new status, with the encoded token in the body and the accept header set |
| UserfeedPusher.StatusUpdate | userfeedPusher.js:153-195 | updateStatus on values: fetch the page, put the new status, and the story, outcome and request that result (its properties: `UserfeedPusher.StatusUpdateSpec`) |
| UserfeedPusher.StatusUpdateSpec | userfeedPusher.js:153-195 | only `trueUrl` and `status` can change; the update resolves exactly when the page fetch and the put succeed, and then sets the status and the resolved URL; a failed fetch never settles and changes nothing |
| UserfeedPusher.LinkAllAt | userfeedPusher.js:106-112 | slot k of the link batch is the link step of input k |
| UserfeedPusher.LinkOne | userfeedPusher.js:106-150 | one slot of linkStoriesToClubHouse: token fetch then comment post, with an undefined slot rejecting (its properties: `UserfeedPusher.LinkOneSpec`) |
| UserfeedPusher.PromiseAll | userfeedPusher.js:114 | the batch rejects when some promise rejects and resolves when all resolve; otherwise it never settles |
| UserfeedPusher.LinkOneSpec | userfeedPusher.js:106-148 | an undefined slot rejects; a link changes at most `trueUrl`; a resolved link posted an accepted comment to the resolved URL plus `/comments` for a story with Clubhouse data |
| UserfeedPusher.UndefinedSlotRejectsBatch | userfeedPusher.js:106-114 | a batch with an undefined slot rejects whatever the other slots do |
| UserfeedPusher.LinkOneIgnoresTrueUrl | userfeedPusher.js:91-99 | how a link ends and what it posts do not depend on the earlier `trueUrl`, which the fetch overwrites |
| UserfeedPusher.UserfeedPusher.constructor | userfeedPusher.js:5-8 | the pusher keeps its feed URL and headers |
| UserfeedPusher.UserfeedPusher.ParseObjects | userfeedPusher.js:11-19 | fresh distinct records for the rows, in row order, exactly when every row parses |
| UserfeedPusher.UserfeedPusher.LoadPosts | userfeedPusher.js:46-66 | the parsed feed, or a rejection when the request fails or a row does not parse |
| UserfeedPusher.UserfeedPusher.FindFormAuthenticityToken | userfeedPusher.js:91-100 | on a fetched page it sets `trueUrl` to the resolved URL on the same object and yields the token; on a failed fetch it changes nothing and rejects |
| UserfeedPusher.UserfeedPusher.AddClubHouseLink | userfeedPusher.js:118-150 | posts the comment and resolves exactly when it exists and is accepted; the story is unchanged |
| UserfeedPusher.UserfeedPusher.UpdateStatus | userfeedPusher.js:153-195 | the object's new state, the outcome and the put are those of the status update of its old state |
| UserfeedPusher.UserfeedPusher.LinkStory | userfeedPusher.js:106-112 | the object's new state, the outcome and the comment are those of the link step of its old state |
| UserfeedPusher.UserfeedPusher.LinkSlot | userfeedPusher.js:106-112 | the callback on one slot: an undefined slot rejects; the processed prefix moves on by one, for aliased objects too |
| UserfeedPusher.UserfeedPusher.StartLinks | userfeedPusher.js:106-112 | the callbacks on all slots, in order: the outcomes and comments are those of the link steps of the slots' entry states |
| UserfeedPusher.UserfeedPusher.LinkStoriesToClubHouse | userfeedPusher.js:103-115 | `Promise.all` of the link steps; every object ends as its step leaves it; on success it resolves with the same objects, in order |
| App.IdToColumns | app.js:16-19 | the `Object.assign` fold that inverts `columnToIds` (its properties: `App.IdToColumnsKeys`, `App.IdToColumnsLast`) |
| App.IdToColumnsKeys | app.js:16-19 | the inverted table has exactly the configured ids as keys |
| App.IdToColumnsLast | app.js:16-19 | each id maps to the column of the last entry carrying it (`Object.assign` order) |
| App.IdTableInvertsColumns | app.js:16-19 | with the configured tables every column is found again from its id, and no other id is a key |
| App.MappedStatusSpec | app.js:178-180 | a column id maps to a status exactly when it is a configured column's id, and then to that column's status, which is non-empty |
| App.Process | app.js:171-204 | processClubHouseChange on values: the outcome, the collection afterwards and the status put, for every way the handler can end |
| App.NoStateChangeNoEffect | app.js:172-176 | an event whose first action changes no workflow state causes no lookup, no request and no write |
| App.UpdateOnlyWhenStatusDiffers | app.js:177-192 | a status update is attempted exactly when the story is cached and the mapped status is defined and differs from the cached one; the put carries that status; only a successful update writes, to the story's document alone |
| App.StatusUpdatedStoresStatus | app.js:183-188 | after a successful update the story's document holds the mapped status and the resolved page URL and keeps its Clubhouse fields |
| App.ProcessIdempotent | app.js:183-188 | replaying an event after a successful update is a no-op |
| App.CatchUpEventSpec | app.js:155-164 | the catch-up event names the story's Clubhouse id and its cached workflow state as the new one |
| App.CatchUpReplaysCreationColumn | app.js:155-164 | the catch-up puts the status mapped from the story's creation-time column, attempted exactly when it differs from the cached status, whatever column the story is in now |
| App.CatchUpStep | app.js:152-165 | one forEach callback on values: a stop for a story without Clubhouse data, otherwise its synthetic event processed |
| App.CatchUp | app.js:147-168 | syncDataFromClubhouseToUserfeed on values: the callbacks over the tracked stories in order (its properties: `App.CatchUpStopped`, `App.CatchUpCounts`) |
| App.CatchUpStopped | app.js:152-166 | once a story without Clubhouse data has thrown, no later story is processed |
| App.CatchUpCounts | app.js:151-167 | the catch-up runs to the end exactly when every tracked story has Clubhouse data, then processes each once; it sends no more puts than it processes stories |
| App.TrackedNeverRecreated | app.js:121-135 | a cached story with a Clubhouse id, seeded or created, is never created again |
| App.LoadedCarriesNoClubhouse | userfeedPusher.js:30-40 | loaded records carry no Clubhouse fields |
| App.SeededNeverPushed | app.js:118-135 | a story stored with `clubhouseId` 0 is not among the stories a pipeline run creates |
| App.FailedCreateSkipsFinalUpsert | app.js:132-142 | when one create fails the link batch rejects, and the collection stays as the feed refresh left it |
| App.Sync | app.js:118-144 | syncDataFromUserfeedToClubhouse on values: load, upsert, findStories(false), create, link, upsert, and how the chain ends |
| App.SyncedStoresCreatedIds | app.js:127-142 | a run that resolves had every create answered, and stores each created story's Clubhouse id and data under its `userfeedId`, keeping ids unique |
| App.LinkedStories | app.js:136-142 | a resolved link batch passes one story per create to the final upsert, in order, with its `userfeedId` and its create's Clubhouse fields |
| App.ResolvedSlot | userfeedPusher.js:106-114 | in a resolved batch every slot held a created story and passes it on with its resolved URL recorded |
| App.SeedOnlyWhenEmpty | app.js:90-114 | a non-empty collection is never seeded; an empty one is seeded with the marks of the loaded feed, or stalls when the load fails |
| App.SeedThenSyncCreatesNothing | app.js:53-59 | a first start on an empty collection creates nothing when the feed is unchanged since seeding |
| App.StartupSpec | app.js:50-66 | a failed connection is reported exactly when connecting fails; the first run (and polling) happens exactly when connected and the collection is non-empty or the seed load succeeds; a start without it writes nothing and sends nothing; catch-up puts happen only after a fully synced first run; otherwise the collection is the one the first run leaves |
| App.Startup | app.js:50-66 | the startup script on values: connect, seed if empty, the first run, and the catch-up after a resolved run |
| App.WebhookAcceptRule | app.js:75-88 | an event is processed exactly when no secret is set or the header equals the hex HMAC of the serialised event; otherwise 401 and no processing; 200 unless the event has no actions |
| App.ValidWebhook | app.js:75-88 | validWedhook: the header equals the hex HMAC of the serialised event under the secret |
| App.Webhook | app.js:37-47 | the webhook route on values: process when no secret is set or the signature is valid, then 200, 401 or 500 |
| App.SyncApp.constructor | app.js:24-31 | the app holds its three service objects and its webhook settings |
| App.SyncApp.ProcessClubHouseChange | app.js:171-204 | the outcome, the put and the new collection are those of the inbound decision on the old collection |
| App.SyncApp.HandleWebhook | app.js:37-47 | the answer is the webhook rule's, and the collection changes only through a processed event |
| App.SyncApp.SyncDataFromUserfeedToClubhouse | app.js:118-144 | the outcome and the new collection are those of the pipeline on the old collection |
| App.SyncApp.RefreshFromFeed | app.js:121-126 | a loaded feed is upserted into the collection; a failed load changes nothing |
| App.SyncApp.CreateNew | app.js:128-135 | the created slots are the create results of the untracked pushable stories |
| App.SyncApp.LinkCreated | app.js:136-138 | the batch settles as `Promise.all` of the link steps, and on success yields the linked stories' documents |
| App.SyncApp.PushNew | app.js:127-138 | find, create and link on the current collection settle as the pipeline specifies |
| App.SyncApp.SyncDataFromClubhouseToUserfeed | app.js:147-168 | the catch-up over the tracked stories, each processed as its synthetic event, until one without Clubhouse data stops it |
| App.SyncApp.CatchUpStory | app.js:152-165 | one catch-up callback: a stop on a story without Clubhouse data, otherwise its event processed |
| App.SyncApp.Start | app.js:50-66 | the outcome, the catch-up puts and the new collection are those of the startup sequence on the old collection |
| App.SyncApp.ShouldSeed | app.js:90-114 | reports whether startup goes on, and leaves the collection as the seeding rule gives it: untouched when non-empty, the seed marks of the loaded feed when empty |
| App.SyncApp.Shutdown | app.js:69-71 | closing succeeds exactly when there was a client, and then the collection is closed |

## Left out

- HTTP transport, the Express server, body parsing and dotenv loading are not
  modelled. Remote calls are the function parameters above: the Clubhouse API,
  story pages, form posts and the feed.
- HMAC-SHA256 and `JSON.stringify` are not modelled. They are fields of
  `SyncApp` with no interpretation; only the exact-equality and bypass decision
  is modelled.
- cheerio HTML extraction is not modelled. A feed row carries its extracted
  type span, title, href and description. A page carries its resolved URL and
  CSRF token, and a missing token is a failed fetch.
- `encodeURIComponent` is a function parameter of the Userfeed pusher with no
  interpretation.
- Request headers on the GET requests (feed and page fetches) are not modelled.
  Only the form posts' headers are.
- Polling with `setInterval` and `pollTime` is not modelled.
  `App.StartupSpec` states only whether polling gets scheduled.
- Overlapping poll cycles, racing webhooks and the unawaited writes of
  `updateAndCreateStoriesLocal` are not modelled. Every flow is one sequential
  run to the end of its promise chain.
- Mongo driver error callbacks and `insertMany` results are not modelled.
- Operations on a closed collection (a TypeError in the source) are out of the
  model's domain. The cache methods require an open collection.
- `App.SyncApp.Start` takes whether the connection succeeds as a parameter.
- Environment variables, `apiHeaders`, the stories URL and the port are
  deployment data and are not modelled.
- Column ids are integers. A webhook that sends an id as a numeric string would
  also match in JavaScript; that case is not modelled.
- `App.SyncApp.PushNew` and `App.SyncApp.LinkCreated` state the linked records
  only when the batch resolves. In the source an unsettled or rejected batch
  yields no value.
- Logging is not modelled.
- ClubhousePusher.AfterCreateKeepsPayload: the Clubhouse API is a function of the request, so two creates with the same payload get the same answer, whereas each real POST creates a new story with a new id; properties of repeated creates are out of scope.
- Remotes never hang: the form posts and the Clubhouse API always answer, and `UserfeedPusher.UserfeedPusher.AddClubHouseLink` never stays pending, whereas the HTTP client has no timeout. Only a failed page fetch is modelled as a promise that never settles.
- seedDb hands a callback to `insertMany` and returns `undefined`, so seedData resolves before the insert finishes. The model performs the insert before the first run.
- A title or description link whose first child is an element gives `undefined` in the source without throwing, and the post is stored with that value. The extracted fields here are present text or absent (throws), so that case is not modelled.
