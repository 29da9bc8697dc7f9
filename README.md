# StoryGlow offline story queue, in Dafny

StoryGlow is a progressive web app for sharing photo stories. When the
device is offline, a story the user writes is queued in IndexedDB. It is
uploaded later, either by the page (`SyncHelper.manualSync`) or by the
service worker on a background `sync` event. The service worker also
routes every fetch to a caching strategy over named Cache Storage
buckets, and it builds and answers push notifications. Small helpers
validate images, truncate text, turn the base64url VAPID key into bytes
and decide which routes a visitor may open.

This project models that core and proves its behaviour:

- `js_values.dfy` (`JsValues`): JavaScript values and their truthiness; records as maps; `String(v)`; the string searches the code uses.
- `object_store.dfy` (`ObjectStore`): an IndexedDB object store. It is a key-sorted sequence of entries, with the IndexedDB key order (numbers before strings).
- `base64.dfy` (`Base64`): the browser's `atob`, which is the WHATWG forgiving-base64 decode. It comes with a reference encoder and the round trip between the two.
- `db_helper.dfy` (`DbHelper`):
  - `Backend` is the persistent database: version, schema, the three stores and the key generator.
  - `DBHelper` is the page's helper with its cached connection.
  - Each method's new state is a pure transition of the old one, and the lemmas are proved about those transitions.
- `sync_helper.dfy` (`BackgroundSync`): the `SyncHelper` class, with its `isSyncing` guard, listener list, drain loop, event log and offline-save path.
- `service_worker.dfy` (`ServiceWorker`):
  - fetch routing and the two caching strategies over a `CacheStorage` class;
  - the activate purge;
  - the worker's own database open and its background-sync drain;
  - push and notification-click handling.
- `api.dfy` (`ApiService`), `text_utils.dfy` (`TextUtils`), `notification_helper.dfy` (`NotificationHelper`), `app.dfy` (`App`): `validateImage`, `isLoggedIn`, `truncateText`, `_urlBase64ToUint8Array`, `getPermissionStatus`, `_getTransitionName`, `_requireAuth` and the `renderPage` route rule.

Things outside the program itself are inputs:

- The network is an oracle. For the page it maps an upload to a response or a failure; for the worker it maps a request to an outcome. The worker's `Network` logs every request it is sent.
- `Date.now()` and the stored token (`localStorage`) are parameters.
- Whether the browser is online, and whether it supports `SyncManager`, are parameters.
- Whether a listener throws is a fixed oracle of the listener and the event.

Two inconsistencies between the page and the worker are stated as lemmas rather than repaired:

- The worker creates the `pending-stories` store without `autoIncrement`. If the worker creates the database first, a later page add of an id-less story fails with a DataError (`ServiceWorker.SwCreatedDatabase`).
- The worker uploads `story.formData`, a field the page never stores. Every story the page queues is therefore sent with an undefined body (`ServiceWorker.PageQueuedStoryUpload`).

## Model

| member | source | states |
|---|---|---|
| Base64.DecodeEncode | src/scripts/utils/sync-helper.js:262 | `atob` decodes the padded base64 encoding of any byte sequence back to exactly those bytes |
| ObjectStore.KeyLessTotalOrder | src/scripts/utils/db-helper.js:100-117 | the IndexedDB key order that `getAll` follows is a strict total order (irreflexive, transitive, total) |
| ObjectStore.SortedByMap | src/scripts/utils/db-helper.js:100-117 | two sorted stores with the same key-to-record map are the same sequence, so `getAll` order is determined by the keys |
| ObjectStore.PutAboveAppends | src/scripts/utils/db-helper.js:89 | putting a key above every stored key appends the entry at the end of the store |
| DbHelper.Upgrade | src/scripts/utils/db-helper.js:38-66 | the upgrade adds exactly the missing stores among the three, and keeps every existing store unchanged |
| DbHelper.UpgradeOnCurrentSchema | src/scripts/utils/db-helper.js:43-62 | on a schema that has all three stores, the upgrade changes nothing |
| DbHelper.UpgradeIdempotent | src/scripts/utils/db-helper.js:38-66 | running the upgrade twice is the same as running it once |
| DbHelper.PendingRecord | src/scripts/utils/db-helper.js:79-84 | the stored record is the caller's fields plus `timestamp` = now and `status` = 'pending'; no other field changes |
| DbHelper.AddWithKeyPath | src/scripts/utils/db-helper.js:44-47 | a successful add stores the record with its id under a key that was absent, and keeps the queue's key-path and generator invariant |
| DbHelper.AddWithKeyPathErrors | src/scripts/utils/db-helper.js:44-47 | an id-less record gets the generator's key with auto-increment and is a DataError without it; an existing id is a ConstraintError |
| DbHelper.AddsAreFifo | src/scripts/utils/db-helper.js:73-117 | N id-less adds all succeed under consecutive generated keys; `getAll` then returns the old records followed by the N new ones in insertion order, so the count grows by N |
| DbHelper.RemovingAcceptedKeepsRejected | src/scripts/utils/db-helper.js:158-177 | deleting the keys of the accepted stories leaves exactly the rejected ones |
| DbHelper.DrainMapStep | src/scripts/utils/db-helper.js:162-174 | one loop step deletes the current story if and only if it was accepted, which keeps the drain invariant |
| DbHelper.CacheSnapshot | src/scripts/utils/db-helper.js:199-222 | the stories put after the clear form a valid store whose key map is the step-by-step put view, with later duplicates winning |
| DbHelper.CacheSnapshotContents | src/scripts/utils/db-helper.js:199-222 | after `cacheStories`, an id is cached iff some story in the list has it, and the record is the last such story stamped with the shared `cachedAt` |
| DbHelper.CacheViewKeys | src/scripts/utils/db-helper.js:206-215 | the put view holds exactly the ids of the list |
| DbHelper.CacheViewLast | src/scripts/utils/db-helper.js:206-215 | for a duplicate id, the later story wins |
| DbHelper.GetAfterSetState | src/scripts/utils/db-helper.js:259-281 | after `setState(k, v)`, `getState(k)` is `v` when `v` is truthy and null otherwise; other keys keep their values |
| DbHelper.GetMissingState | src/scripts/utils/db-helper.js:278 | a missing key reads as null |
| DbHelper.QueuedStoryKey | src/scripts/utils/db-helper.js:100-117 | the i-th story `getAll` returns is stored under the key its own `id` field names |
| DbHelper.DistinctKeysCount | src/scripts/utils/db-helper.js:285-288 | the number of stories read equals the number of distinct keys |
| DbHelper.Backend.AddPending | src/scripts/utils/db-helper.js:87-89 | the store and generator become what the add transition returns; the other stores are unchanged |
| DbHelper.Backend.DeletePending | src/scripts/utils/db-helper.js:140 | the queue loses the given key and nothing else |
| DbHelper.Backend.ClearPending | src/scripts/utils/db-helper.js:187 | the queue becomes empty and the generator is kept |
| DbHelper.Backend.ReplaceCached | src/scripts/utils/db-helper.js:205-215 | a list whose stories all have keys replaces the cached store with its snapshot; any other list aborts and leaves the store unchanged, and the promise rejects, or never settles when the first story has no key |
| DbHelper.DBHelper.OpenDB | src/scripts/utils/db-helper.js:21-68 | a cached handle is returned without reopening; otherwise the database opens (upgrading when older) or the open error is returned; no store contents change |
| DbHelper.DBHelper.Close | src/scripts/utils/db-helper.js:296-302 | the cached handle becomes null |
| DbHelper.DBHelper.AddPendingStory | src/scripts/utils/db-helper.js:73-97 | after the open, the record is added by the add transition and its key returned; a failed open changes nothing |
| DbHelper.DBHelper.GetAllPendingStories | src/scripts/utils/db-helper.js:100-117 | the result is the queue's records in key order, or the open error; nothing is written |
| DbHelper.DBHelper.GetPendingCount | src/scripts/utils/db-helper.js:285-288 | the result is the number of queued records, or the open error |
| DbHelper.DBHelper.DeletePendingStory | src/scripts/utils/db-helper.js:133-150 | the record under the id's key is removed and the others stay; an invalid key is a DataError; a failed open changes nothing |
| DbHelper.DBHelper.MarkStoryAsSynced | src/scripts/utils/db-helper.js:153-155 | the same postcondition as `deletePendingStory` |
| DbHelper.DBHelper.SyncPendingStories | src/scripts/utils/db-helper.js:158-177 | resolves to nothing (also early on an empty queue); the stories read are handed over in queue order, exactly the ones the API accepted are deleted, and the failures stay |
| DbHelper.DBHelper.DeleteAccepted | src/scripts/utils/db-helper.js:162-174 | the loop leaves the queue's map equal to the rejected stories only |
| DbHelper.DBHelper.ClearPendingStories | src/scripts/utils/db-helper.js:180-194 | the queue is empty afterwards; the other stores are unchanged |
| DbHelper.DBHelper.CacheStories | src/scripts/utils/db-helper.js:199-222 | the cached store becomes the snapshot of the list with one `cachedAt` and the promise resolves; a story without a key aborts the transaction with nothing changed, and the promise rejects, or never settles when that story is the first; a missing store or failed open rejects |
| DbHelper.DBHelper.GetCachedStories | src/scripts/utils/db-helper.js:225-242 | the result is the cached store's records in key order |
| DbHelper.DBHelper.SetState | src/scripts/utils/db-helper.js:259-269 | the pair is stored under its key with a timestamp; a value that is not a valid key is a DataError |
| DbHelper.DBHelper.GetState | src/scripts/utils/db-helper.js:271-281 | the stored value if truthy, null otherwise (missing key included) |
| BackgroundSync.SecondPiece | src/scripts/utils/sync-helper.js:262 | `split(',')[1]` is undefined iff there is no comma, and never contains a comma |
| BackgroundSync.SecondPieceOfDataUrl | src/scripts/utils/sync-helper.js:262 | on `header,payload` it is exactly the payload |
| BackgroundSync.BinaryString | src/scripts/utils/sync-helper.js:263-267 | one character per byte, and char code i is byte i |
| BackgroundSync.DataUrlRoundTrip | src/scripts/utils/sync-helper.js:251-271 | the photo that the file reader turns into a data URL decodes back to the file's bytes |
| BackgroundSync.NoCommaNoPhoto | src/scripts/utils/sync-helper.js:261-271 | a string without a comma does not decode to a photo |
| BackgroundSync.UploadOf | src/scripts/utils/sync-helper.js:107-139 | no stored or saved token means NoToken; with a token, a non-string description fails first (DescriptionNotString); with a string description, no `photoBase64` means PhotoMissing; on success the description and photo bytes come from the story, with a location iff lat and lon are both truthy |
| BackgroundSync.Answer | src/scripts/utils/sync-helper.js:144-160 | the upload succeeds iff a response arrived with `ok` and a JSON body, and that body is the result |
| BackgroundSync.SavedStoryUploads | src/scripts/utils/sync-helper.js:168-197 | a story saved offline uploads later with its description, bytes, type, name, location and token |
| BackgroundSync.CountsAddUp | src/scripts/utils/sync-helper.js:64-96 | successes plus failures equal the queue length |
| BackgroundSync.SuccessesAreSuccessEvents | src/scripts/utils/sync-helper.js:72-86 | the success count is the number of `story-synced` events marked successful |
| BackgroundSync.SyncEventsShape | src/scripts/utils/sync-helper.js:50-96 | a drain emits `sync-start`, then one event per story in queue order, then `sync-complete` with the total, success and failure counts; an empty queue emits only `sync-start` |
| BackgroundSync.Calls | src/scripts/utils/sync-helper.js:240-248 | each notification calls every listener exactly once, in registration order, and records each throw |
| BackgroundSync.CallsAt | src/scripts/utils/sync-helper.js:240-248 | call i goes to listener i, with whether it threw; a throw does not stop the later calls |
| BackgroundSync.Without | src/scripts/utils/sync-helper.js:234-236 | the filtered list has no copy of the callback, and every other callback keeps its multiplicity |
| BackgroundSync.SubscribeThenUnsubscribe | src/scripts/utils/sync-helper.js:232-237 | subscribing a new callback and calling its unsubscribe gives back the old list |
| BackgroundSync.WithoutAbsent | src/scripts/utils/sync-helper.js:234-236 | unsubscribing a callback that is not listed changes nothing |
| BackgroundSync.SyncHelper.OnSyncEvent | src/scripts/utils/sync-helper.js:232-233 | the callback is appended to the listeners |
| BackgroundSync.SyncHelper.Unsubscribe | src/scripts/utils/sync-helper.js:234-236 | every copy of the callback is removed |
| BackgroundSync.SyncHelper.Notify | src/scripts/utils/sync-helper.js:240-248 | the event is logged and every listener is called in order |
| BackgroundSync.SyncHelper.SyncStory | src/scripts/utils/sync-helper.js:107-165 | the result is the story's upload outcome against the server oracle |
| BackgroundSync.SyncHelper.Base64ToBlob | src/scripts/utils/sync-helper.js:261-271 | the blob is the decode of the text after the first comma, with the given type |
| BackgroundSync.SyncHelper.ManualSync | src/scripts/utils/sync-helper.js:39-104 | an in-flight sync or offline state returns with nothing changed; otherwise the drain runs and `isSyncing` is false on every exit |
| BackgroundSync.SyncHelper.RunSync | src/scripts/utils/sync-helper.js:50-100 | the queue read and drain happen with the events and store changes of the sync specification |
| BackgroundSync.SyncHelper.Conclude | src/scripts/utils/sync-helper.js:56-100 | a failed read emits `sync-error` and changes no store; otherwise exactly the uploaded stories are deleted and `sync-complete` carries the counts |
| BackgroundSync.SyncHelper.DrainQueue | src/scripts/utils/sync-helper.js:67-88 | the loop deletes exactly the uploaded stories, emits one event per story in order and counts the successes and failures |
| BackgroundSync.SyncHelper.SyncOne | src/scripts/utils/sync-helper.js:68-87 | one story is deleted iff its upload succeeded, and its event is emitted |
| BackgroundSync.SyncHelper.RegisterSync | src/scripts/utils/sync-helper.js:19-36 | a supported and successful registration records the tag and changes nothing else; otherwise the manual sync runs |
| BackgroundSync.SyncHelper.SaveOfflineStory | src/scripts/utils/sync-helper.js:168-218 | an unreadable file fails with nothing changed; otherwise the offline record is added to the queue, and after a successful add one sync is scheduled when online or the `sync-stories` tag is registered when offline and supported; no event is emitted |
| ServiceWorker.BaseUrl | sw.js:10 | the base URL starts with the origin and ends with a slash |
| ServiceWorker.BaseUrlOfScript | sw.js:10 | for a script path the base is the origin plus the path up to its last slash |
| ServiceWorker.UrlParts | sw.js:63-72 | the parsed scheme, host, hostname and origin of a URL are the parts it was built from |
| ServiceWorker.ApiRequestsGoNetworkFirst | sw.js:66-69 | every request to the API origin goes network-first |
| ServiceWorker.OtherOriginsGoCacheFirst | sw.js:70-72 | every other http(s) origin goes cache-first |
| ServiceWorker.ApiHostOverOtherOrigin | sw.js:66-100 | the API host over plain http or an explicit port goes cache-first, and it is cached only when the URL names an image |
| ServiceWorker.FirstMatchFinds | sw.js:78 | `caches.match` finds a response stored in any open bucket |
| ServiceWorker.StoredResponseIsFound | sw.js:85-101 | a GET response put in a bucket is found by the next `caches.match` |
| ServiceWorker.Drop | sw.js:43-51 | a name survives the purge iff it was present and is not deleted |
| ServiceWorker.DropKeepsDistinct | sw.js:43-51 | the purge keeps bucket names distinct |
| ServiceWorker.DropTwice | sw.js:43-51 | deleting two sets one after the other is deleting their union |
| ServiceWorker.DropConcat | sw.js:43-51 | the purge works name by name |
| ServiceWorker.StaleNames | sw.js:43-46 | the stale names are exactly the `storyglow-` names other than the three current ones |
| ServiceWorker.PurgeStep | sw.js:47-50 | deleting one more stale name keeps the activate loop invariant |
| ServiceWorker.PurgeKeeps | sw.js:43-46 | a name that is not stale is never purged |
| ServiceWorker.CacheFirstOffline | sw.js:103-118 | on a miss and a network failure, an image gets the SVG placeholder, a document gets the cached offline page, and anything else is an error |
| ServiceWorker.SwCreatedDatabase | sw.js:284-289 | the worker's schema has only the pending store, without auto-increment, so a later page add of an id-less story is a DataError |
| ServiceWorker.PageQueuedStoryUpload | sw.js:246-252 | a story queued by the page is uploaded with an undefined body, and with `Bearer null` when saved without a token |
| ServiceWorker.UploadRequestsStep | sw.js:242-264 | the uploads are sent one per story, in queue order |
| ServiceWorker.DeliveredIs | sw.js:254-257 | unfolds `Delivered`: the `response.ok` test of line 254, applied to the story's upload request, as one fact the drain loop's proof uses |
| ServiceWorker.PushNotice | sw.js:139-184 | without JSON the fixed defaults apply (title, body, icon and badge under the base URL, tag, no data, no actions); with JSON each truthy title, body, icon, tag, url and storyId field wins over its own default (the body default being the update text), with the open/close actions and the vibration pattern; title, body and tag are never empty |
| ServiceWorker.PushThenClick | sw.js:150-203 | a click on a notification built without JSON targets the base URL; with JSON, a truthy `storyId` targets `BASE_URL#/detail/<storyId>`, else the payload's truthy `url`, else the base URL |
| ServiceWorker.Broadcast | sw.js:266-271 | each client receives one message, in order |
| ServiceWorker.CacheStorage.Open | sw.js:84 | opening adds the bucket if it is missing and keeps the existing ones |
| ServiceWorker.CacheStorage.Put | sw.js:98-100 | only the named bucket changes, storing the GET response under its URL |
| ServiceWorker.CacheStorage.Delete | sw.js:47-50 | the bucket and its name are removed, and the result says whether it existed |
| ServiceWorker.Network.Fetch | sw.js:81 | the request is logged and answered by the oracle |
| ServiceWorker.Worker.CacheFirstStrategy | sw.js:76-119 | a hit returns the cached response without fetching; a miss fetches and caches a 200 (API host: only image URLs); a failure falls back offline |
| ServiceWorker.Worker.NetworkFirstStrategy | sw.js:122-136 | a 200 is stored in the API bucket and returned; a failure returns the cached copy, or the error when there is none |
| ServiceWorker.Worker.OnFetch | sw.js:59-73 | a non-http request is not handled and changes nothing; otherwise the routed strategy answers |
| ServiceWorker.Worker.Activate | sw.js:37-56 | exactly the stale `storyglow-` buckets are deleted; all others remain, names in order |
| ServiceWorker.Worker.OpenDatabase | sw.js:277-291 | the open either fails with nothing changed, or leaves version 1 with the worker's pending store added to a database that was older; stored data is untouched |
| ServiceWorker.Worker.SyncOfflineStories | sw.js:235-274 | exactly the delivered stories are deleted, one upload per story in order, and every client gets `SYNC_COMPLETE` with the total count |
| ServiceWorker.Worker.UploadQueue | sw.js:242-264 | the loop sends the uploads in order and leaves only the undelivered stories |
| ServiceWorker.Worker.UploadOne | sw.js:243-263 | one upload; the story is deleted iff it was delivered |
| ServiceWorker.Worker.PostToAll | sw.js:266-271 | the message is posted to every client |
| ServiceWorker.Worker.OnSync | sw.js:227-233 | only the `sync-stories` tag runs the drain; any other tag changes nothing |
| ServiceWorker.Worker.OnNotificationClick | sw.js:187-224 | `close` dismisses; otherwise the first window under the base URL is focused and navigated to the click target; with no such window, a new one opens if it can |
| ApiService.ValidateImage | src/scripts/data/api.js:193-205 | no errors iff the file is valid; a missing file has only the empty-file error; otherwise the list is exactly the format error if the type is not allowed, followed by the size error if the size is over the limit |
| ApiService.SizeLimitInclusive | src/scripts/data/api.js:200-201 | a file of exactly 1048576 bytes passes the size check |
| ApiService.IsLoggedIn | src/scripts/data/api.js:65-72 | true iff a non-empty token is stored |
| TextUtils.TruncateText | src/scripts/utils/index.js:61-64 | a text that fits is returned unchanged; otherwise the first `maxLength` characters plus "...", of length `maxLength` + 3 |
| TextUtils.TruncateTextDefault | src/scripts/utils/index.js:61 | the default length is 150: a text of at most 150 characters is unchanged, a longer one becomes its first 150 characters and "..." |
| TextUtils.TruncatePrefix | src/scripts/utils/index.js:61-64 | the kept part is always a prefix of the text |
| TextUtils.TruncateIdempotent | src/scripts/utils/index.js:61-64 | truncating an already truncated text to the same length changes nothing |
| NotificationHelper.PaddingLength | src/scripts/utils/notification-helper.js:154 | the padding is at most 3, and the padded length is a multiple of 4 |
| NotificationHelper.ToStandardAlphabet | src/scripts/utils/notification-helper.js:155-157 | every `-` becomes `+` and every `_` becomes `/`; none remains; other characters unchanged |
| NotificationHelper.UrlBase64ToUint8Array | src/scripts/utils/notification-helper.js:153-165 | the array holds the decoded bytes, one per decoded character, or the decode fails |
| NotificationHelper.ToUint8Array | src/scripts/utils/notification-helper.js:159-164 | a fresh array whose element i is byte i |
| NotificationHelper.UrlSafeRoundTrip | src/scripts/utils/notification-helper.js:153-165 | the base64url encoding of any bytes (RFC 4648 section 5, padding dropped) decodes back to those bytes |
| NotificationHelper.GetPermissionStatus | src/scripts/utils/notification-helper.js:11-22 | 'unsupported' iff a required API is missing; otherwise the permission |
| App.TransitionNames | src/scripts/pages/app.js:226-233 | `/` is home, `/auth` auth, `/add-story` and `/add-review` form, `/map` map and `/detail/:id` detail; no route in the table maps to `default` |
| App.DetailPrefix | src/scripts/pages/app.js:231 | every URL under `/detail` maps to `detail` |
| App.RequireAuth | src/scripts/pages/app.js:138-170 | `/auth` is always allowed; any other route iff a non-empty token is stored |
| App.RenderPage | src/scripts/pages/app.js:173-223 | an unknown route redirects home and renders nothing; a known route renders iff access is allowed, with its transition |
| App.LoggedOutReachesOnlyAuth | src/scripts/pages/app.js:138-185 | without a token, only `/auth` renders |

## Left out

- Timers: `setupAutoSync`'s online debounce and interval (sync-helper.js:274-318) have no model. The `scheduledSyncs` counter stands in for a `setTimeout` call.
- The worker's `install` and `message` handlers (static-asset precache, `skipWaiting`) are not modelled. They only start browser life-cycle calls.
- ServiceWorker.Worker.Activate: leaves out the `self.clients.claim()` call that follows the purge (sw.js:55), a browser life-cycle call.
- Concurrency: the page's drain and the worker's drain can run at the same time. Each is modelled alone, and nothing claims they exclude each other.
- Listener reentrancy: a listener that subscribes or unsubscribes while it is being notified is not modelled. Listeners are opaque values with a throw oracle.
- The delete-failure path inside `manualSync`'s loop is not modelled. The in-memory store's delete cannot fail.
- `FileReader`, `Blob` and `FormData` are values. Reading a file either yields a data URL or fails.
- `getPendingStory`, `getCachedStory` and `hasOfflineData` (db-helper.js) are single reads that the core does not use. The same holds for `getPendingCount` and `hasPendingStories` in sync-helper.js, which wrap `DBHelper.getPendingCount`.
- src/scripts/routes/url-parser.js is not part of this model. `App.RenderPage` takes the matched route pattern as its input.
- The auto-login side effect of `_requireAuth` and all DOM work in `renderPage` are not modelled. That DOM work is the view transition, scrolling and header updates.
- ServiceWorker.UrlParts: hosts are plain ASCII names. IPv6 literals, user-info and non-normalised URLs are outside the URL model.
- ServiceWorker.OtherOriginsGoCacheFirst: this holds only for serialised ports. A port is all digits and is never the scheme's default.
- `cache.put`'s refusal of `Vary: *` and partial (206) responses is not modelled.
- The failure of `client.focus()`, `notification.close()` and `showNotification` is not modelled.
- Numbers are integers. Floating-point coordinates, and NaN, are not modelled.
- Strings are sequences of characters, not UTF-16 code units.
- The VAPID public key constant is written out, but no lemma checks that this particular literal decodes.
- ApiService.IsLoggedIn: an empty stored token counts as logged out. `!!token` is false for `''`, so this is narrower than "a token is stored".

