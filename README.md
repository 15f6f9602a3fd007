# DSScreenApp device core in Dafny

DSScreenApp is an Android TV digital-signage player. A device registers with the backend,
either through a QR session or with a five-character playlist code. It then plays the
playlist's images and videos in a loop, caches the media on disk and polls the backend's
timeline every 30 seconds. When the license runs out, or the server deregisters the device,
playback is blocked or the registration is reset.

This project models the device core and proves properties of the model:

- `Orchestrator` (orchestrator.dfy) models the view model. Class `MainViewModel` holds the
  Kotlin view model's observable fields. Each handler method is proved to do exactly what a
  pure step function says. A step function returns the new fields, the settings saves in
  order, and the `Effect`s started: a timeline refresh, a registration, a QR session, media
  caching, push-channel emits, or an uncaught exception.
  The state-machine properties are lemmas about the step functions:
  - the saved playlist and the saved playlist id agree;
  - applying the same timeline twice saves the playlist once;
  - a refresh takes a playing device off screen only for a cause; a saved playlist that
    does not decode keeps the screen but ends the refresh in an uncaught exception;
  - the startup, registration and reset scenarios.
- `DataStore` (data_store.dfy) models the five-entry settings record. Saves are logged as
  `Write`s, and a record after several saves is `Apply` of those writes.
- `MediaCache` (media_cache.dfy) models the cache directory as a map from file name to
  length: idempotent downloads, the outcome of each kind of transfer, and progress bounds.
  A failed connection or an interrupted copy deletes the file; a non-200 answer touches
  nothing, so a zero-length file already on disk stays.
- `Repository` (repository.dfy) classifies an HTTP reply as success, license expired,
  deregistered or a generic failure, per endpoint.
- `LicenseDate` (license_date.dfy) covers first-match parsing of license expiry over five
  layouts, and the fail-open expiry rule.
- `Stats` (stats.dfy) covers the statistics overlay's license line: text, day count and
  colour.
- `Player` (player.dfy) models the playback cursor, display durations, the error flag and
  the error dialog's countdown.
- `Registration` (registration.dfy) models the code-entry form and the slicing of the QR
  data URL.
- `Models`, `Wrappers` and `Text` hold the data classes, Kotlin's nullable values and the
  string helpers the Kotlin standard library provides (`trim`, `replace`, `substringAfter`,
  integer printing).

Collaborators the core cannot see into are parameters:

- the device id, the `SimpleDateFormat` layouts and the Gson codec are passed in `Env`;
- an HTTP exchange arrives as an `HttpReply`;
- a media download arrives as a `Transfer`;
- the clock arrives as `now` (milliseconds).

The JSON codec is trusted only for what `JsonLaws` states: decoding an encoded playlist
gives it back, and an encoded playlist is never the empty text.

## Where the code departs from its intended behaviour

The model follows the code in each of these cases:

- **Reset.** A reset (`resetRegistration`, app/src/main/java/com/logicalvalley/digitalSignage/viewmodel/MainViewModel.kt:462-480) blanks four entries and keeps the
  saved device id.
  - It also leaves the in-memory last applied JSON as it was.
  - It ends in `Loading` and starts a new QR session. It does not go to
    `RegistrationRequired` directly.
  - The intended rule is that a reset clears all five entries and goes straight to
    `RegistrationRequired`. `Orchestrator.ResetClearsRecord` and `Orchestrator.ResetStep`
    state the code's behaviour.
- **License on registration.** A successful registration does not save the license expiry
  it receives (app/src/main/java/com/logicalvalley/digitalSignage/viewmodel/MainViewModel.kt:414-433). It only starts an immediate timeline refresh when the response
  carries no license. The intended rule is that the license received on registration is
  saved like any other. `Orchestrator.RegistrationSuccessStep` states that the license entry
  is left alone.
- **Zero-length files.** `getLocalFile` (app/src/main/java/com/logicalvalley/digitalSignage/data/local/MediaCacheManager.kt:21-25) counts a zero-length file as cached. The
  intended rule is that only a non-empty file counts as cached, the test `downloadMedia`
  applies before skipping the network. Cache progress follows the code
  (`MediaCache.EmptyFileCountsAsCached`).
- **Files left after a failed download.** `downloadMedia`
  (app/src/main/java/com/logicalvalley/digitalSignage/data/local/MediaCacheManager.kt:41-43) returns on a non-200 answer before its clean-up, so a
  zero-length file already on disk stays there, and counts as cached. The intended rule is
  that a failed download leaves no file behind. `MediaCache.Download` states the code's
  behaviour.
- **Fields the data classes do not declare.** The orchestrator reads
  `TimelineResponse.deviceDeleted`, `RegisterResponse.topLevelPlaylist` and
  `RegisterResponse.topLevelDevice`, but the Kotlin data classes do not declare them. They
  are optional fields here.
- **Code pushed on the socket.** On the `registration:complete` push event the saved code is
  the wrapped playlist's code, or `""` when there is none (app/src/main/java/com/logicalvalley/digitalSignage/viewmodel/MainViewModel.kt:80). The top-level playlist's
  code is not used for this.
- **`success = false`.**
  - A QR session answer with `success = false` shows the server's message.
  - A timeline answer with `success = false` applies no items, but its license is still
    noted.
  - A registration answer is not checked for `success` at all.
- **The QR code never reaches the screen.** The registration screen is always called
  without a QR session or a refresh callback (app/src/main/java/com/logicalvalley/digitalSignage/MainActivity.kt:55-59, 90-95). The slicing of the data URL
  is modelled as the screen defines it.

## Model

| member | source | states |
|---|---|---|
| Text.RemoveQuotes | app/src/main/java/com/logicalvalley/digitalSignage/viewmodel/MainViewModel.kt:116 | no double quote is left, every other character is kept as often as it occurs, and a text without quotes comes back unchanged |
| Text.RemoveQuotesAppend | app/src/main/java/com/logicalvalley/digitalSignage/viewmodel/MainViewModel.kt:116 | quote removal works piece by piece, so the kept characters stay in their order |
| Text.Trim | app/src/main/java/com/logicalvalley/digitalSignage/viewmodel/MainViewModel.kt:116 | the result is a slice of the input with only whitespace cut from either end, and it neither starts nor ends with whitespace |
| Text.SubstringAfter | app/src/main/java/com/logicalvalley/digitalSignage/ui/registration/RegistrationScreen.kt:52 | the text after the first occurrence of the delimiter (none occurs before it), or the whole text when it does not occur |
| Text.IntToString | app/src/main/java/com/logicalvalley/digitalSignage/ui/stats/StatsScreen.kt:79 | a non-empty decimal text that starts with a minus sign exactly for a negative number, whose digits denote the number's magnitude |
| Text.NatToString | app/src/main/java/com/logicalvalley/digitalSignage/ui/stats/StatsScreen.kt:79 | only decimal digits, whose value is the number printed |
| Text.CleanIdempotent | app/src/main/java/com/logicalvalley/digitalSignage/viewmodel/MainViewModel.kt:116 | cleaning an already cleaned expiry text (quotes removed, then trimmed) changes nothing |
| Text.Utf16Length | app/src/main/java/com/logicalvalley/digitalSignage/ui/registration/RegistrationScreen.kt:151-153 | `String.length` counts UTF-16 code units: between one and two per character, and exactly one per character iff none lies above the Basic Multilingual Plane |
| LicenseDate.FirstMatchIsFirst | app/src/main/java/com/logicalvalley/digitalSignage/viewmodel/MainViewModel.kt:125-132 | no date exactly when no layout accepts the text; otherwise the date of the first layout that accepts it |
| LicenseDate.BlankParsesToNothing | app/src/main/java/com/logicalvalley/digitalSignage/viewmodel/MainViewModel.kt:115 | null, `""` and `"null"` give no date |
| LicenseDate.ParseIgnoresCleaning | app/src/main/java/com/logicalvalley/digitalSignage/viewmodel/MainViewModel.kt:116 | surrounding quotes and whitespace do not change the parsed date |
| LicenseDate.ParseDate | app/src/main/java/com/logicalvalley/digitalSignage/viewmodel/MainViewModel.kt:114-133 | the loop that returns on the first accepting layout gives the first-match date, and that date comes from one of the five layouts |
| LicenseDate.IsLicenseExpired | app/src/main/java/com/logicalvalley/digitalSignage/viewmodel/MainViewModel.kt:109-112 | an unknown expiry never counts as expired (fail open); a known one is expired exactly when the clock is strictly past it |
| LicenseDate.UnparseableIsNotExpired | app/src/main/java/com/logicalvalley/digitalSignage/viewmodel/MainViewModel.kt:109-133 | an expiry text that no layout accepts never blocks playback |
| DataStore.FiveDistinctKeys | app/src/main/java/com/logicalvalley/digitalSignage/data/local/DataStoreManager.kt:15-21 | the record has exactly five entries under five distinct preference names |
| DataStore.Lookup | app/src/main/java/com/logicalvalley/digitalSignage/data/local/DataStoreManager.kt:23-26 | an entry reads as absent exactly when it was never saved, otherwise as its saved value |
| DataStore.ApplyLookup | app/src/main/java/com/logicalvalley/digitalSignage/data/local/DataStoreManager.kt:28-76 | after a sequence of saves the last save to an entry wins, and an entry no save touched reads as before |
| DataStore.ApplyAppend | app/src/main/java/com/logicalvalley/digitalSignage/data/local/DataStoreManager.kt:28-76 | one more save changes only its own entry |
| DataStore.SaveEmptyKeepsKey | app/src/main/java/com/logicalvalley/digitalSignage/data/local/DataStoreManager.kt:28-32 | saving `""` stores it: the entry reads back as `""`, not as absent |
| DataStore.DataStoreManager.constructor | app/src/main/java/com/logicalvalley/digitalSignage/data/local/DataStoreManager.kt:14-21 | the record starts as the stored one, with no saves logged |
| DataStore.DataStoreManager.Get | app/src/main/java/com/logicalvalley/digitalSignage/data/local/DataStoreManager.kt:23-26 | the current value of an entry, or absent |
| DataStore.DataStoreManager.SavePlaylistCode | app/src/main/java/com/logicalvalley/digitalSignage/data/local/DataStoreManager.kt:28-32 | only the code entry changes, and the save is logged |
| DataStore.DataStoreManager.SavePlaylistId | app/src/main/java/com/logicalvalley/digitalSignage/data/local/DataStoreManager.kt:39-43 | only the playlist-id entry changes, and the save is logged |
| DataStore.DataStoreManager.SaveDeviceUid | app/src/main/java/com/logicalvalley/digitalSignage/data/local/DataStoreManager.kt:50-54 | only the device-id entry changes, and the save is logged |
| DataStore.DataStoreManager.SavePlaylist | app/src/main/java/com/logicalvalley/digitalSignage/data/local/DataStoreManager.kt:61-65 | only the saved-playlist entry changes, and the save is logged |
| DataStore.DataStoreManager.SaveLicenseExpiry | app/src/main/java/com/logicalvalley/digitalSignage/data/local/DataStoreManager.kt:72-76 | only the license entry changes, and the save is logged |
| MediaCache.GetLocalFile | app/src/main/java/com/logicalvalley/digitalSignage/data/local/MediaCacheManager.kt:21-25 | an item without media has no local file; otherwise it has one exactly when a file of its name exists |
| MediaCache.EmptyFileCountsAsCached | app/src/main/java/com/logicalvalley/digitalSignage/data/local/MediaCacheManager.kt:21-25 | a zero-length file still counts as the item's local file |
| MediaCache.Download | app/src/main/java/com/logicalvalley/digitalSignage/data/local/MediaCacheManager.kt:27-56 | no media gives false with nothing done; a non-empty file gives true with no network call; otherwise a connection is made and only the item's own file may change: a complete copy of a 200 answer succeeds with a file of the copied length, a failed connection or an interrupted copy fails and deletes the file, and a non-200 answer fails and changes nothing (a zero-length file already there stays) |
| MediaCache.DownloadTwiceIsNoOp | app/src/main/java/com/logicalvalley/digitalSignage/data/local/MediaCacheManager.kt:33-35 | after a download that left a non-empty file, downloading again gives true, makes no request and changes nothing |
| MediaCache.CachedCount | app/src/main/java/com/logicalvalley/digitalSignage/data/local/MediaCacheManager.kt:60 | never more than the number of items |
| MediaCache.CacheProgress | app/src/main/java/com/logicalvalley/digitalSignage/data/local/MediaCacheManager.kt:58-62 | between 0 and 1, and exactly 1 for an empty list |
| MediaCache.CachedCountExtremes | app/src/main/java/com/logicalvalley/digitalSignage/data/local/MediaCacheManager.kt:60 | the count is full exactly when every item has a local file, and zero exactly when none does |
| MediaCache.ProgressExtremes | app/src/main/java/com/logicalvalley/digitalSignage/data/local/MediaCacheManager.kt:58-62 | progress is 1 exactly when every item is cached, and 0 exactly when a non-empty list has none cached |
| MediaCache.MediaCacheManager.constructor | app/src/main/java/com/logicalvalley/digitalSignage/data/local/MediaCacheManager.kt:12-19 | the cache starts as the stored directory |
| MediaCache.MediaCacheManager.DownloadMedia | app/src/main/java/com/logicalvalley/digitalSignage/data/local/MediaCacheManager.kt:27-56 | result, new directory and whether a request was sent are those of `Download` |
| Repository.InitRegistration | app/src/main/java/com/logicalvalley/digitalSignage/data/repository/PlaylistRepository.kt:16-33 | success exactly for a 2xx answer with a body, carrying that body; an empty body and an exception are generic failures; another status is the generic failure "Error: code message" |
| Repository.RegisterDevice | app/src/main/java/com/logicalvalley/digitalSignage/data/repository/PlaylistRepository.kt:35-64 | as above, and a license-expired failure exactly for 403, carrying the status message and the parsed error body; 410 is not special here |
| Repository.GetPlaylistTimeline | app/src/main/java/com/logicalvalley/digitalSignage/data/repository/PlaylistRepository.kt:66-98 | as above, with 403 exactly giving license expired (with the parsed error body) and 410 exactly giving "Device has been deregistered" |
| Repository.DeregisterDevice | app/src/main/java/com/logicalvalley/digitalSignage/data/repository/PlaylistRepository.kt:100-115 | true exactly for a 2xx answer; every other status and every exception is a generic failure |
| Orchestrator.ExpiryOf | app/src/main/java/com/logicalvalley/digitalSignage/viewmodel/MainViewModel.kt:260 | the camelCase expiry when present, the snake_case one otherwise |
| Orchestrator.ExtractLicense | app/src/main/java/com/logicalvalley/digitalSignage/viewmodel/MainViewModel.kt:253-263 | the wrapped license's expiry when the response wraps one, otherwise the top-level license's, otherwise none |
| Orchestrator.ExtractLicenseFromTimeline | app/src/main/java/com/logicalvalley/digitalSignage/viewmodel/MainViewModel.kt:265-275 | no expiry without a license object, otherwise its expiry |
| Orchestrator.PlaylistOf | app/src/main/java/com/logicalvalley/digitalSignage/viewmodel/MainViewModel.kt:405 | the wrapped playlist when there is one, otherwise the top-level one |
| Orchestrator.NoteLicense | app/src/main/java/com/logicalvalley/digitalSignage/viewmodel/MainViewModel.kt:290-296 | a non-empty expiry is parsed, published and saved as the only write, with no state change; anything else changes nothing |
| Orchestrator.StartupStep | app/src/main/java/com/logicalvalley/digitalSignage/viewmodel/MainViewModel.kt:135-193 | startup saves nothing and leaves the front-end fields alone; a saved expiry other than blank becomes the known one |
| Orchestrator.StartupOutcome | app/src/main/java/com/logicalvalley/digitalSignage/viewmodel/MainViewModel.kt:157-191 | a saved id with an expired license gives LicenseExpired and one refresh; a saved id otherwise connects the player and refreshes, playing from the cached JSON only when it decodes; without an id a saved code registers, and otherwise a QR session starts |
| Orchestrator.InitQrStep | app/src/main/java/com/logicalvalley/digitalSignage/viewmodel/MainViewModel.kt:195-226 | a playing device is left exactly as it is; otherwise the state is RegistrationRequired with either session data or an error, never both; data appears exactly for a successful answer with `success` and data; the device room is joined exactly then |
| Orchestrator.RegistrationSuccessStep | app/src/main/java/com/logicalvalley/digitalSignage/viewmodel/MainViewModel.kt:400-437 | no playlist gives the "Missing playlist" error and nothing else; otherwise Playing with that playlist and its JSON as the applied one; the player connects first and caching starts last; an immediate refresh is started exactly when the response has no license; the license entry and the known expiry are untouched |
| Orchestrator.RegisterStep | app/src/main/java/com/logicalvalley/digitalSignage/viewmodel/MainViewModel.kt:357-398 | never ends in Loading; success is the registration-success step from Loading; a failure saves nothing but a license and starts nothing; a 403, or an expired known license, ends in LicenseExpired; otherwise a saved playlist that decodes is shown with its cache progress, and without one the error's message or "Unknown error" is shown |
| Orchestrator.ResetStep | app/src/main/java/com/logicalvalley/digitalSignage/viewmodel/MainViewModel.kt:462-480 | Loading, known expiry forgotten, device-id entry and applied JSON kept, a new QR session started |
| Orchestrator.BasePlaylist | app/src/main/java/com/logicalvalley/digitalSignage/viewmodel/MainViewModel.kt:308-314 | the saved playlist when one is saved; otherwise a stand-in named "My Playlist" with the requested id, no code and the new items |
| Orchestrator.Refreshed | app/src/main/java/com/logicalvalley/digitalSignage/viewmodel/MainViewModel.kt:308-316 | the new playlist always carries the timeline's items, and keeps the saved playlist's id, name and code; none exactly when the saved JSON does not decode |
| Orchestrator.ItemsStep | app/src/main/java/com/logicalvalley/digitalSignage/viewmodel/MainViewModel.kt:304-331 | the known expiry and the front-end fields are kept, and at most one save, of the playlist, is added after the earlier saves |
| Orchestrator.AdoptStep | app/src/main/java/com/logicalvalley/digitalSignage/viewmodel/MainViewModel.kt:319-331 | taking up the merged playlist keeps the known expiry and the front-end fields, and either adds no save or adds exactly the save of that playlist's JSON after the earlier ones |
| Orchestrator.ItemsOutcome | app/src/main/java/com/logicalvalley/digitalSignage/viewmodel/MainViewModel.kt:319-331 | a new JSON, or a state still Loading, is saved once and cached; the same JSON saves nothing and only lifts a license or error screen back to Playing; an undecodable saved JSON is an uncaught exception |
| Orchestrator.TimelineStep | app/src/main/java/com/logicalvalley/digitalSignage/viewmodel/MainViewModel.kt:281-333 | the fields only the front end and the caching loop change are left alone |
| Orchestrator.TimelineOrder | app/src/main/java/com/logicalvalley/digitalSignage/viewmodel/MainViewModel.kt:284-332 | a deleted device resets and nothing else happens; otherwise the license is saved first, an expired license stops before the items, and a valid one lets the items be applied |
| Orchestrator.TimelineFailureStep | app/src/main/java/com/logicalvalley/digitalSignage/viewmodel/MainViewModel.kt:334-353 | 410 resets; 403 notes the license from the error body and shows LicenseExpired, never touching the saved playlist; any other failure saves nothing and only blocks an already expired license |
| Orchestrator.TickStep | app/src/main/java/com/logicalvalley/digitalSignage/viewmodel/MainViewModel.kt:228-251 | saves nothing; pings exactly when playing; blocks exactly when the known license is expired; refreshes exactly when a playlist id is saved |
| Orchestrator.ApplyFour | app/src/main/java/com/logicalvalley/digitalSignage/viewmodel/MainViewModel.kt:418-421 | four saves in a row land as four updates in that order |
| Orchestrator.RegistrationSavesIdsTogether | app/src/main/java/com/logicalvalley/digitalSignage/viewmodel/MainViewModel.kt:416-421 | a registration with a playlist saves the code, that playlist's id, the device id and a JSON that decodes back to the playlist, leaves the license entry alone, and the saved id and saved playlist agree |
| Orchestrator.ResetClearsRecord | app/src/main/java/com/logicalvalley/digitalSignage/viewmodel/MainViewModel.kt:466-473 | code, id, playlist and license entries read back as `""`, the device-id entry is as before, and the ids agree |
| Orchestrator.NoteLicenseKeepsOthers | app/src/main/java/com/logicalvalley/digitalSignage/viewmodel/MainViewModel.kt:290-296 | noting a license changes no entry but the license |
| Orchestrator.RefreshKeepsIdsAgree | app/src/main/java/com/logicalvalley/digitalSignage/viewmodel/MainViewModel.kt:277-355 | a refresh for the saved playlist id, whatever its answer, keeps the saved playlist's id equal to the saved playlist id |
| Orchestrator.TimelineKeepsIdsAgree | app/src/main/java/com/logicalvalley/digitalSignage/viewmodel/MainViewModel.kt:281-332 | in the success branch the license save touches neither entry, and a newly saved playlist keeps the saved id |
| Orchestrator.ItemsKeepIdsAgree | app/src/main/java/com/logicalvalley/digitalSignage/viewmodel/MainViewModel.kt:290-331 | applying a timeline's items for the saved id keeps the saved playlist's id equal to the saved id |
| Orchestrator.StaleRefreshBreaksIdsAgree | app/src/main/java/com/logicalvalley/digitalSignage/viewmodel/MainViewModel.kt:309-324 | a refresh for an old id that answers after a reset saves a stand-in under the old id while the saved id is blank, and starts caching it |
| Orchestrator.RefreshedIsStable | app/src/main/java/com/logicalvalley/digitalSignage/viewmodel/MainViewModel.kt:308-316 | re-applying the items a saved playlist already carries gives the same playlist back |
| Orchestrator.SamePlaylistSavesNothing | app/src/main/java/com/logicalvalley/digitalSignage/viewmodel/MainViewModel.kt:319-331 | a pass whose items would give the JSON already applied saves no playlist, starts no caching and keeps the applied JSON |
| Orchestrator.TimelineKeepsNotedExpiry | app/src/main/java/com/logicalvalley/digitalSignage/viewmodel/MainViewModel.kt:290-331 | a pass that does not reset keeps the expiry noted from its license and never leaves Loading behind a state that was not Loading |
| Orchestrator.FirstPassSettles | app/src/main/java/com/logicalvalley/digitalSignage/viewmodel/MainViewModel.kt:316-324 | after a pass that applied items, the same answer again would give the JSON the first pass applied |
| Orchestrator.RefreshTwiceSavesOnce | app/src/main/java/com/logicalvalley/digitalSignage/viewmodel/MainViewModel.kt:277-355 | from any state but Loading, the same timeline answer applied twice saves the playlist at most once: the second pass saves no playlist, starts no caching and keeps the applied JSON (from Loading the second pass saves again, since a Loading state always saves) |
| Orchestrator.FreshDeviceShowsQr | app/src/main/java/com/logicalvalley/digitalSignage/viewmodel/MainViewModel.kt:185-226 | a device with nothing saved starts a QR session and, on a good answer, shows that session and joins its device room |
| Orchestrator.RegisterRefusalSavesLicense | app/src/main/java/com/logicalvalley/digitalSignage/viewmodel/MainViewModel.kt:367-377 | a 403 on registration whose body carries an expiry shows LicenseExpired and saves, publishes and parses that expiry |
| Orchestrator.PlayingSurvivesRefresh | app/src/main/java/com/logicalvalley/digitalSignage/viewmodel/MainViewModel.kt:277-355 | a refresh leaves a playing device playing unless it resets or the license is expired; when the saved JSON does not decode the screen is kept and the only effect is the uncaught exception |
| Orchestrator.MainViewModel.constructor | app/src/main/java/com/logicalvalley/digitalSignage/viewmodel/MainViewModel.kt:47-66 | every observable field starts at its initial value (Loading, no license, not connected) |
| Orchestrator.MainViewModel.CheckRegistration | app/src/main/java/com/logicalvalley/digitalSignage/viewmodel/MainViewModel.kt:135-193 | new fields and started work are those of the startup step |
| Orchestrator.MainViewModel.RestoreLicense | app/src/main/java/com/logicalvalley/digitalSignage/viewmodel/MainViewModel.kt:152-155 | a saved expiry other than `""` and `"null"` is published and parsed into the known expiry; otherwise nothing changes |
| Orchestrator.MainViewModel.InitQrRegistration | app/src/main/java/com/logicalvalley/digitalSignage/viewmodel/MainViewModel.kt:195-226 | new fields and started work are those of the QR step |
| Orchestrator.MainViewModel.NoteLicenseExpiry | app/src/main/java/com/logicalvalley/digitalSignage/viewmodel/MainViewModel.kt:290-296 | fields and the saved record change as the license step says |
| Orchestrator.MainViewModel.HandleRegistrationSuccess | app/src/main/java/com/logicalvalley/digitalSignage/viewmodel/MainViewModel.kt:400-437 | fields, saves in order and started work are those of the registration-success step |
| Orchestrator.MainViewModel.Register | app/src/main/java/com/logicalvalley/digitalSignage/viewmodel/MainViewModel.kt:357-398 | fields, saves and started work are those of the register step |
| Orchestrator.MainViewModel.OnRegistrationComplete | app/src/main/java/com/logicalvalley/digitalSignage/viewmodel/MainViewModel.kt:78-81 | the registration-success step with the wrapped playlist's code, or `""` |
| Orchestrator.MainViewModel.ResetRegistration | app/src/main/java/com/logicalvalley/digitalSignage/viewmodel/MainViewModel.kt:462-480 | fields, the four blanking saves and the new QR session are those of the reset step |
| Orchestrator.MainViewModel.OnForceDeregister | app/src/main/java/com/logicalvalley/digitalSignage/viewmodel/MainViewModel.kt:85-88 | exactly the reset step |
| Orchestrator.MainViewModel.ManualDeregister | app/src/main/java/com/logicalvalley/digitalSignage/viewmodel/MainViewModel.kt:452-460 | the server is told first, without waiting, then exactly the reset step |
| Orchestrator.MainViewModel.RefreshTimeline | app/src/main/java/com/logicalvalley/digitalSignage/viewmodel/MainViewModel.kt:277-355 | fields, saves and started work are those of the refresh step for the answer received |
| Orchestrator.MainViewModel.OnTimeline | app/src/main/java/com/logicalvalley/digitalSignage/viewmodel/MainViewModel.kt:281-333 | the success branch does what the timeline step says |
| Orchestrator.MainViewModel.ApplyItems | app/src/main/java/com/logicalvalley/digitalSignage/viewmodel/MainViewModel.kt:304-331 | the item application, continuing a step whose saves are already made, leaves the view model, saved record, save log and follow-up work the items step gives, its save after the earlier ones |
| Orchestrator.MainViewModel.AdoptPlaylist | app/src/main/java/com/logicalvalley/digitalSignage/viewmodel/MainViewModel.kt:319-331 | taking up the merged playlist leaves the view model, saved record, save log and follow-up work the adopt step gives, its save after the earlier ones |
| Orchestrator.MainViewModel.OnTimelineFailure | app/src/main/java/com/logicalvalley/digitalSignage/viewmodel/MainViewModel.kt:334-353 | the failure branch does what the failure step says |
| Orchestrator.MainViewModel.PeriodicTick | app/src/main/java/com/logicalvalley/digitalSignage/viewmodel/MainViewModel.kt:228-251 | one pass of the loop does what the tick step says |
| Orchestrator.MainViewModel.StartCachingPlaylist | app/src/main/java/com/logicalvalley/digitalSignage/viewmodel/MainViewModel.kt:439-450 | items are downloaded one at a time in playlist order; one progress value is published first and one after each item, each the progress over the disk at that point; the state ends as Playing with the last value; nothing else changes |
| Orchestrator.MainViewModel.OnFullscreenEnter | app/src/main/java/com/logicalvalley/digitalSignage/viewmodel/MainViewModel.kt:83 | only the remote command changes, to ENTER_FULLSCREEN |
| Orchestrator.MainViewModel.OnFullscreenExit | app/src/main/java/com/logicalvalley/digitalSignage/viewmodel/MainViewModel.kt:84 | only the remote command changes, to EXIT_FULLSCREEN |
| Orchestrator.MainViewModel.ClearRemoteCommand | app/src/main/java/com/logicalvalley/digitalSignage/viewmodel/MainViewModel.kt:92-94 | only the remote command changes, to none |
| Orchestrator.MainViewModel.OnSocketStatus | app/src/main/java/com/logicalvalley/digitalSignage/viewmodel/MainViewModel.kt:69-71 | only the connection flag changes |
| Orchestrator.MainViewModel.ReportPlaybackError | app/src/main/java/com/logicalvalley/digitalSignage/viewmodel/MainViewModel.kt:101-103 | only the playback error changes, to the reported name, reason and time |
| Orchestrator.MainViewModel.ClearPlaybackError | app/src/main/java/com/logicalvalley/digitalSignage/viewmodel/MainViewModel.kt:105-107 | only the playback error changes, to none |
| Stats.DaysRemaining | app/src/main/java/com/logicalvalley/digitalSignage/ui/stats/StatsScreen.kt:264-268 | zero when the expiry is not after the start of today; otherwise the whole days between them, rounded down |
| Stats.LicenseViewOf | app/src/main/java/com/logicalvalley/digitalSignage/ui/stats/StatsScreen.kt:226-271 | blank gives "Unknown (Check Backend)"; the two sentinels give their server-error texts; otherwise days are known exactly when the first-match parse succeeds, an unparseable text is shown cleaned, and a parsed one is shown formatted with its whole days left |
| Stats.ProcessLicense | app/src/main/java/com/logicalvalley/digitalSignage/ui/stats/StatsScreen.kt:226-271 | the loop that stops at the first accepting layout gives the license view above |
| Stats.StatusColour | app/src/main/java/com/logicalvalley/digitalSignage/ui/stats/StatsScreen.kt:81-85 | green exactly when at least seven days are known to remain |
| Stats.StatusLine | app/src/main/java/com/logicalvalley/digitalSignage/ui/stats/StatsScreen.kt:79 | the status text when days are unknown; otherwise a decimal number whose value is the days, then "days remaining" |
| Player.ItemAt | app/src/main/java/com/logicalvalley/digitalSignage/ui/player/PlayerScreen.kt:39 | an item exactly when the index is in range, and then the item at that index |
| Player.IsVideo | app/src/main/java/com/logicalvalley/digitalSignage/ui/player/PlayerScreen.kt:43 | a video only with media whose MIME type starts with "video" |
| Player.DisplayMillis | app/src/main/java/com/logicalvalley/digitalSignage/ui/player/PlayerScreen.kt:78 | the item's duration in milliseconds, but never under one second |
| Player.Next | app/src/main/java/com/logicalvalley/digitalSignage/ui/player/PlayerScreen.kt:50 | the next index, wrapping from the last item to the first |
| Player.MediaSource | app/src/main/java/com/logicalvalley/digitalSignage/ui/player/PlayerScreen.kt:79 | the cached file when there is one; otherwise the backend's `/api/media/<id>/download` URL for the item's media id, with `null` in place of a missing one |
| Player.ErrorName | app/src/main/java/com/logicalvalley/digitalSignage/ui/player/PlayerScreen.kt:53 | the media's file name, or "Unknown" without media |
| Player.KeptIndex | app/src/main/java/com/logicalvalley/digitalSignage/ui/player/PlayerScreen.kt:38 | the cursor as the screen keeps it across a new playlist: unchanged |
| Player.ShrinkingPlaylistStalls | app/src/main/java/com/logicalvalley/digitalSignage/ui/player/PlayerScreen.kt:38-41 | a cursor at 1 over a new one-item playlist shows nothing |
| Player.ClampedIndex | app/src/main/java/com/logicalvalley/digitalSignage/ui/player/PlayerScreen.kt:38-39 | in range for a non-empty playlist, and unchanged when already in range |
| Player.ClampedIndexShowsItem | app/src/main/java/com/logicalvalley/digitalSignage/ui/player/PlayerScreen.kt:38-41 | with the clamped cursor a non-empty playlist always shows an item |
| Player.ErrorCountdown | app/src/main/java/com/logicalvalley/digitalSignage/ui/player/PlayerScreen.kt:211-219 | the dialog shows 3, 2, 1, 0 in that order before skipping |
| Player.PlayerScreen.constructor | app/src/main/java/com/logicalvalley/digitalSignage/ui/player/PlayerScreen.kt:38 | the cursor starts at the first item with no error |
| Player.PlayerScreen.MoveTo | app/src/main/java/com/logicalvalley/digitalSignage/ui/player/PlayerScreen.kt:82 | the error flag survives a move only when the same item (by id) stays on screen |
| Player.PlayerScreen.OnFinished | app/src/main/java/com/logicalvalley/digitalSignage/ui/player/PlayerScreen.kt:49-51 | the cursor moves to the next item, wrapping, and the playlist is unchanged |
| Player.PlayerScreen.OnTimerElapsed | app/src/main/java/com/logicalvalley/digitalSignage/ui/player/PlayerScreen.kt:108-113 | the item is skipped when its media did not fail; a failed item stays, with its flag |
| Player.PlayerScreen.OnMediaError | app/src/main/java/com/logicalvalley/digitalSignage/ui/player/PlayerScreen.kt:52-54 | the flag is raised, and the file name (or "Unknown") and the reason are reported |
| Player.PlayerScreen.OnDialogSkip | app/src/main/java/com/logicalvalley/digitalSignage/ui/player/PlayerScreen.kt:193-200 | the cursor moves on; the video player clears the flag, while the image player keeps it for the same item |
| Player.PlayerScreen.ShowPlaylist | app/src/main/java/com/logicalvalley/digitalSignage/MainActivity.kt:96-120 | corrected half of the finding below, not what the code does: the new playlist replaces the old, the cursor stays where it can and otherwise goes back to the first item, and a non-empty playlist always has an item on screen |
| Registration.QrPayload | app/src/main/java/com/logicalvalley/digitalSignage/ui/registration/RegistrationScreen.kt:49-57 | a payload only for a URL starting with "data:image", and then the text after the first comma |
| Registration.PayloadOfBuiltUrl | app/src/main/java/com/logicalvalley/digitalSignage/ui/registration/RegistrationScreen.kt:51-52 | a data URL built from a header without commas gives back its payload, commas included |
| Registration.RegistrationForm.constructor | app/src/main/java/com/logicalvalley/digitalSignage/ui/registration/RegistrationScreen.kt:41-42 | the form starts with an empty code and the QR shown |
| Registration.RegistrationForm.RegisterEnabled | app/src/main/java/com/logicalvalley/digitalSignage/ui/registration/RegistrationScreen.kt:211-213 | the button is enabled exactly for a code of five UTF-16 code units |
| Registration.RegistrationForm.OnValueChange | app/src/main/java/com/logicalvalley/digitalSignage/ui/registration/RegistrationScreen.kt:150-157 | a text longer than five UTF-16 code units is refused; an accepted text replaces the code; registration fires exactly when the text is five code units long, with that text |
| Registration.RegistrationForm.OnRegisterClick | app/src/main/java/com/logicalvalley/digitalSignage/ui/registration/RegistrationScreen.kt:212 | registers exactly when the code is complete, with that code |
| Registration.RegistrationForm.ToggleQr | app/src/main/java/com/logicalvalley/digitalSignage/ui/registration/RegistrationScreen.kt:199 | switches between QR and code entry, keeping the code |

## Left out

- Coroutines and timing are not modelled.
  - The 2-second startup delay, the 30-second `while (true)` loop and the 100-millisecond
    pause before a new QR session are left out.
  - Each handler runs atomically.
  - Work a handler launches is returned as an `Effect`; the caller decides when it runs.
  - The periodic loop is one `PeriodicTick` pass.
- Interleavings of launched work are not modelled. Example: a refresh answer arriving after a
  reset. `Orchestrator.StaleRefreshBreaksIdsAgree` shows what such an answer does.
- The push channel's transport is not modelled: connecting, joining, pinging and
  `disconnect` in `onCleared`. Emits are effects, and incoming events are method calls.
- Retrofit, HTTP and the Gson parsing of error bodies are not modelled. A reply arrives
  already parsed as an `HttpReply`.
- Gson encoding and decoding are abstract functions in `Env`. The project relies only on
  `JsonLaws`.
- `SimpleDateFormat`, `Calendar` and the clock are not modelled.
  - Parsing with one layout is an abstract `LayoutParser`.
  - Display formatting of a date is a parameter.
  - Start of today and `now` are millisecond parameters.
- Copying response bytes to a file is not modelled; a `Transfer` says how it went. A
  download throwing for a reason other than the transfer is not separated from
  `Unreachable`.
- Kotlin `Float` progress is a Dafny `real`, so its rounding is not modelled.
- Compose rendering is not modelled: layouts, the loading, license-expired and statistics
  screens, themes, ExoPlayer, Coil and the Base64 decoding of the QR image. Logging is also
  left out.
- Orchestrator.MainViewModel.StartCachingPlaylist: models one caching pass. An earlier pass
  that is still running when a new playlist starts caching is not modelled.
- Orchestrator.RefreshKeepsIdsAgree: it holds only for a refresh of the currently saved
  playlist id. `Orchestrator.StaleRefreshBreaksIdsAgree` shows that a refresh for an older
  id can break the agreement.
- Orchestrator.MainViewModel.Register: the interim `Loading` state it publishes is not
  observable in the atomic model. Only the step function starts from it.
- Player.PlayerScreen.OnFinished, OnTimerElapsed, OnMediaError, OnDialogSkip: these require
  an item on screen, because the source only creates these callbacks for a rendered item.
- Player.ErrorCountdown: dismissing the dialog early (`onDismissRequest`) is not modelled.

## Findings

| source | as written | input that shows it | evidently intended | confidence | as-written member | corrected member |
|---|---|---|---|---|---|---|
| app/src/main/java/com/logicalvalley/digitalSignage/ui/player/PlayerScreen.kt:38-39 | the cursor is remembered without a key. The player screen stays in place when one `Playing` state follows another (app/src/main/java/com/logicalvalley/digitalSignage/MainActivity.kt:96-120), so the cursor survives a new playlist | cursor at index 1 of a two-item playlist; a timeline refresh leaves one item. `getOrNull(1)` is null, nothing is drawn, and no timer or dialog exists to move the cursor, so the screen stays blank until the playlist grows or the state changes | the cursor brought back into range when the playlist changes | not executed | Player.KeptIndex, Player.ShrinkingPlaylistStalls | Player.ClampedIndex, Player.ClampedIndexShowsItem, Player.PlayerScreen.ShowPlaylist |
