# Live-state replication of the republisher daemon: a verified model

The daemon keeps one lock-protected state. Worker events and HTTP handlers change it and broadcast
JSON deltas while they hold the lock; a browser takes a snapshot, subscribes, and folds the deltas
into its own mirror. This project models both halves and proves what a mirror tells about the daemon
in every run, with and without loss, together with the small stateful parts the daemon relies on.

| Module (file) | What it is |
|---|---|
| Text, Json, Identity (`Text.dfy`, `Identity.dfy`) | trimming, splitting, decimal numbers; JSON scalars; the point key |
| Coercion, Cookie, Settings | string and typed forms that must undo each other; the settings form as a lens |
| Throttle, LoginProtocol, Sessions | login-failure window, concurrent logins, session table |
| Model, Points, PointList | data and views; the configured point list |
| Server, WebState, Replies | each event and request as small operations; the state object that carries them out; what replies tell |
| Views, Reports, Accounts, Edits | a second account of what is shown, reported, said and edited, in the data's own fields |
| Mirror, Simulation, Replication, Statuses, Delivery, Lossless, Exact, Gaps | the page, and the theorems that relate it to the daemon |
| Session | the two objects at work together |
| Windows, Broadcast, Workers | bounded rings; the bounded broadcast buffer; republisher runs |
| EnvConfig | environment overrides at start |

How the pieces fit. `Server` gives every action as a list of operations, each with its new state and
at most one item of history: a delta that is sent, or a mark that some part of the state was changed
without being sent. The methods of the class `WebState` do what the handlers do, in their order, and
are proved to produce exactly that. `Reports`, `Accounts` and `Edits` say again, from the event or request
alone, what each does to the statuses, the lists, the log and the configuration, and `Views` what is shown
of them, so that the operations and views the theorems compare are themselves pinned down. `Mirror` does the same for the page. `Simulation` shows that each
operation keeps a mirror right on every part not marked as left behind, whether its delta arrives or
not; `Replication` carries this over whole runs, for every choice of delivered deltas at once, and
`Statuses` adds the exact condition for every single point. `Lossless` shows which parts can be behind
when nothing is lost; `Exact`, over runs, and `Gaps`, for one action, say exactly when they are. `Broadcast` derives the
choice of delivered deltas from the buffer of 256 and from the gap between snapshot and subscription,
with reads falling between any two operations. `Session` brings the theorems back to the objects: a
`WebState` and a `Page` in step, delta by delta.

Everything the daemon gets from the protocol core, the clock and the disk is an arbitrary function or
parameter (`Core`, `disk`), so the theorems hold for any of them. Stop flags are numbered in order of
creation. A delta lost is a `false` in the list of what was delivered. Points are required to have
field names without `=`, which the key needs (`NameWithEqualsCollides`).

Where the code and its comments disagree the model follows the code. `src/web/api.rs:145` says that a
lagged page re-syncs from deltas. It does so part by part: what a delta replaces whole is right again
with the next such delta delivered (`HealedPartAgrees`), a point's status with the next that names it
(`NamingHeals`), the sample window after 200 samples and the log after 500 records in a row
(`SamplesHeal`, `LogsHeal`). Until then it can be wrong (`LostReportShowsWrong`), a status exactly when
the last word heard is not the last word said (`ShownRightIff`); nothing re-sends what was lost.

## Model

| member | source | states |
|---|---|---|
| WebState.WebState.constructor | src/web/state.rs:78-121 | A new state is the start of its own run: one boot record, nothing sent, nothing done |
| WebState.WebState.Emit | src/web/state.rs:129-132 | One delta is added to what was sent, in order; the state is untouched |
| WebState.WebState.AppendLog | src/web/state.rs:236-249 | The ring becomes the last 500 of ring plus record; the record has the next number and its time |
| WebState.WebState.SetStatus | src/web/state.rs:134-140 | Status line and log ring change together and the delta carries both |
| WebState.WebState.SaveConfig | src/web/state.rs:142-160 | Refuses an invalid configuration before writing; the error is the reported one, and the in-memory configuration stays |
| WebState.WebState.ApplyEvent | src/web/state.rs:263-395 | Every worker event gives the specified state, and the specified deltas in the specified order |
| WebState.WebState.ApplyDevices | src/web/state.rs:270-283 | Devices replaced, one warning record per warning in order, then the list sent |
| WebState.WebState.RecordSamples | src/web/state.rs:314-329 | The loop over readings equals the fold of reports: statuses, changed views, and the batch pushed backwards in front of the ring |
| WebState.WebState.TrimSamples | src/web/state.rs:330-332 | Dropping from the back one by one leaves the first 200 |
| WebState.WebState.ApplySamples | src/web/state.rs:314-334 | Statuses, ring and delta of a batch of readings |
| WebState.WebState.RecordFailures | src/web/state.rs:335-346 | The loop over failed readings equals the fold of reports |
| WebState.WebState.ApplyFailures | src/web/state.rs:335-348 | Statuses and delta of failed readings |
| WebState.WebState.RecordPublish | src/web/state.rs:362-376 | The key built from the identity alone is the key the point lists use |
| WebState.WebState.ApplyPointPublish | src/web/state.rs:362-377 | Status and delta of one publish result |
| WebState.WebState.AddBrowsedPoint | src/web/api.rs:409-440 | Upsert by identity of the browsed point with the fixed defaults |
| Mirror.Page.ConnectionValues | web/app.js:61-72 | The loop over the active protocol's fields gives the connection form's values |
| Mirror.Page.TakePointStatuses | web/app.js:200 | Each listed point's status enters the table, later points last |
| Mirror.Page.SyncPointStatuses | web/app.js:282-286 | Every listed point takes the table's status for its key and nothing else of it changes |
| Session.Session.constructor | web/app.js:170-183 | A page that connects to a daemon object reached by a run is in step with it from its snapshot on |
| Session.Session.Serve | src/web/api.rs:160-592 | Any request, served by the object, keeps daemon and page in step; the run since the snapshot grows by it |
| Session.Session.Drain | src/web/state.rs:251-261 | So does any worker event |
| Session.Session.Offer | src/web/api.rs:142-148 | So does the next delta, whether it reaches the page object or is lost |
| Session.Session.PageAgrees | src/web/api.rs:135-151 | Whenever all that was sent has been offered, whatever was lost, the page object agrees with the daemon object on every part not left behind, and the daemon object holds the windows of all it sent |
| Simulation.ChangedViewsExact | src/web/state.rs:314-376 | For any batch, repeated identities included, the delta tells under an identity's key exactly its new status, and no key stands for another identity |
| Simulation.SameKeySameStatus | src/web/state.rs:162-179 | Configured points shown under one key have one status |
| Simulation.ReportedView | src/web/state.rs:335-348 | A point's view after reports is its view before with the delta's status put in |
| Simulation.ReportsKeepPoints | web/app.js:246-251 | Merging a status delta takes an agreeing point list and table to an agreeing one, duplicates and leftovers included |
| Simulation.StoreKeepsPoints | src/web/state.rs:162-179 | An edit that leaves the points alone leaves the shown list right, but for topics |
| Simulation.PointsAndTopics | src/web/state.rs:162-179 | A shown list right in its points and in its topics is the daemon's whole list |
| Simulation.OpKeepsAgreement | src/web/state.rs:263-395 | Each operation, with its delta delivered or lost, keeps every part of the mirror equal to the daemon's unless marked behind |
| Replication.DoKeeps | web/app.js:186-280 | The same for every choice of delivered deltas at once |
| Replication.RequestPlain | src/web/api.rs:160-592 | Requests bring in only points whose field names are the declared ones |
| Replication.NextKeeps | src/web/state.rs:263-395 | Every event and every request keeps the agreement, for every choice of delivered deltas |
| Replication.RunKeeps | src/web/state.rs:251-261 | So does every run |
| Replication.FreshSnapshotAgrees | src/web/state.rs:202-233 | A client that has just taken a snapshot agrees on everything |
| Statuses.MirrorTells | src/web/api.rs:135-151 | After any run from a snapshot of any state and any choice of delivered deltas, each part of the mirror not marked behind equals the daemon's, and each shown status, behind or not, is right exactly when the last word heard of its key is the last word said |
| Statuses.ShownRightIff | src/web/state.rs:314-376 | Point by point: the shown status is the last word heard of the key, the daemon's is the last word said, clears and edits included |
| Statuses.RunKeepsWord | src/web/state.rs:314-376 | In every run the daemon's status of every identity is the last word sent of its key, or unknown since a clear |
| Statuses.ShowsHeard | web/app.js:230-251 | For any deliveries the page's table, and every shown point, is the last word heard of the key |
| Statuses.NamingHeals | web/app.js:246-251 | One delivered delta that names a key makes its points right, whatever was lost before, until something newer is said of it |
| Statuses.LostReportShowsWrong | src/web/api.rs:142-148 | A run in which the page is wrong: the first report on an unread point is lost, and the page shows unknown, which the daemon's status is not |
| Replication.HealedPartAgrees | src/web/api.rs:142-148 | Self-healing: in any run and whatever was lost before, once a delta that carries a part whole is delivered the mirror's part equals the daemon's, until that part is next lost or changed unsent |
| Replication.UntouchedPartAgrees | src/web/api.rs:142-148 | A part of which nothing is lost or changed unsent equals the daemon's from the snapshot on, whatever is lost of the others |
| Replication.LosslessStale | src/web/api.rs:142-148 | For a client that gets everything, only changes the daemon does not send leave a part behind |
| Replication.MarkedIsUnsent | src/web/state.rs:263-395 | Which parts each operation leaves unsent or sends |
| Delivery.HandleKeepsHeld | web/app.js:186-280 | A delta of another kind leaves a shown whole value alone |
| Delivery.HeldUntilNext | web/app.js:186-280 | A shown value stays until a delta of its kind is delivered |
| Delivery.ShowsLastDelivered | web/app.js:215-276 | Under any loss a client shows the value of the last delivered delta of each kind |
| Delivery.ShowsSnapshotUntilThen | web/app.js:188-201 | and until there is one, each of the nine parts as the snapshot gave it |
| Lossless.WorkerLeaves | src/web/state.rs:263-395 | A worker event leaves nothing unsent, but for the scan progress after a bulk import |
| Lossless.RequestLeaves | src/web/api.rs:160-592 | A request whose save works leaves nothing unsent, but for topics after new settings and counters after a start |
| Lossless.LosslessMirror | src/web/api.rs:135-151 | Without loss and with working saves the whole mirror equals the daemon's state at every action's end, but for exactly what is unsent just then |
| Exact.LosslessExact | src/web/api.rs:135-151 | At every action's end of such a run at most counters, scan progress and topics are unsent; each of the three is shown right exactly when it is not unsent, or zero counters, no progress, or a list with the present topics was told last |
| Exact.RunKeepsReset | src/web/state.rs:302 | In every run unsent counters are zero without error, and unsent scan progress is none |
| Exact.PlayTold | web/app.js:226-261 | A page that gets everything shows the counters, progress and point list last told |
| Gaps.StartCountersIff | src/web/api.rs:566-579 | After a start the shown counters are right exactly when they were already zero with no error |
| Gaps.ImportProgressIff | src/web/state.rs:300-313 | After a bulk import the shown scan progress is right exactly when there was none |
| Gaps.SettingsTopicsIff | src/web/api.rs:536-538 | After new settings the shown point list is right exactly when no configured point's topic changes |
| Gaps.FailedSaveIff | src/web/api.rs:353-354 | After a point edit whose save fails the shown point list is right exactly when the edit changes no point |
| Gaps.FailedConfigIff | src/web/api.rs:196-198 | After any edit whose save fails the shown configuration is right exactly when the edit changes nothing a page can see |
| Windows.ServerRings | src/web/state.rs:236-249 | In every run the log ring is the last 500 of all records, numbered without gaps up to the counter, and the sample ring the first 200 of all batches newest first, each backwards |
| Windows.BootedLogs | src/web/state.rs:236-249 | From the start the ring holds the last min(500, n) records, numbered up to n |
| Windows.ClientRings | web/app.js:208-210 | The page's rings are the same windows over the deltas it received, batches in order |
| Windows.LogsHeal | web/app.js:208-210 | Without loss the log rings are equal; after any loss they are again once 500 records in a row arrive |
| Windows.LogsStayOrdered | web/app.js:208-210 | Under any loss the shown log stays strictly increasing in number |
| Windows.SampleWindowsMirror | web/app.js:238-239 | Without loss both windows hold each batch that fits at the same place, the daemon's backwards |
| Windows.SampleWindowsEqual | src/web/state.rs:327-332 | Without loss the windows have one length, and are equal when no batch has two samples |
| Windows.SamplesHeal | web/app.js:238-239 | After any loss both windows are again so related once 200 samples in a row arrive |
| Broadcast.FollowTracks | src/web/api.rs:135-151 | In every interleaving of single operations, subscription and reads the page is the fold of what it was given |
| Broadcast.SubscriberAgrees | src/web/api.rs:135-151 | A reader that has read what was sent up to some moment, inside an action or at its end, agrees with the state of that moment on every part not left behind |
| Broadcast.EveryReaderAgrees | src/web/api.rs:135-151 | With subscription and reads anywhere between two operations, and any lag, there always is such a past moment, so every reader at all times agrees with a real past state |
| Broadcast.KeepingUpLosesNothing | src/web/api.rs:138-142 | A reader that subscribes before anything changes and reads, be it during an action, before it is over 256 deltas behind, gets every one |
| Broadcast.ReadCatchesUp | src/web/api.rs:142-148 | A read by a reader over 256 deltas behind loses exactly those before the last 256; any other read is given the next |
| Broadcast.LostOnlyByLag | src/web/api.rs:138-148 | In every interleaving a delta is lost if it was sent before the subscription, and else only if at least 256 newer ones followed it |
| Workers.AskFrame | src/web/api.rs:544-592 | Only an accepted start or a stop touches the run: a new flag and zero counters, or the current flag raised |
| Workers.WorkerFrame | src/web/state.rs:349-389 | Only lifecycle and publish events touch the run |
| Workers.StepKeeps | src/web/api.rs:544-592 | The lifecycle invariant survives every step of requests, jobs, the worker and the drain |
| Workers.RunKeepsInvariant | src/web/api.rs:544-592 | It holds in every reachable state |
| Workers.RefusedIffRunning | src/web/api.rs:548-555 | In every reachable state under the discipline a start is a conflict exactly while a worker is live or an event of its run is still in the channel |
| Workers.SingleLiveWorker | src/web/api.rs:544-592 | In every reachable state at most one worker is live, the stop flag is its own and raised exactly when a stop was asked for since its start, and a start is refused until its terminal event has been applied |
| Workers.SecondWorkerIff | src/web/api.rs:548-555 | A further start brings up a second worker exactly when one is live whose starting event has not been applied |
| Workers.HastyStartsRunTwo | src/web/api.rs:548-555 | Two starts with nothing applied in between run two workers |
| Workers.HonestBound | src/web/state.rs:349-354 | Reports that never acknowledge more than was published bound the maximum by the sum |
| Workers.CountersOfTheRun | src/web/state.rs:349-354 | In every reachable state the counters are sum, maximum and latest error of the current run's applied reports; acknowledged never exceeds published if the reports are honest |
| Points.UpsertPoint | src/web/api.rs:424-435 | The search and replacement is the upsert |
| Points.UpsertKeepsOthers | src/web/api.rs:424-435 | All other identities keep their points and order, and the new point is in the list |
| Points.UpsertIdempotent | src/web/api.rs:424-435 | Adding a browsed point twice is adding it once |
| Points.UpsertKeepsDistinct | src/web/api.rs:424-435 | A duplicate-free list stays so |
| Points.MergeHolds | src/web/envcfg.rs:147-155 | After a merge each imported identity's first point is its last import |
| Points.MergeIdempotent | src/web/envcfg.rs:147-155 | Merging the same list again changes nothing |
| Points.MergeKeepsOthers | src/web/envcfg.rs:147-155 | A merge leaves the points it does not mention, in their order, and a duplicate-free list stays so |
| PointList.RequestConfig | src/web/api.rs:327-440 | The configuration after a request is the edited one, whether or not the save works |
| PointList.WorkerConfig | src/web/state.rs:300-303 | Only a bulk import edits the configuration among the events |
| PointList.StepDistinctIff | src/web/api.rs:327-440 | An action keeps a duplicate-free list so exactly when it is no form save that repeats another point's identity and no import with repeats |
| PointList.RunDistinctIff | src/web/api.rs:327-440 | Over any run the list is duplicate-free throughout exactly when every action is such; browse-add, toggle, delete and clear always are |
| Replies.NotFoundChangesNothing | src/web/api.rs:219-592 | After a not-found or conflict reply state and history are as they were |
| Replies.RefusedKeepsContent | src/web/api.rs:114-592 | A refused request that does not save changes nothing but status line and log |
| Replies.ReplyTellsOfSave | src/web/api.rs:184-540 | An accepted edit means the configuration in memory is valid and written; a refused one that it is unchanged, or changed and not written |
| Replies.FileFollows | src/web/state.rs:142-160 | Whatever the file held at the start, from the first written edit on and until an unwritten one it holds what a save of the configuration in memory puts there |
| Replies.FileStays | src/web/state.rs:142-160 | and so from a start at which it held that |
| Replies.SwitchIsNotWritten | src/web/api.rs:160-176 | An accepted protocol switch leaves the file as it is, and puts one that was up to date behind exactly when it changes the protocol |
| Edits.SavedPoint | src/web/api.rs:327-356 | After a form save the point at the index, or last, has the switch, the device key and tag path less edge space, the interval or 1, and exactly the fields declared, each stored as its own text says; every other point and setting stays |
| Edits.AddedPoint | src/web/api.rs:409-440 | After an add from browse the point found, enabled and at ten seconds, is in the first slot of its identity or last; all else stays |
| Edits.ToggledAndDeleted | src/web/api.rs:363-390 | A toggle sets one switch, a deletion takes one point out; out of range nothing changes |
| Edits.Cleared | src/web/api.rs:392-399 | Clearing takes out all points and nothing else |
| Edits.SavedConnection | src/web/api.rs:184-196 | A saved connection form gives the protocol in use exactly its declared fields; other protocols keep theirs |
| Edits.SavedSettings | src/web/api.rs:503-536 | Saved settings reach the configuration as they are stored, points, connections and protocol aside |
| Edits.SwitchedProtocol | src/web/api.rs:160-168 | A switch to a known protocol changes the protocol alone, any other nothing |
| Accounts.EventsAccount | src/web/state.rs:263-395 | For every event but reports on points: devices, browsed points, scan progress and status line afterwards, and the records and deltas sent, in their order, with level and text |
| Accounts.RequestsAccount | src/web/api.rs:114-592 | The same for every request, and its reply: the refusals, each with its condition, the failed save with its message, and acceptance |
| Accounts.WrittenWhen | src/web/state.rs:142-160 | The file is written exactly by an import, or a saving request that is not refused, when the configuration it leaves is valid and the disk takes it |
| Accounts.BootAccount | src/web/state.rs:93-110 | What the daemon starts with |
| Reports.FailuresTell | src/web/state.rs:335-348 | After failed readings each identity has its stored or a fresh status, updated as read failures with exactly its own errors in order; the one delta tells of exactly the identities that failed, and nothing else changes |
| Reports.SamplesTell | src/web/state.rs:314-334 | The same for readings, with exactly its own samples |
| Reports.PublishTells | src/web/state.rs:362-377 | A publish result without error is a success, one with an error a failure with its message, for that identity alone, under its joined key |
| Reports.SamplesEnterRing | src/web/state.rs:327-332 | The ring after a batch: its rows last first, then what was there, 200 at most; the delta has them in order |
| Views.StatusShown | src/web/dto.rs:176-210 | The chip is publish_error, read_error, stale, ok or unknown exactly when it should be, in this precedence; every other field is the status's own |
| Views.PointShown | src/web/dto.rs:227-246 | A row shows its place, its own settings, key and topic, and the status of its identity |
| Views.PageShowsPoints | src/web/state.rs:162-179 | After any run and any loss a page whose list is not behind shows the daemon's points in order, each with its settings, chip and status |
| Views.SampleShown | src/web/dto.rs:260-271 | A sample's row |
| Views.DeviceShown | src/web/dto.rs:95-103 | A device's row |
| Views.BrowsedShown | src/web/dto.rs:124-137 | A browsed point's row |
| Views.LifecycleShown | src/web/dto.rs:273-282 | Each phase has its own word; only a failure has an error, its own |
| Views.ConfigShown | src/web/dto.rs:285-296 | The shown configuration is the daemon's without its two secrets, of which it tells only whether they are set |
| Views.ConnectionShown | web/app.js:61-72 | The connection form shows, for each field of the protocol in use, what is stored for that protocol or the default |
| Views.StatusBarShown | src/web/state.rs:185-200 | The status object's fields; the stale count is of the identities whose status is stale, each once |
| Coercion.BuildAddressing | src/web/api.rs:60-76 | The loop over the fields gives the typed map |
| Coercion.ConnectionStrings | web/app.js:61-72 | The loop over the fields gives stored value or default as text |
| Coercion.BuiltAt | src/web/api.rs:60-76 | The map has exactly the declared fields, each the coercion of its text by the last field of its name |
| Coercion.CoercePrinted | web/app.js:52-56 | Printing a value and coercing the text gives it back exactly when its kind can produce it and, for a number, its text is read back |
| Coercion.BuiltIsNormal | src/web/api.rs:60-76 | What is built is in normal form |
| Coercion.UneditedSaveIffNormal | src/web/api.rs:60-76 | Showing a stored map and saving it untouched gives it back exactly when it is in normal form |
| Coercion.CoercionIsStable | web/app.js:52-72 | Whatever was typed, building, showing and building again is building once, for numbers up to 2^53 |
| Coercion.StableIff | web/app.js:52-72 | Whatever was typed, building, showing and building again is building once exactly when each stored number is read back from the text the browser prints for it |
| Coercion.UneditedSaveIff | src/web/api.rs:60-76 | For any stored map, saving it as shown gives it back exactly when it is in normal form and its numbers are so read back |
| Coercion.LargeNumberDrifts | web/app.js:52-56 | The input at which stability fails: 2^53 + 1 typed into a number field is stored, and comes back as 2^53 from an untouched form |
| Coercion.FieldsStored | src/web/api.rs:60-76 | What is stored for any specs and any texts sent: a flag is set by the text true alone; a number field holds n exactly when the text is white space, an optional plus, digits of value n below 2^64 and white space, else the text as it came; an absent or blank text stores false or itself |
| Coercion.CoercedIsStored | src/web/api.rs:64-73 | Each text has exactly one such value |
| Coercion.FieldsShown | web/app.js:52-72 | The form shows the stored value of a field, or the default of the last spec of its name, as text; nothing for null or neither |
| Text.ParsePrinted | src/web/api.rs:65-69 | Parsing inverts decimal printing over the whole type |
| Text.TrimIdempotent | src/web/api.rs:489-494 | Trimmed text has no edge space, and trimming it again changes nothing |
| Text.TrimIs | src/web/api.rs:336 | The trimmed text is the one text without edge space that the given one is, white space aside |
| Text.WhiteSpaceIs | src/web/api.rs:336 | White space is the 25 code points of the property |
| Text.ReadsSpelled | src/web/api.rs:65-68 | Trimming and parsing gives n exactly when the text spells n, and n is of the type |
| Text.LeadingZero | src/web/api.rs:65-68 | Leading zeros do not count |
| Json.RenderIsScalarText | src/web/dto.rs:150-155 | A rendered value is a closed quoted string or a token without comma |
| Json.ScalarPrefixFree | src/web/dto.rs:150-155 | Before a comma or the end, such a text can be read in one way only |
| Json.RenderInjective | src/web/dto.rs:150-155 | Different values render differently, escapes included |
| Json.ReadRendered | src/web/dto.rs:150-155 | A rendered value, read as JSON, is that value: the escapes are those of section 7 of RFC 8259 |
| Identity.IdentifyEntries | src/web/dto.rs:147-149 | An identity lists exactly the fields of the addressing, in strictly increasing order of name, with rendered values |
| Identity.LeIsLexical | src/web/dto.rs:147-149 | That order is lexical: by the first character that differs, a beginning first |
| Identity.IdentifyInjective | src/web/dto.rs:148-149 | Two maps with one identity are one map |
| Identity.KeyInjective | src/web/dto.rs:147-156 | Two identities with one key are one identity, whatever commas and equals signs their values contain |
| Identity.AddressingKeyInjective | src/web/dto.rs:147-156 | Two maps with one key are one map when field names have no equals sign |
| Identity.NameWithEqualsCollides | src/web/dto.rs:150-155 | The condition on names cannot just be dropped: any two plain fields have the key of one field with a longer name |
| Settings.ParseIntPrinted | web/app.js:914 | The number input gives a printed number back, and the fallback for zero |
| Settings.NonEmptyFixed | src/web/api.rs:489-494 | An optional text survives being shown and saved exactly when it is absent, or not empty and without edge space |
| Settings.UneditedSaveIff | web/app.js:896-921 | An unedited form is refused exactly when its keep-alive time does not fit the field; submitting it leaves the configuration alone, secrets it never saw included, exactly when it is refused, or the configuration is normalised and the time arrives as it was |
| Settings.LargestKeepAliveIsRefused | src/web/api.rs:483 | A stored time of 2^64 - 1, which a browser prints too large, makes the form unsavable |
| Settings.UneditedSaveIffNormalised | web/app.js:896-921 | For keep-alive times up to 2^53, exactly when it is normalised |
| Settings.SavedIsShown | src/web/dto.rs:285-296 | What was put is what the form shows next, with nothing of a secret but whether it is set; saving that again changes nothing |
| Settings.ThenAssociative | src/web/api.rs:496-501 | Keep, clear and replace compose associatively |
| Settings.TwoSaves | src/web/api.rs:503-540 | Two saves are one save of the composed request |
| Settings.SavesCompose | src/web/api.rs:503-540 | Any run of saves is one save |
| Settings.NonEmptyIs | src/web/api.rs:489-494 | An optional text is stored without its edge space, and absent exactly when it is blank or was not sent |
| Settings.PutStores | src/web/api.rs:503-534 | After a save every setting is what its own field of the request says: secrets absent, empty or other keep, clear or become that text; the time is at least 1; what is not in the form stays |
| Settings.NumbersSent | web/app.js:901-914 | The port and time a form sends, by the number its text begins with: no port is 0, one outside 16 bits is refused; no time, or 0, is 30, a negative one 1 |
| Settings.FormStored | web/app.js:896-921 | What a submitted form stores, however edited: each setting is what its own input says |
| Settings.SecretsStored | web/app.js:827-842 | A secret whose input was not touched stays; else the last touch decides: typed text is the secret, an emptied input or the Clear button clears it |
| Cookie.SegmentReads | src/web/auth.rs:181-184 | A printed segment gives its value exactly when it names the session cookie |
| Cookie.ParsingInvertsPrinting | src/web/auth.rs:179-185 | Parsing a printed header gives the first session pair's value or none, with values containing equals signs, bare segments and any spacing |
| Cookie.SetCookieCarriesToken | src/web/auth.rs:168-176 | The cookie set at login is read back as its token, with and without its attributes |
| Cookie.CookieSegments | src/web/auth.rs:168-176 | The set cookies split into exactly their attributes: Path, HttpOnly, SameSite=Strict, Max-Age=0 on the clearing one, and Secure exactly when asked for |
| Throttle.PruneTwice | src/web/auth.rs:146-166 | Pruning at one time is invisible at every later time |
| Throttle.CheckedAgrees | src/web/auth.rs:146-155 | The pruned table answers as the full history does: throttled exactly at ten failures under 60 seconds old |
| Throttle.RecordedAgrees | src/web/auth.rs:157-166 | Recording with pruning of all addresses keeps that |
| Throttle.RecordedIsTight | src/web/auth.rs:160-165 | An address is kept exactly while it has a failure in the window |
| Throttle.CountIsRecent | src/web/auth.rs:146-155 | What is counted is the number of recorded failures of the address under 60 seconds old |
| Throttle.TenInAMinute | src/web/auth.rs:17-19 | An address is refused exactly at ten of them, whatever has been pruned |
| Throttle.LoginGuard.Throttled | src/web/auth.rs:146-155 | The answer is the full history's, and the table is pruned for this address only |
| Throttle.LoginGuard.RecordFailure | src/web/auth.rs:157-166 | The failure joins the history; the table holds exactly the addresses with failures in the window |
| LoginProtocol.StepKeepsBudget | src/web/api.rs:626-634 | Failures in the window plus checked attempts stay within 9 + c at every step |
| LoginProtocol.RunKeepsBudget | src/web/api.rs:626-634 | and in every run |
| LoginProtocol.ConcurrentLoginBound | src/web/api.rs:626-634 | With at most c logins of an address in flight its failures in the window never exceed 9 + c |
| LoginProtocol.BoundIsReached | src/web/api.rs:626-634 | For every c some run reaches 9 + c |
| Sessions.AgreesAt | src/web/auth.rs:126-136 | The pruned table answers as the full history does |
| Sessions.LiveIs | src/web/auth.rs:17 | A token is live exactly when it was created under 24 hours ago and neither created again nor removed since |
| Sessions.DeadStaysDead | src/web/auth.rs:126-143 | A refused token stays refused until it is created again |
| Sessions.SessionTable.CreateSession | src/web/auth.rs:114-124 | The creation joins the history; sweeping expired entries changes no answer |
| Sessions.SessionTable.CheckSession | src/web/auth.rs:126-136 | True exactly when the latest creation has no later removal and is under 24 hours old |
| Sessions.SessionTable.RemoveSession | src/web/auth.rs:138-143 | The removal joins the history and only this token goes |
| Sessions.LoginRoundTrip | src/web/api.rs:618-662 | A session created at login is valid for its day and never after logout |
| EnvConfig.Step | src/web/envcfg.rs:36-131 | One variable keeps every field equal to its variable's parsed value if read and set, else to the stored one |
| EnvConfig.FlagWords | src/web/envcfg.rs:10-19 | A flag is set by 1, true, yes or on, cleared by 0, false, no or off, in any case and with white space around, and else refused |
| EnvConfig.FormatWords | src/web/envcfg.rs:110-117 | The words for each payload format |
| EnvConfig.NumbersRead | src/web/envcfg.rs:21-33 | A port is a spelled number of 16 bits; a time one of 64 bits that counts as 1 at least |
| EnvConfig.SetWhen | src/web/envcfg.rs:6-8 | A variable has a value exactly when it holds more than white space |
| EnvConfig.RefusedWhen | src/web/envcfg.rs:10-146 | Exactly when a set variable is refused, by the text it holds and, for the connection, the protocol after the overrides |
| EnvConfig.BrokerGiven | src/web/envcfg.rs:45-64 | After readable overrides the broker settings, from the texts of the environment alone |
| EnvConfig.SecretsGiven | src/web/envcfg.rs:66-97 | the login and certificate settings, where a named secret that is found goes before a password |
| EnvConfig.PublishingGiven | src/web/envcfg.rs:98-131 | the publishing settings |
| EnvConfig.DataGiven | src/web/envcfg.rs:40-43 | and protocol, connections and points |
| EnvConfig.Loaded.MergeConnection | src/web/envcfg.rs:139-142 | Inserting the fields one by one is the merge into the selected protocol's connection |
| EnvConfig.Loaded.Override | src/web/envcfg.rs:36-156 | Reading one more variable: unset and refused ones change nothing |
| EnvConfig.Loaded.ApplyEnvOverrides | src/web/envcfg.rs:36-159 | Succeeds exactly when every set variable is readable, and then every field is the parsed value or the stored one, with one note per set variable; else stops at the first bad one in order |
| EnvConfig.OverridesIdempotent | src/web/envcfg.rs:36-159 | A second application never fails and changes nothing |
| EnvConfig.MergeTargetsNewProtocol | src/web/envcfg.rs:133-143 | The connection merge goes to the protocol selected after the overrides; all others keep theirs |

## Left out

- WebState.WebState.SaveConfig: how the file is written is not modelled, only success or the error message the disk gives.
- Replies.FileFollows: `save_to_path` is not part of this model; what a successful save puts in the file is an arbitrary function of the configuration (`persisted`), which may leave secrets out, and a failed one is taken to leave the file as it was.
- Replies.SwitchIsNotWritten: assumes that this function keeps the protocol.
- Simulation.OpKeepsAgreement: the status object's count of stale points is not compared, because no delta carries it; nor is the path of the configuration file, which never changes.
- Points.MergeHolds: `merge_imported_points` is taken as an upsert of each imported point in turn, since its code is not part of this model; its added and updated counts are left out.
- EnvConfig.Loaded.ApplyEnvOverrides: the notes are modelled as the variable and whether its secret was found, not as text; parsing JSON is an arbitrary function; `resolve_password_env` is taken as a lookup that sets the password when it finds one.
- Workers.SingleLiveWorker: assumes that only republishers send lifecycle and publish reports, each starting with `Starting` once and ending with `Stopped` or `Failed`, and that no start is accepted before the last start's `Starting` has been applied; `SecondWorkerIff` says what happens otherwise.
- Coercion.LargeNumberDrifts: how a browser prints numbers above 2^53 is a parameter, over which `StableIff` is exact; this lemma assumes only that 2^53 + 1 prints as 2^53.
- Settings.UneditedSaveIff: an input field that alters the text put in it (a browser removes line breaks) is not modelled.
- The worker, the protocol adapters, topic building, the displayed addressing, validation and `PointStatus` updates are arbitrary functions; `PointIdentity` is taken as the sorted addressing with rendered values.
- JSON values that are arrays or objects, fractional numbers, and serialisation of deltas to text.
- Machine-size limits of counters and indexes; JSON defaults of absent request fields, which are resolved before a request reaches the model.
- HTTP routing, TLS, authentication of requests, password hashing and token randomness, the shutdown handler, the health probe.
- Rendering and edits the browser makes locally: interface preselection, the cleared lists after a protocol switch, the point editor.
- Two requests are ordered by the lock; a request refused before the lock is taken is ordered with them.
