# CandleStick session tracker — Dafny model

This project models the client side of CandleStick, a session-recording agent.
It covers the `SessionTracker` of the browser SDK and the session filter of the viewer.

- **Session identity.** On construction the tracker reads a persisted session id and its last-activity timestamp from `localStorage`. It resumes the session if less than `sessionTimeout` minutes have passed; otherwise it mints a new id and overwrites both keys. Every captured event refreshes the timestamp, and `stop` removes both keys. When storage throws, the tracker falls back to an id that is not persisted.
- **Event buffer and delivery.** Captured events are appended to a buffer. A flush detaches the whole buffer and sends it. On failure the tracker counts the failure and applies its retry policy: the batch goes back to the front while the buffer is short and fewer than three failures have happened; the buffer is emptied from the third failure on; otherwise the failed batch is dropped.
- **Recording state.** `start`, `pauseTracking`, `resumeTracking`, `toggleTracking` (the widget's click handler) and `stop` change `isTracking`, the capture stop handle and the flush timer.
- **Configuration.** The constructor's defaults: `flushInterval` 5000, `sessionTimeout` 30, `showWidget` true exactly when `optIn` is true (an omitted `optIn` gives no widget). Any field the caller supplies overrides its default.
- **Viewer.** The session list offers the sorted, de-duplicated application names in a dropdown. It lists the sessions that pass the user and application filters, and it chooses the message shown when nothing is listed.

## Layout

| file | module | contents |
|---|---|---|
| wrappers.dfy | Wrappers | `Option`, and `Outcome` for calls that may throw |
| text.dfy | Text | `Number#toString` of a non-negative integer, `parseInt(s, 10)`, ASCII lower-casing, `includes`, string order |
| sequences.dfy | Sequences | order-preserving subsequences |
| config.dfy | TrackerConfig | the options object, and the defaulting done by the constructor |
| storage.dfy | BrowserStorage | `localStorage` as a class whose map may be inaccessible or full |
| session_identity.dfy | SessionIdentity | `getOrCreateSessionId`, `updateSessionTimestamp` and `clearSession` as methods, with the spec function `Resolve` |
| event_buffer.dfy | EventBuffer | the retry policy applied after a failed delivery |
| recording.dfy | Recording | the recording state machine as pure transitions |
| tracker.dfy | Tracker | class `SessionTracker` (fields updated in place), `init`, and three client scenarios |
| session_list.dfy | SessionList | `uniqueApps`, `filteredSessions` and the empty-list message |

Inputs that the model passes in as parameters:

- `Date.now()` is the `now` parameter.
- `generateSessionId()` is the `generated` parameter.
- Whether the network request succeeded is the `delivered` argument of `CompleteFlush`.
- The point where `start` throws, if it does, is a `StartFault`.
- Whether the constructor throws is an argument of `Init`.

The rrweb capture is the environment calling `Emit`, which it can do only while some capture runs. The interval timer and the `beforeunload` listener are the environment calling `BeginFlush`.

Behaviours kept exactly as the code has them:

- **`flush` is async and not serialised.** The model splits it into `BeginFlush` and `CompleteFlush`. `BeginFlush` detaches the buffer and returns the batch. `CompleteFlush` takes the batch and the request's outcome. Each timer tick starts a new flush with no check for one already in flight (`packages/sdk/src/index.ts:121-123`). Any number of `Emit` calls and other flushes may happen in between, so several detached batches can be in flight and fail or succeed in any order.
- **Opt-in mode.** `start` is meant not to auto-start in opt-in mode (comment at `packages/sdk/src/index.ts:106`). But `resumeTracking` calls `start` while `isTracking` is still false, so `start` returns at once (`packages/sdk/src/index.ts:107-109`). Then `resumeTracking` sets `isTracking` to true anyway. In opt-in mode a widget click therefore turns `isRecording()` on without starting any capture or timer. `Recording.OptInClicksNeverCapture` proves this for every sequence of clicks.
- **`stop` never clears `isTracking`.** It also leaves both handle fields set: they still refer to the stopped capture and timer. Its own comment says it clears the session from storage when explicitly stopped (`packages/sdk/src/index.ts:147`), and that is all it does beyond stopping capture and timer and starting a final flush.
- **`start` does not release what it already holds.** Calling it while a capture or timer runs leaves the old one running with no handle to it. These left-over captures and timers are counted in `orphanCaptures` and `orphanTimers`. Every `start` that reaches line 125 adds a `beforeunload` listener, and nothing removes one.
- **`failureCount` is never reset.**
- **The queue limit is tested before the batch goes back.** The code limits the queue "to prevent memory issues" (`packages/sdk/src/index.ts:214`), but it compares only the current buffer's length with 1000 and then prepends the whole failed batch. `EventBuffer.RequeueCanExceedQueueLimit` shows a buffer of 1001 events. `EventBuffer.RequeueBound` states the bound that does hold: fewer than 1000 events plus the batch.

## Model

| member | source | states |
|---|---|---|
| `TrackerConfig.ApplyDefaults` | packages/sdk/src/index.ts:31-36 | An omitted `flushInterval` becomes 5000 and an omitted `sessionTimeout` becomes 30. An omitted `showWidget` becomes whether `optIn` is true. A supplied value, and also an explicit `undefined`, overrides each default. `optIn`, `sessionId` and the endpoint pass through unchanged. |
| `TrackerConfig.TimeoutMs` | packages/sdk/src/index.ts:70 | The window is `sessionTimeout` minutes in milliseconds. An undefined or zero timeout counts as 30 minutes. |
| `TrackerConfig.DefaultsOfBareOptions` | packages/sdk/src/index.ts:31-36 | With only an endpoint: flush every 5000 ms, a 30-minute window (1800000 ms), no widget, not opt-in. |
| `TrackerConfig.OptInShowsWidgetByDefault` | packages/sdk/src/index.ts:34 | Opt-in mode without an explicit `showWidget` shows the widget. |
| `Text.NatToString` | packages/sdk/src/index.ts:86 | The rendering of a timestamp is a non-empty string of decimal digits. |
| `Text.ParseInt` | packages/sdk/src/index.ts:68 | `parseInt(s, 10)` of an empty string is NaN (`None`). A string that starts with a digit parses to a non-negative number. A string whose first character is neither whitespace, a sign nor a digit is NaN. |
| `Text.ParseIntOfNatToString` | packages/sdk/src/index.ts:68 | `parseInt` of a timestamp the tracker wrote gives back that timestamp. |
| `BrowserStorage.LocalStorage.GetItem` | packages/sdk/src/index.ts:64-65 | A read throws exactly when storage is inaccessible. Otherwise it gives the stored value, or null for an absent key. |
| `BrowserStorage.LocalStorage.SetItem` | packages/sdk/src/index.ts:85-86 | A write throws exactly when storage is inaccessible or full, and then changes nothing. Otherwise it stores the value under the key. |
| `BrowserStorage.LocalStorage.RemoveItem` | packages/sdk/src/index.ts:159-160 | A removal throws exactly when storage is inaccessible. Otherwise it deletes the key. |
| `SessionIdentity.GetOrCreateSessionId` | packages/sdk/src/index.ts:59-94 | The id returned and the store left behind are those of `Resolve`, reached through the same reads, writes and exception paths. |
| `SessionIdentity.UpdateSessionTimestamp` | packages/sdk/src/index.ts:96-103 | The timestamp key is set to `now` when storage is writable. Otherwise nothing changes and nothing is thrown. |
| `SessionIdentity.ClearSession` | packages/sdk/src/index.ts:155-165 | Both session keys are removed when storage is accessible. Otherwise nothing changes and nothing is thrown. |
| `SessionIdentity.Resolve` | packages/sdk/src/index.ts:59-94 | The resolved id is either the minted one (`config.sessionId`, else the generated id) or the id stored under `candlestick_session`. Storage that is inaccessible or full is left unchanged. Only the two session keys may be added or changed; every other key keeps its value. |
| `SessionIdentity.ResolveResumesLiveSession` | packages/sdk/src/index.ts:67-77 | Suppose both keys are non-empty and `now - lastActivity < timeout`. Then the stored id is returned, and the stored timestamp becomes `now`. |
| `SessionIdentity.ResolveMintsOtherwise` | packages/sdk/src/index.ts:83-88 | Otherwise, with usable storage, `config.sessionId` (or the generated id) is returned. Both keys are overwritten with that id and `now`, and no other key changes. |
| `SessionIdentity.ResolveWithoutStorage` | packages/sdk/src/index.ts:89-93 | When storage throws, `config.sessionId` (or the generated id) is still returned, and storage is unchanged. |
| `SessionIdentity.ResolvedIdNonEmpty` | packages/sdk/src/index.ts:84-92 | The resolved id is never empty when the generated one is not. |
| `SessionIdentity.ResolveBoundaryExpires` | packages/sdk/src/index.ts:73 | Inactivity of exactly the window counts as expired, so a new id is minted. |
| `SessionIdentity.ZeroTimeoutIsDefault` | packages/sdk/src/index.ts:70 | A `sessionTimeout` of 0 resolves exactly as the default of 30. |
| `SessionIdentity.ReloadWithinWindowResumes` | packages/sdk/src/index.ts:59-94 | Two resolutions less than the window apart return the same id. |
| `SessionIdentity.ReloadAfterWindowMints` | packages/sdk/src/index.ts:67-88 | A resolution at least the window after the previous one mints a new id. |
| `SessionIdentity.ActivityKeepsSessionAlive` | packages/sdk/src/index.ts:96-103 | After activity is recorded at `t1`, a load at `t2` within the window of `t1` resumes the stored id. |
| `SessionIdentity.ClearedStoreMints` | packages/sdk/src/index.ts:155-165 | After `clearSession`, the next resolution mints a new id. |
| `EventBuffer.AfterFailure` | packages/sdk/src/index.ts:214-220 | From the third failure on, the buffer is empty. Below that, a failure never loses every event when there was any, and the events captured during the request stay at the tail, in order. |
| `EventBuffer.FailureInventsNothing` | packages/sdk/src/index.ts:214-220 | After a failure, no event occurs more often than in the failed batch and the newer events together. |
| `EventBuffer.FailedBatchRequeued` | packages/sdk/src/index.ts:215-216 | Suppose the buffer holds fewer than 1000 events and there have been fewer than 3 failures. Then the new buffer is the failed batch followed by the events captured meanwhile. |
| `EventBuffer.CeilingEmptiesBuffer` | packages/sdk/src/index.ts:217-220 | From the third failure on, the buffer becomes empty. |
| `EventBuffer.LongBufferDropsBatch` | packages/sdk/src/index.ts:215-220 | Suppose the buffer holds 1000 events or more and there have been fewer than 3 failures. Then the failed batch is dropped and the newer events are kept. |
| `EventBuffer.FailureKeepsOrder` | packages/sdk/src/index.ts:214-220 | After a failure, the buffer is an order-preserving subsequence of the batch followed by the newer events. No event is invented or duplicated. |
| `EventBuffer.NewerEventsSurviveBelowCeiling` | packages/sdk/src/index.ts:215-220 | Below the failure ceiling, every event captured during the request is kept, at the tail. |
| `EventBuffer.RequeueBound` | packages/sdk/src/index.ts:215-216 | A put-back leaves fewer than 1000 events plus the batch size. |
| `EventBuffer.RequeueCanExceedQueueLimit` | packages/sdk/src/index.ts:215-216 | 999 buffered events plus a failed batch of 2 give 1001 events. |
| `Recording.Start` | packages/sdk/src/index.ts:105-135 | Afterwards the tracker is tracking exactly when it already was, or when it is not in opt-in mode and nothing threw. Running captures and timers never decrease. A listener is added exactly when nothing threw and `start` was not suppressed by opt-in mode. |
| `Recording.Stop` | packages/sdk/src/index.ts:137-153 | `isTracking` is kept. Neither handle is left running, and only the captures and timers orphaned earlier are still running. |
| `Recording.Pause` | packages/sdk/src/index.ts:335-353 | Afterwards the tracker is not tracking. When it was tracking, both handles are unset and only orphaned captures and timers still run. |
| `Recording.Resume` | packages/sdk/src/index.ts:355-361 | Afterwards the tracker is tracking. On a tracker that is already tracking, nothing changes. In opt-in mode, from a tracker that was not tracking, the capture and timer handles are as before: nothing was started. Outside opt-in mode, a resume whose `start` does not throw leaves the capture and the timer running. |
| `Recording.Toggle` | packages/sdk/src/index.ts:327-333 | `isTracking` is flipped. |
| `Recording.StartSuppressedInOptIn` | packages/sdk/src/index.ts:107-109 | In opt-in mode, `start` on a tracker that is not tracking changes nothing. |
| `Recording.StartSucceeds` | packages/sdk/src/index.ts:111-130 | Otherwise a `start` that does not throw leaves the tracker tracking, with a running capture and timer and one more unload listener. |
| `Recording.StartFailureSwallowed` | packages/sdk/src/index.ts:131-134 | A `start` that throws leaves `isTracking` and the listeners as they were. |
| `Recording.StartNeverStopsAnything` | packages/sdk/src/index.ts:112-123 | `start` never decreases the number of running captures or timers. |
| `Recording.PauseWhenIdleIsNoop` | packages/sdk/src/index.ts:336 | `pauseTracking` on a tracker that is not tracking changes nothing. |
| `Recording.PauseReleasesHandles` | packages/sdk/src/index.ts:338-348 | `pauseTracking` stops and unsets the held capture and timer, and clears `isTracking`. |
| `Recording.ResumeWhenTrackingIsNoop` | packages/sdk/src/index.ts:356 | `resumeTracking` on a tracker that is already tracking changes nothing. |
| `Recording.ResumeRestartsCapture` | packages/sdk/src/index.ts:355-359 | Outside opt-in mode, a `resumeTracking` from a tracker that is not tracking, whose `start` does not throw, leaves a capture and a timer running and adds one unload listener. |
| `Recording.ResumeEndsTracking` | packages/sdk/src/index.ts:355-359 | After `resumeTracking`, the tracker is tracking whatever `start` did. |
| `Recording.ToggleFlips` | packages/sdk/src/index.ts:327-333 | Each `toggleTracking` flips `isRecording()`. |
| `Recording.StopKeepsTrackingFlag` | packages/sdk/src/index.ts:137-153 | `stop` stops the held capture and timer, but leaves `isTracking` and the listeners unchanged. |
| `Recording.OptInClicksNeverCapture` | packages/sdk/src/index.ts:327-361 | In opt-in mode, from a fresh tracker, no sequence of clicks starts a capture or timer. `isRecording()` is true exactly after an odd number of clicks. |
| `Tracker.SessionTracker.constructor` | packages/sdk/src/index.ts:30-57 | The config is `ApplyDefaults(options)`, and the session id and the store are those of `Resolve`. The tracker starts not recording, with an empty buffer and no failures. The widget is shown exactly when `showWidget` is true. `isRecording()` is false, and `getSessionId()` returns the resolved id. |
| `Tracker.SessionTracker.Emit` | packages/sdk/src/index.ts:113-116 | Called only while some capture runs, as rrweb's callback is. The event is appended at the tail of the buffer, and activity is recorded in storage. |
| `Tracker.SessionTracker.BeginFlush` | packages/sdk/src/index.ts:167-171 | An empty buffer sends nothing and changes nothing. Otherwise exactly the buffered events are sent, in order, and the buffer becomes empty. |
| `Tracker.SessionTracker.CompleteFlush` | packages/sdk/src/index.ts:196-221 | Success changes nothing. Failure adds exactly one to `failureCount`, reports once to a configured `onError`, and sets the buffer to `AfterFailure` of the current buffer. |
| `Tracker.SessionTracker.Start` | packages/sdk/src/index.ts:105-135 | The recording state changes as `Recording.Start` for the configured opt-in mode. |
| `Tracker.SessionTracker.Stop` | packages/sdk/src/index.ts:137-153 | The recording state changes as `Recording.Stop`. The whole buffer is detached for a final flush, and the persisted session is cleared. |
| `Tracker.SessionTracker.Pause` | packages/sdk/src/index.ts:335-353 | The recording state changes as `Recording.Pause`. When tracking, the whole buffer is detached for a final flush; otherwise nothing is sent. |
| `Tracker.SessionTracker.Resume` | packages/sdk/src/index.ts:355-361 | The recording state changes as `Recording.Resume`. |
| `Tracker.SessionTracker.Toggle` | packages/sdk/src/index.ts:327-333 | The recording state changes as `Recording.Toggle`. The buffer is flushed exactly when the tracker was tracking. |
| `Tracker.Init` | packages/sdk/src/index.ts:371-381 | Returns null exactly when construction throws. Otherwise it returns a fresh tracker that has been started once, whose `getSessionId()` is the id of `Resolve` and whose widget is shown exactly as the configuration asks. Storage is resolved in both cases. |
| `SessionList.InsertSorted` | packages/viewer/src/components/SessionList.tsx:29-30 | Adding a name to a sorted, duplicate-free list keeps it sorted and duplicate-free, and adds exactly that name. |
| `SessionList.UniqueApps` | packages/viewer/src/components/SessionList.tsx:28-31 | `uniqueApps` is strictly sorted. It holds exactly the non-empty `appName` values of the sessions. |
| `SessionList.StrictlySortedDistinct` | packages/viewer/src/components/SessionList.tsx:29-30 | The dropdown holds no name twice. |
| `SessionList.UniqueAppsIsSortedListing` | packages/viewer/src/components/SessionList.tsx:28-31 | `uniqueApps` is the only sorted, duplicate-free listing of those names. |
| `SessionList.FilterSessions` | packages/viewer/src/components/SessionList.tsx:34-45 | Every listed session passes both filters. |
| `SessionList.FilterIsSubsequence` | packages/viewer/src/components/SessionList.tsx:35 | `filteredSessions` is an order-preserving subsequence of `sessions`. |
| `SessionList.FilterSelectsExactly` | packages/viewer/src/components/SessionList.tsx:35-44 | A session is listed exactly when it is in `sessions` and passes both filters. The user filter (`MatchesUser`) passes when it is empty or occurs, ignoring case, in the session's `userName`, `userEmail` or `userId`. The application filter (`MatchesApp`) passes when it is empty or equals `appName`. |
| `SessionList.FilterKeepsEveryCopy` | packages/viewer/src/components/SessionList.tsx:35-44 | A session that passes both filters is listed as many times as it occurs in `sessions`. One that fails is not listed. |
| `SessionList.NoFilterListsAll` | packages/viewer/src/components/SessionList.tsx:36-41 | With both filters empty, `filteredSessions` equals `sessions`. |
| `SessionList.AppFilterOnly` | packages/viewer/src/components/SessionList.tsx:41 | A session passes the application filter exactly when the filter is empty or equals its `appName`. |
| `SessionList.UserFilterIgnoresCase` | packages/viewer/src/components/SessionList.tsx:36-39 | Two user filters that are equal up to case select the same sessions. |
| `SessionList.OwnNameMatches` | packages/viewer/src/components/SessionList.tsx:36-37 | A session passes a user filter equal to its `userName` up to case. |
| `SessionList.EmptyMessage` | packages/viewer/src/components/SessionList.tsx:83-85 | "No sessions recorded yet" is chosen exactly when there are no sessions. Any message shown is one of the two texts. |
| `SessionList.EmptyMessageCases` | packages/viewer/src/components/SessionList.tsx:83-85 | The message is "No sessions recorded yet" exactly when there are no sessions. It is "No sessions match filters" exactly when sessions exist but none passes. There is no message exactly when some session passes. |

## Left out

- The rrweb capture and replay library is not modelled. The capture is an emitter calling `Emit` plus a stop handle, and stopping it is assumed not to throw, so the `catch` blocks of `stop` and `pauseTracking` are not modelled.
- The `fetch` request, its JSON body, the `AbortController` and the 5-second timeout are network I/O. They are not modelled; their result is the `delivered` flag of `CompleteFlush`.
- Timer and listener plumbing is modelled only as handle states and a listener count. The flush period (`flushInterval`) is kept in the config, but the timer itself is not modelled.
- Widget rendering is not modelled: `createWidget`, `updateWidgetState` and `removeWidget` are DOM work. Only whether the widget is created at construction is kept.
- The metadata object, `navigator.userAgent`, the screen size and console logging are ambient browser state. They are not modelled.
- `Tracker.SessionTracker.CompleteFlush`: does not model the `error instanceof Error` test. The handler is counted as called on every failure when configured; in browsers, fetch failures and aborts are `Error` instances.
- `SessionIdentity.GetOrCreateSessionId`: `Date.now()` is read up to twice and `generateSessionId()` is called up to twice. Both are modelled as one `now` and one `generated` value. The random format of the generated id is not modelled.
- `BrowserStorage.LocalStorage.SetItem`: a full store makes every write throw. A write that would fit despite the quota is not modelled.
- `Text.ParseIntOfNatToString`: numbers are exact integers. Floating-point rounding of very long digit strings and `toString`'s exponent form (from 10^21 on) are not modelled.
- `SessionList.UserFilterIgnoresCase`: lower-casing is ASCII only, where `toLowerCase` is full Unicode.
- The string order used by the dropdown compares characters by code point. JavaScript compares UTF-16 code units, so the two orders differ only for characters outside the Basic Multilingual Plane.
- `TrackerConfig.TimeoutMs`: a `NaN` or non-integer `sessionTimeout` is not modelled. Numbers are integers.
- The storage backends (server/src/index.ts, server/src/index-mssql.ts, aws-lambda/src/lambda.ts) are not part of this model. Neither are the infrastructure, build configuration, example pages, player and test pages.
