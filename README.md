# Red Alert monitor — a Dafny model of the poll cycle and the history proxy

The system is a browser page that polls an alert-history feed for one city
and for the whole country. It keeps a log of the alerts it has shown. When the
newest fresh alert of an enabled category has not sounded yet, it plays an
alarm. It also has a small Express proxy that forwards the history query to the
upstream service.

This project models two parts of it.

**The client's poll engine** (public/js/script.js).
- Each feed is fetched with retry and exponential back-off (module `Retry`).
- The two feeds are merged and the records are validated. The merged batch is
  deduplicated against the `seen` set by the identity
  `alertDate-category[N]` (modules `Alerts` and `Dedup`).
- The freshness filter runs over the whole batch, and the newest fresh
  record wins. Its identity is checked against the played set, which is first
  bulk-cleared (module `Arbiter`).
- The log is rendered, sorted and restyled (module `LogView`).
- Module `Cycle` states one completed cycle as a function of the state
  before it. Module `Session` is the page itself: class `PollSession`. Its
  fields are the script's module-level variables. Its methods are `poll` (split
  at the guard), `resetUI`, `addCatBox`, `sortLogEntries` and the input
  handlers. Each method updates the fields in place and is proved to end in the
  state that the `Cycle`, `Dedup`, `Arbiter` and `LogView` functions describe.

**The history proxy** (server/server.mjs), module `HistoryProxy`:
- the upstream URL for a city and a range;
- the defaulting of the `city` and `range` query parameters;
- the projection of the upstream records onto three fields;
- the 502 error response;
- the CORS preflight.

The network, `Date.now()`, `new Date(...)` parsing and `encodeURIComponent`
are parameters of the model.
- The two feeds are functions from the attempt number to an attempt outcome.
- The date parser is a function `string -> Option<int>`, where `None` stands
  for NaN.
- The clock is the `now` argument of `poll`.

## Model

| member | source | states |
|---|---|---|
| Text.NatToString | public/js/script.js:234 | the decimal form of a natural number is a non-empty string of digits with no leading zero |
| Text.IntToString | public/js/script.js:234 | the template-string form of an integer ends in a digit and starts with '-' exactly for negative numbers |
| Text.NatToStringRoundTrip | public/js/script.js:234 | reading the rendered digits back gives the number |
| Text.IntToStringInjective | public/js/script.js:234 | distinct categories render as distinct strings |
| Text.TrimStart | public/js/script.js:60 | the result is the suffix of the input left after dropping whitespace; it does not start with whitespace |
| Text.TrimEnd | public/js/script.js:656 | the result is the prefix of the input left after dropping whitespace; it does not end with whitespace |
| Text.TrimIsInfix | public/js/script.js:656 | `trim` gives the infix between the leading and the trailing whitespace; the result neither starts nor ends with whitespace |
| Text.TrimWhitespaceOnly | public/js/script.js:656-657 | a whitespace-only entry trims to "", so a blank city is ignored |
| Text.TrimKeepsTrimmed | server/server.mjs:69 | a string without surrounding whitespace, such as the default city, is unchanged by `trim` |
| Text.ToLower | server/server.mjs:70 | lower-casing keeps the length and maps each character to its lower-case form |
| Alerts.IsValid | public/js/script.js:229 | a record is kept for dedup exactly when its date is present and non-empty and its category is present and non-zero, the truthiness test of the source |
| Alerts.CategoryText | public/js/script.js:234 | a present or missing category renders as a non-empty text that never ends in 'N' |
| Alerts.Key | public/js/script.js:234 | the identity ends in 'N' exactly for records of the nationwide feed |
| Alerts.FeedsGiveDistinctKeys | public/js/script.js:234 | the same date and category from the city feed and the nationwide feed give two identities |
| Alerts.CategoriesGiveDistinctKeys | public/js/script.js:234 | records of one feed with the same date and different categories have different identities |
| Alerts.Contribution | public/js/script.js:200-201 | a rejected fetch contributes the empty sequence |
| Alerts.Merge | public/js/script.js:210 | the batch is the city records untagged, then the nationwide records tagged `nw`; its length is the sum of both |
| Alerts.SoundDuration | public/js/script.js:289 | 5000 ms exactly for "Update" (13), 30000 ms for every other category, listed or not |
| Alerts.SoundFile | public/js/script.js:24-29 | a sound asset exists exactly for categories 1, 2, 13 and 14 |
| Alerts.IsEnabled | public/js/script.js:269-270 | a category is enabled exactly when it is present, registered and its check-box is ticked; `?.` and `?? false` make an unregistered one disabled |
| Alerts.ClampSeconds | public/js/script.js:630 | `Math.max(MIN_SEC, v)`: at least one second, and `v` itself when `v` is already at least one |
| Retry.Backoffs | public/js/script.js:137-140 | the waits are 1000·2^i after failed attempt i, the first is 1000 ms, and each doubles the one before |
| Retry.DefaultBackoffs | public/js/script.js:135-140 | with three retries a failing source waits 1000 ms, then 2000 ms, then gives up |
| Retry.FetchWithRetry | public/js/script.js:108-143 | at most `retries` attempts, every attempt but the last failed; the result is the first success or the last error; the waits slept are `Backoffs(attempts - 1)`; no attempt at all when `retries <= 0` |
| Dedup.ValidKeysMembership | public/js/script.js:229-236 | an identity is in the inserted set exactly when some valid record of the batch has it |
| Dedup.ValidKeyWitness | public/js/script.js:229-236 | every inserted identity comes from a valid record |
| Dedup.ValidKeyIncluded | public/js/script.js:229-236 | every valid record's identity is inserted |
| Dedup.FirstNewMeaning | public/js/script.js:229-237 | a record is pushed to `newAlerts` exactly when it is valid, its identity was not in `seen`, and no earlier valid record of the batch had that identity |
| Dedup.DedupStep | public/js/script.js:226-243 | one iteration of the `forEach`: the inserted identities grow by the record's own identity, and the record is appended exactly when it is valid and unseen |
| Dedup.NewAlertsAreFirstOccurrences | public/js/script.js:225-243 | the new alerts are the batch records at exactly the first-new positions, in increasing batch order |
| Dedup.NewIndicesPick | public/js/script.js:237 | each new alert is the batch record at its listed position |
| Dedup.NewIndicesAreFirstNew | public/js/script.js:235-237 | every listed position holds a first-new record |
| Dedup.NewIndicesIncrease | public/js/script.js:226 | the positions strictly increase, so input order is kept |
| Dedup.NewIndexOf | public/js/script.js:235-237 | every first-new position is listed |
| Dedup.NewAlertKeysDistinct | public/js/script.js:234-237 | duplicates within one batch give a single new alert: the new alerts' identities are pairwise distinct |
| Dedup.EarliestWithKey | public/js/script.js:234-237 | of the unseen valid records sharing an identity, an earliest one is the new alert |
| Dedup.NewAlertKeysCover | public/js/script.js:229-237 | an identity belongs to a new alert exactly when a valid record has it and it was not in `seen` |
| Dedup.RepeatedBatchHasNoNewAlerts | public/js/script.js:235 | a batch whose identities are all in `seen` yields no new alert |
| Dedup.AllSeenNoNew | public/js/script.js:235 | the same, prefix by prefix |
| Dedup.InvalidRecordIsIgnored | public/js/script.js:229-232 | a record with a missing or falsy date or category changes neither the new alerts nor the inserted identities |
| Dedup.NewAlertsPrefix | public/js/script.js:226-243 | the new alerts among the first n records depend only on those records |
| Arbiter.IsFreshEnabled | public/js/script.js:262-273 | a record is fresh and enabled exactly when its date parses, `now - time <= lookBackMs` holds (so a future date counts) and its category is enabled |
| Arbiter.FreshAlerts | public/js/script.js:260-278 | a record is kept exactly when its date parses, it is at most `lookBackMs` old, and its category is registered and ticked |
| Arbiter.Newest | public/js/script.js:284-286 | the leader is absent exactly for an empty list and is otherwise one of its records |
| Arbiter.Winner | public/js/script.js:282-286 | a winner is a fresh, enabled record of the whole batch (possibly one seen before); there is none exactly when no record is fresh and enabled |
| Arbiter.WinnerStep | public/js/script.js:284-286 | one more record takes the lead only when it is fresh and strictly newer than the current winner |
| Arbiter.FreshLastStep | public/js/script.js:284-286 | the case of WinnerStep where the last record is fresh and earlier fresh records exist |
| Arbiter.ExtendNewest | public/js/script.js:284-286 | a newest record stays newest when the added record is not newer |
| Arbiter.LastIsNewest | public/js/script.js:284-286 | the last record is newest when all earlier fresh records are strictly older |
| Arbiter.OnlyLastIsFresh | public/js/script.js:284-286 | the last record is newest when it is the only fresh one |
| Arbiter.LastBeatsWinner | public/js/script.js:284-286 | the last record is newest when it is newer than the previous winner |
| Arbiter.WinnerIsNewestFresh | public/js/script.js:282-286 | the winner has the maximal time among fresh records; on a tie it is the earliest in merged order, as the stable newest-first sort leaves it at index 0 |
| Arbiter.BulkClear | public/js/script.js:254-257 | the played set is emptied exactly when it holds more than 100 identities; afterwards it holds at most 100, and a set within the limit is kept whole |
| Arbiter.DecideAlarm | public/js/script.js:288-309 | a sound plays exactly when there is a winner whose identity is not yet played; it then joins the played set and polling pauses until `now` plus the duration; otherwise the played set and the pause are unchanged |
| Arbiter.AlarmIsIdempotent | public/js/script.js:295-301 | a winner that has played never plays again while its identity stays in the played set |
| Arbiter.PlayedStaysBounded | public/js/script.js:254-257 | after the bulk clear and the arbitration, the played set holds at most 101 identities |
| LogView.TimedRows | public/js/script.js:552-553 | only rows with a time are kept, excluding the placeholder |
| LogView.TimedRowsCount | public/js/script.js:552-553 | the kept rows are exactly the log's timed rows, with their multiplicities |
| LogView.Insert | public/js/script.js:554-558 | inserting adds exactly the one row |
| LogView.AppendOrdered | public/js/script.js:554-558 | appending a row that ranks at least as high as every row keeps the order |
| LogView.InsertMembers | public/js/script.js:554-558 | the inserted sequence holds only the row and the old rows |
| LogView.InsertOrdered | public/js/script.js:554-558 | insertion keeps the rows ordered |
| LogView.SortRows | public/js/script.js:554-558 | sorting is a permutation of its input |
| LogView.SortRowsOrdered | public/js/script.js:554-558 | sorted rows are ordered by the comparator's key |
| LogView.SortLog | public/js/script.js:551-569 | the log becomes its timed rows sorted by time when there are any, and is left alone otherwise; the result holds only timed rows unless it is the log unchanged |
| LogView.SortLogSpec | public/js/script.js:551-569 | with timed rows, the log becomes a permutation of exactly them with contents and hidden flags untouched, newest first when `sortDesc` and oldest first otherwise; without timed rows it is unchanged |
| LogView.Label | public/js/script.js:357-359 | the category text is never empty: "Across the country" for nationwide records, otherwise the description or "Unknown" when it is empty |
| LogView.RenderRow | public/js/script.js:337-377 | a row is rendered exactly when the date parses; it carries that time and the category, and is hidden exactly when the category is not enabled |
| LogView.RenderRows | public/js/script.js:248 | at most one row per new alert; every row is timed and hidden exactly when its category is not enabled |
| LogView.RenderStep | public/js/script.js:248 | rendering one more alert appends exactly that alert's row, if it has one, to the rows rendered so far |
| LogView.Restyled | public/js/script.js:399-406 | a row of a registered category is hidden exactly when that category is unticked; other rows and all other row contents are unchanged |
| Cycle.AddCategory | public/js/script.js:385-390 | the registered categories become the old ones plus the new key; registered categories are left as they are, and a new one is registered ticked with its description |
| Cycle.RegisterAll | public/js/script.js:215-217 | `addCatBox` applied to the entries one after the other, in order; its properties are stated by `Cycle.RegisterAllSpec` |
| Cycle.RegisterAllSpec | public/js/script.js:385-431 | registration only adds: old categories keep their state, and each new one is ticked and described by one of the entries |
| Cycle.RegisterAllIdempotent | public/js/script.js:387-390 | registering the defaults again on every poll changes nothing |
| Cycle.RegisterKnown | public/js/script.js:387-390 | entries whose categories are all registered change nothing |
| Cycle.FailedSourceAddsNothing | public/js/script.js:194-201 | a source whose three attempts fail adds nothing, and the cycle goes on with the other feed |
| Cycle.ClearPlaceholder | public/js/script.js:220-222 | a non-empty batch leaves no placeholder: the whole log is emptied when it showed the placeholder; otherwise the log is kept |
| Cycle.NextDelay | public/js/script.js:324-331 | no timer without auto-polling; with it, 1000 ms while the pause lasts and `pollMs` once it is over or absent |
| Cycle.Ingested | public/js/script.js:214-251 | the state after the batch is taken in: defaults registered, placeholder cleared, identities of valid records added to `seen`, new alerts rendered and the log sorted |
| Cycle.Alarmed | public/js/script.js:253-315 | the end of a cycle: the bulk clear, then the arbitration of the winner over the whole batch with the registered categories |
| Cycle.CycleResult | public/js/script.js:191-333 | one started cycle: the merged batch of both feeds ingested, the alarm decided and the next delay taken from the pause left at the end |
| Cycle.AlarmedBounds | public/js/script.js:295-302 | the end of a cycle keeps the played set within 101 identities, and changes the pause exactly when a sound is chosen, to `now` plus its positive duration |
| Cycle.CycleBounds | public/js/script.js:295-333 | after a cycle: the played set has at most 101 identities; `seen` only grows; a sound pauses polling until `now` plus its positive duration and asks for a re-check after 1000 ms; with no sound and no pause, the next poll comes after `pollMs`; with auto-polling off, no timer is armed |
| Cycle.FreshEarlier | public/js/script.js:268 | a record fresh at a later time was fresh earlier |
| Cycle.WinnerAsClockAdvances | public/js/script.js:260-286 | as the clock advances, the winner stays the same record until none is fresh |
| Cycle.RepeatedCycleIsQuiet | public/js/script.js:225-301 | a second cycle on the same feeds finds no new alert, and plays no sound unless the bulk clear emptied the played set in between |
| Cycle.BulkClearReplays | public/js/script.js:253-295 | when the played set holds more than 100 identities, a winner whose identity is among them sounds again, with its category's sound |
| Session.PollSession.constructor | public/js/script.js:60-76 | the initial state: the trimmed city, the intervals in milliseconds, empty sets, no pause, not polling, sorting newest first and auto-polling on |
| Session.PollSession.ResetUI | public/js/script.js:145-160 | `seen`, `cats` and the played set are emptied, the log shows its placeholder and the pause is lifted |
| Session.PollSession.AddCatBox | public/js/script.js:385-431 | an existing category is left alone; a new one is registered ticked |
| Session.PollSession.RegisterDefaults | public/js/script.js:215-217 | the four defaults are registered in `Object.entries` order |
| Session.PollSession.DedupBatch | public/js/script.js:225-243 | the loop returns exactly `NewAlerts(seen, data)` and adds every valid identity to `seen` |
| Session.PollSession.RenderNew | public/js/script.js:248 | the rows of the new alerts are appended in order |
| Session.PollSession.SortLogEntries | public/js/script.js:551-574 | the log becomes `SortLog` of itself in the current direction |
| Session.PollSession.Arbitrate | public/js/script.js:288-309 | the sound, played set and pause are those of `DecideAlarm` |
| Session.PollSession.BeginPoll | public/js/script.js:163-189 | during a pause the poll is skipped with a 1000 ms re-check when auto-polling is on; an expired pause is cleared; a poll already in flight is skipped with no timer; otherwise the cycle starts and, exactly then, the pending timer is cancelled |
| Session.PollSession.FetchBatch | public/js/script.js:194-210 | the batch is both feeds fetched with three retries, rejected ones empty, merged city first; its length is the sum of the two feeds |
| Session.PollSession.Ingest | public/js/script.js:214-251 | the defaults are registered, the placeholder is cleared for a non-empty batch, the batch is deduplicated, and the new alerts are rendered and sorted, as `Ingested` states |
| Session.PollSession.Alarm | public/js/script.js:253-315 | the bulk clear is followed by the arbitration of the batch's winner, as `Alarmed` states; the played-set bound and the positive pause are kept |
| Session.PollSession.CompletePoll | public/js/script.js:191-333 | the cycle ends in exactly `CycleResult` of the state before it, with `isPolling` false and the session invariant kept |
| Session.PollSession.Poll | public/js/script.js:163-334 | a paused poll changes nothing and re-checks after 1000 ms; an overlapping poll only clears an expired pause; a started poll cancels the pending timer and ends in `CycleResult` |
| Session.PollSession.ToggleSort | public/js/script.js:576-583 | the direction flips and the log is re-sorted in the new direction |
| Session.PollSession.ToggleAuto | public/js/script.js:585-598 | turning polling on polls at once; turning it off cancels the timer |
| Session.PollSession.StopSiren | public/js/script.js:600-604 | the pause is lifted at once, and the session invariant is kept |
| Session.PollSession.SetCategoryChecked | public/js/script.js:399-406 | the category's tick is set and every row is restyled accordingly |
| Session.PollSession.SetInterval | public/js/script.js:629-635 | the interval is the clamped seconds times 1000, hence at least 1000 ms; a poll follows when auto-polling is on |
| Session.PollSession.SetLookback | public/js/script.js:637-642 | the look-back is the clamped seconds times 1000, hence at least 1000 ms |
| Session.PollSession.Reload | public/js/script.js:647-651 | the state after the handler's reset: nothing seen or played, no pause, the placeholder alone in the log and exactly the default categories, registered in order |
| Session.PollSession.ChangeRange | public/js/script.js:644-653 | the range is set, the UI reset, the defaults registered again and a poll follows |
| Session.PollSession.TakeCity | public/js/script.js:657-665 | a blank city changes nothing and does not poll; any other city is taken, the state reloaded and a poll follows |
| Session.PollSession.ChangeCity | public/js/script.js:655-666 | a blank entry changes nothing; otherwise the trimmed city is taken, the UI reset, the defaults registered and a poll follows |
| HistoryProxy.ModeOf | server/server.mjs:49-64 | mode 2 exactly for "week", mode 3 exactly for "month", no mode for every other range |
| HistoryProxy.BuildHistoryUrl | server/server.mjs:44-65 | every URL starts with the fixed base and ends with `city_0=` and the encoded city |
| HistoryProxy.ParseHistoryUrl | server/server.mjs:44-65 | a parsable URL starts with the fixed base |
| HistoryProxy.HistoryUrlRoundTrip | server/server.mjs:44-65 | parsing a built URL gives back the range's mode and the encoded city |
| HistoryProxy.SameUrlIffSameMode | server/server.mjs:49-64 | two ranges give the same URL exactly when they select the same mode; "day" and every unknown range share the mode-less URL |
| HistoryProxy.CityParam | server/server.mjs:69 | an absent or empty city becomes "Yad Binyamin"; a present one is trimmed |
| HistoryProxy.BlankCityIsEmpty | server/server.mjs:69 | the default applies before trimming, so a whitespace-only city becomes "" rather than the default |
| HistoryProxy.RangeParam | server/server.mjs:70 | an absent or empty range becomes "day"; a present one is lower-cased |
| HistoryProxy.RangeIgnoresCase | server/server.mjs:70 | "WEEK" selects mode 2, "Month" selects mode 3, and an absent range selects no mode |
| HistoryProxy.HistoryRequest | server/server.mjs:73-79 | the upstream request goes to the built URL with the `X-Requested-With` and `Referer` headers |
| HistoryProxy.ProjectObject | server/server.mjs:84-88 | a record keeps exactly those of `alertDate`, `category` and `category_desc` that it has, with their values |
| HistoryProxy.ProjectItem | server/server.mjs:84-88 | destructuring fails exactly on a null element; an object is projected |
| HistoryProxy.ProjectAll | server/server.mjs:84-88 | the mapping succeeds exactly when no element is null |
| HistoryProxy.ProjectionKeepsOrder | server/server.mjs:84-90 | the response has the upstream array's length and order, element by element |
| HistoryProxy.History | server/server.mjs:68-97 | the handler: the defaulted and trimmed city and the defaulted, lower-cased range build the upstream request, and its settlement is answered by `HistoryProxy.Respond` |
| HistoryProxy.Respond | server/server.mjs:81-96 | the handler answers 200 or 502 with the CORS headers; every 502 body is `{error: "History fetch failed", detail}`; an unreachable upstream or a 2xx body that is not JSON gives the error's message as the detail, and a reply that is not an array or holds a null element gives the TypeError's message |
| HistoryProxy.NonOkIsBadGateway | server/server.mjs:81-95 | a status outside 200-299 gives 502 with "History fetch failed" and the detail "<status> <statusText>" |
| HistoryProxy.SuccessProjects | server/server.mjs:83-90 | a successful array reply gives 200 and the projected records in upstream order |
| HistoryProxy.Dispatch | server/server.mjs:30-36 | every response carries the three CORS headers; OPTIONS is answered with 200 before any route; `GET /api/history` reaches the handler |
| HistoryProxy.PreflightIgnoresUpstream | server/server.mjs:34 | a preflight's answer does not depend on the upstream |

## Left out

- The DOM is not modelled beyond a row's time, category, caption and hidden flag. This covers the HTML strings, icons, the "last updated" label, the test-sound dropdown and `createTestSoundButton`.
- Audio is not modelled: `playSound` and `stopSound`. The arbitration returns the chosen sound (category, asset, duration) instead, and `poll` does not wait for playback.
- Timers are not modelled: `setTimeout` is the returned next delay, and `clearTimeout` is the `cancelTimer` flag that `BeginPoll` and `Poll` return when a cycle starts and `ToggleAuto` returns when polling is turned off. The interleaving of a timer-driven poll with handler calls is modelled only through the split of `poll` into `BeginPoll` and `CompletePoll`.
- `Date` is not modelled. Parsing is the `parse` parameter. `toLocaleTimeString` and the `pad`-based time caption are not modelled.
- `localStorage`, dark mode, `debugLog` and the unused `audioQueue` are not modelled. They affect no modelled state.
- The `AbortController` timeout is not modelled. So are the individual failure kinds of one fetch attempt (timeout, network error, non-OK status, unparsable body); each is one `Failed` attempt.
- The `catch` blocks of `poll` are not modelled: the per-record one, the freshness one and the outer one. No modelled step throws.
- `+intervalIn.value` with NaN or fractional input is not modelled. Seconds are integers.
- The page's initial HTML is not part of this model. The constructor starts the log with the placeholder, and the `DOMContentLoaded` registration is `RegisterDefaults`.
- Text.ToLower: lower-cases ASCII letters only. `toLowerCase` also folds non-ASCII letters. The ranges that select a mode are ASCII.
- Text.IntToString: renders integers in plain decimal. JavaScript's exponent notation for magnitudes of 1e21 and beyond, and non-integer categories, are not modelled.
- LogView.SortLogSpec: does not state the relative order of rows with equal times. The insertion sort keeps it, as the engine's stable sort does, but that is not proved.
- The proxy's static file serving, the health endpoint, `listen` and the Express query parser (repeated parameters arriving as arrays) are not modelled. `Dispatch` gives `None` for routes other than the preflight and the history route.
- HistoryProxy.Respond: the message of a TypeError is the engine's own text, so it is a parameter. Such an error arises when `raw.map` is not a function or a null element is destructured. `encodeURIComponent` is a parameter as well, and `console.error` is not modelled.
- api/index.mjs, the serverless entry point, is not part of this model. Its handlers live in files that are not shown.

Notes on the source:
- The played set can reach 101 identities, not 100. The clear fires only above 100, and one identity is added after it. `Cycle.CycleBounds` states 101.
- When the bulk clear fires, the newest fresh alert can sound a second time (`Cycle.BulkClearReplays`). Without the clear, a repeated cycle stays quiet (`Cycle.RepeatedCycleIsQuiet`).
- The proxy's header comment says that a day uses `mode=3`. The code sends no mode for a day, `mode=2` for a week and `mode=3` for a month. The model follows the code.
- The placeholder clear empties the whole log when the batch is non-empty. If none of the records renders, the log is then left empty.
