# calendar-homey: the event-scheduling engine, in Dafny

A model of the engine of the iCal calendar app for the Homey automation hub, with proofs about it.
The engine has three parts:

- **Trigger scan** (`handlers/triggers.js`). Every tick, each event of each calendar is classified
  against the current time. The scan then fires the flow cards `event_starts`,
  `event_starts_calendar`, `event_stops`, `event_starts_in` and `event_stops_in`, each with the
  event's tokens.
- **Token projection** (`handlers/triggers.js`). Every tick, the global flow tokens and the
  per-calendar tokens get new values. A per-calendar token id is parsed back into a calendar name
  and a kind by `String.replace` stripping, and the next-event answer is cached from one token to
  the next.
- **Refresh orchestration** (`app.js`). It covers:
  - `getEvents`: the calendar loop with its URI checks, `webcal://` rewriting and `failed`
    bookkeeping; the store replacement; the uid snapshot; and the re-registration of per-calendar
    tokens;
  - `triggerEvents`;
  - the settings `on('set')` router;
  - the cron guard on the in-flight flag `isGettingEvents`.
- **Token descriptors** (`lib/generate-token-configuration.js`): `generateTokens` and
  `generatePerCalendarTokens`.

Modules:

- `Calendar` (calendar.dfy): the entities, and `Collaborators`, the code the engine calls but that
  is not part of this model, passed in as function values.
- `JsNumber` (js_number.dfy): moment's truncating `diff` and `Math.round`, on integers.
- `JsString` (js_string.dfy): `indexOf`, `includes` and `replace` with a string pattern. `replace`
  changes the first occurrence only.
- `Seqs` (seqs.dfy): `Flatten` and `FlatMap`.
- `Triggers` (triggers.dfy): the scan, the token assembly of `startTrigger`, and the run
  listeners.
- `TokenConfig` (token_config.dfy): the descriptors, and the id parsing of `updateFlowTokens`.
- `TokenProjection` (token_projection.dfy): `updateFlowTokens` and `getNextEventCalendar`.
- `App` (app.dfy): the app class and the refresh.

Modelling conventions:

- Time is an integer number of milliseconds.
- moment's `diff(t, unit)` truncates toward zero (`JsNumber.TruncDiv`).
- `Math.round(diff(t, 'minutes', true))` rounds half up (`JsNumber.RoundDiv`).
- The host is modelled by state, not by calls:
  - the settings store is a map;
  - fired flow cards, fetched URIs, `setValue` calls and token (un)registrations are logs;
  - the fetch is a function from URI to a result.
- The `variable-management` constants are parameters: the token id prefix and suffixes
  (`TokenNaming`) and the settings keys (`SettingKeys`).

Two behaviours of the code that are easy to miss:

- A calendar whose fetch fails is dropped from the new store rather than keeping its previous
  events (app.js:123, 164).
- The `triggerEvents` cron task does not consult `isGettingEvents` (app.js:284). Only the
  update-calendar task does (app.js:271).

## Model

| member | source | states |
|---|---|---|
| Triggers.ClassifyWindows | handlers/triggers.js:19-25 | "starts" fires iff `now - start` is in (-1 s, 56 s) and `now - end` is below 1 s. "stops" fires iff `now - end` is in (-1 s, 56 s). Starts-in (stops-in) fires iff the start (end) is at least 1 s ahead. All four conditions come from the whole-second truncated diffs. |
| Triggers.ClassifyExclusive | handlers/triggers.js:22-25 | "starts" and "starts-in" never both fire, nor "stops" and "stops-in". Starts-in needs `startDiff < 0` and stops-in needs `endDiff < 0`. |
| Triggers.GetTriggerTokenValue | handlers/triggers.js:49-59 | The result is `''` iff the text is one of the 18 blank literals, the empty text included. Otherwise the text is returned unchanged. |
| Triggers.GetTriggerTokenValueIdempotent | handlers/triggers.js:49-59 | Blanking twice equals blanking once. |
| Triggers.TwoSpacesAreKept | handlers/triggers.js:54 | The blank list is closed, not a trim: `"  "` is passed through. |
| Triggers.GetTriggerTokenDuration | handlers/triggers.js:61-74 | The readable duration is `humanize` of the length in ms. For an event that does not end before it starts, the minutes are the whole minutes of the length, truncated: 0 or more, with `60000*m <= end-start < 60000*(m+1)`. |
| Triggers.EventCardCounts | handlers/triggers.js:27-44 | For one event in one scan: `event_starts` fires once iff the event is in the start window, and `event_starts_calendar` fires as often. `event_stops` fires once iff it is in the stop window. Starts-in (stops-in) fires once iff the start (end) is at least 1 s ahead. Otherwise each card fires zero times. |
| Triggers.EventStartsPair | handlers/triggers.js:27-30 | A start fires `event_starts` without a state, immediately followed by `event_starts_calendar` whose state is the calendar name. Both have the event's tokens. |
| Triggers.EventNotificationsStated | handlers/triggers.js:27-44 | Every card an event fires carries its tokens: blanked name, description and location, readable duration, minutes and calendar name. Each card carries its own state. Starts-in and stops-in carry the minute count `m` with `2*60000*m - 60000 <= 2*(start-now) < 2*60000*m + 60000`, i.e. `Math.round` of the minutes. |
| Triggers.StartsInStated | handlers/triggers.js:36-39 | A starts-in card carries the event's tokens and `Math.round` of the minutes until the start. |
| Triggers.StopsInStated | handlers/triggers.js:41-44 | A stops-in card carries the event's tokens and `Math.round` of the minutes until the end. |
| Triggers.TriggerAllEvents | handlers/triggers.js:13-47 | The cards fired are exactly the scan of every calendar: calendar by calendar, event by event, in list order. |
| Triggers.TriggerCalendarEvents | handlers/triggers.js:18-45 | The inner loop fires exactly the notifications of each of the calendar's events, in order. |
| Triggers.ScanEventsMembers | handlers/triggers.js:18-45 | A notification is in a calendar's scan iff one of its events fires it. |
| Triggers.ScanCalendarsMembers | handlers/triggers.js:13-47 | A notification is in the whole scan iff some event of some calendar fires it. |
| Triggers.ScanStartsPaired | handlers/triggers.js:27-30 | Over a whole scan, `event_starts` and `event_starts_calendar` fire equally often. |
| Triggers.ScanEventsStartsPaired | handlers/triggers.js:27-30 | The same pairing within one calendar's scan. |
| Triggers.StartsInExactMatch | handlers/triggers.js:250-258 | An event exactly `m >= 1` minutes ahead fires starts-in once, with state `m`. A subscriber is notified iff its converted minutes equal `m`: exact equality, not a range. |
| Triggers.ListenersDecide | handlers/triggers.js:250-278 | The starts-in (stops-in) listener accepts exactly when the subscriber's converted minutes equal the rounded minutes until the start (end). The `event_starts_calendar` listener accepts exactly when the chosen calendar is the event's. |
| Triggers.StartAtMostOnce | handlers/triggers.js:19-22 | Two scans that both report one start are less than 57 s apart. |
| Triggers.StartAtLeastOnce | handlers/triggers.js:19-22 | The start of an event lasting at least 55 s is reported when consecutive scans are at most 56.999 s apart and the scans reach into the window. |
| Triggers.MinuteCadenceCanMiss | handlers/triggers.js:19-22 | For any event, whatever its length, two scans 60 s apart (1 s before the start and 59 s after it) both miss the start. |
| TokenConfig.KindOfType | handlers/triggers.js:199-238 | The type-word dispatch selects a kind only for that kind's own type word. |
| TokenConfig.KindOfTypeWord | handlers/triggers.js:199-238 | Each kind's type word selects that kind. |
| TokenConfig.GenerateTokens | lib/generate-token-configuration.js:5-18 | Exactly two descriptors: today, then tomorrow. Each id is `preId + name + suffix`, each type is `'string'`, and each title is the translated label, a space and the name. |
| TokenConfig.GeneratePerCalendarTokens | lib/generate-token-configuration.js:20-48 | Exactly five descriptors: next title, start date, start time, end date, end time. Ids, types and titles are as above. |
| TokenConfig.CalendarIdOfTokenId | handlers/triggers.js:193 | Stripping the prefix from a generated id leaves `name + suffix`. |
| TokenConfig.NameOfTokenId | handlers/triggers.js:194 | The suffix-stripping chain recovers the calendar name, provided the name holds none of the seven suffixes. |
| TokenConfig.NoSuffixOnlyOwn | handlers/triggers.js:194 | When the name holds no suffix, the kind's own suffix at the end is the only suffix in the calendar id `name + suffix`: none straddles the boundary or sits inside another. |
| TokenConfig.OnlyOwnSuffixIff | handlers/triggers.js:194 | The calendar id holds only its own suffix iff the name holds no suffix, for every kind. |
| TokenConfig.TypeOfTokenId | handlers/triggers.js:195 | Under the same condition, cutting `<name>_` off leaves the kind's type word. |
| TokenConfig.ParseTokenId | handlers/triggers.js:193-195 | The conditional id round trip: with the conventional suffixes, parsing a generated id gives back its calendar name and its kind, for a calendar name holding no suffix. |
| TokenConfig.SuffixInNameMisparses | handlers/triggers.js:193-195 | The condition is needed. For calendar `x_today`, the tomorrow token parses as calendar `x` with type word `today_tomorrow`, which selects no kind. |
| TokenProjection.ClockStamp | handlers/triggers.js:146-154 | A timed event's clock slot is the formatted time. An all-day event's is `"00" + splitter + "00"`. Any other datetype writes nothing. |
| TokenProjection.GlobalNoNextEvent | handlers/triggers.js:141-187 | With no next event, the title, dates, stamps, duration and calendar name are `''`. The three minute tokens are `-1`. The day counts are the list lengths, so an empty day is `0`, never `-1`. |
| TokenProjection.GlobalClockStamps | handlers/triggers.js:145-166 | The next event's start and stop stamps: midnight with the separator for `date`, the formatted clock times for `date-time`, no write for any other datetype. |
| TokenProjection.DurationMinutesMarker | handlers/triggers.js:167-170 | For events that do not end before they start, `event_next_duration_minutes` is `-1` iff there is no next event. Otherwise it is the truncated whole minutes of the event. |
| TokenProjection.GlobalTokenValueDefined | handlers/triggers.js:140-188 | Unknown ids are not written. Every known id is written, except a clock slot of an event whose datetype is neither `date` nor `date-time`. |
| TokenProjection.GlobalWritesMembers | handlers/triggers.js:140-188 | A write of the first loop is a listed token id together with exactly its computed value. |
| TokenProjection.GetNextEventCalendar | handlers/triggers.js:109-127 | The cached answer is returned exactly when it is for the requested calendar. Otherwise the calendar is queried afresh. |
| TokenProjection.CalendarPassTransparent | handlers/triggers.js:190-241 | The cache is transparent when the query reports the calendar it was asked about. The writes are then one per token id, in order, each with the value a fresh query gives. |
| TokenProjection.GeneratedTokenValue | handlers/triggers.js:193-238 | A generated id of a calendar whose name holds no suffix gets that calendar's value for its kind. |
| TokenProjection.KindValueMarkers | handlers/triggers.js:199-238 | Values of per-calendar tokens: with no next event, every next-event kind is `''`. The clock kinds are midnight with the separator for `date`, the formatted time for `date-time`, and `''` otherwise. |
| TokenProjection.UpdateFlowTokens | handlers/triggers.js:129-242 | The `setValue` calls are the global writes, for a next event and day lists computed once over all calendars, followed by the per-calendar pass. |
| TokenProjection.UpdateGlobalTokens | handlers/triggers.js:140-188 | The first loop makes exactly the global writes, in token order. |
| TokenProjection.UpdateCalendarTokens | handlers/triggers.js:190-241 | The second loop makes exactly the per-calendar writes, with `calendarNextEvent` threaded from token to token. |
| App.EmptyUriSkipped | app.js:94-96 | An empty URI: no fetch, no events, entry unchanged. |
| App.EmptyUriContributesNothing | app.js:94-96 | An entry with an empty URI stays as it was in the rewritten list. Every calendar in the new store comes from another entry. |
| App.InvalidUriMarked | app.js:97-102 | A URI containing none of the three schemes is not fetched and gets `failed = "Uri for calendar '<name>' is invalid"`. |
| App.SchemeAnywhereIsFetched | app.js:97-108 | The scheme test is a substring test: a URI that contains `http://`, `https://` or `webcal://` anywhere, and does not start with `webcal://`, is fetched unchanged. |
| App.SchemeInTextIsFetched | app.js:97 | For instance, `"see http://x"` is fetched as it is. |
| App.WebcalRewritten | app.js:105-108 | A leading `webcal://` is fetched as `https://` followed by the rest. The rewritten URI is written back on failure and whenever `failed` is cleared. |
| App.FetchOutcome | app.js:112-136 | On fetch and extraction success, the calendar's events are kept and `failed` is falsy. If either throws, there are no events and `failed` is the error's message, or the error itself when it is not an object. |
| App.ProcessAllStore | app.js:92-137 | A calendar is in the new store iff some entry's fetch and extraction produced it. Skipped and failed calendars are dropped. |
| App.ProcessNothing | app.js:89-140 | With no calendar list, nothing is fetched and the new store is empty. |
| App.InlineMatchesGenerated | app.js:184-229 | The tokens `getEvents` builds inline are the generated ones: `generateTokens`, then `generatePerCalendarTokens` when enabled. |
| App.InlineDescribes | app.js:184-229 | One calendar gets 7 tokens, or 2, each the descriptor of the next registered kind. |
| App.InlineMembers | app.js:184-229 | A token belongs to a calendar's inline tokens iff it is its descriptor for a registered kind. |
| App.AllCalendarTokensCount | app.js:183-231 | Every calendar of the store gets 7 tokens when next-event tokens are on, and 2 otherwise. |
| App.AllCalendarTokensMembers | app.js:183-231 | A token is registered iff it describes a registered kind of a calendar of the store. |
| App.RouteSettingIff | app.js:51-67 | For distinct, non-empty keys: exactly `icalUris`, `eventLimit` and `nextEventTokensPerCalendar` trigger a refresh with re-registration. Exactly `dateFormat` and `timeFormat` only recompute the formats. |
| App.App.constructor | app.js:21-35 | The state before the first refresh: flag down, no store, no tokens, formats computed from the settings. |
| App.App.GetEvents | app.js:76-237 | Returns `true` and leaves the flag down. Settings, store and logs are rewritten as `StoreAfter` describes. With re-registration, the old tokens are unregistered and the new ones are, as a multiset, exactly the store's. Without it, the tokens are unchanged. |
| App.App.RefreshStore | app.js:77-165 | The flag is up during the refresh. The store is replaced and the settings hold the rewritten list and the new uid snapshot. |
| App.App.RefreshCalendars | app.js:92-137 | The loop collects exactly the store of all outcomes, writes the list of all new entries back to the settings, and logs every fetch. |
| App.App.RefreshEntry | app.js:93-136 | One iteration carries the loop state from entry `i` to entry `i + 1`. |
| App.App.RefreshCalendar | app.js:93-136 | One entry's new config, its events and its fetch are exactly its outcome. |
| App.App.PublishRefresh | app.js:142-165 | Changed calendars are announced only when both the old store and the new result are non-empty. New events are announced against the old snapshot. The snapshot is always rewritten. The store becomes the sorted new list. |
| App.App.FinishRefresh | app.js:167-236 | Tokens are rebuilt when asked, then the flag goes down. |
| App.App.ReregisterTokens | app.js:167-232 | Every old token is unregistered and the list is emptied. Then the store's tokens are registered, using the current next-event setting. |
| App.App.RegisterCalendarTokens | app.js:183-231 | Each calendar's inline tokens are registered, in store order. |
| App.App.TriggerEvents | app.js:239-259 | With a non-empty store, the token refresh writes are appended, then the scan's notifications. With no store or an empty one, nothing happens. |
| App.App.OnCronUpdateCalendar | app.js:270-275 | While a refresh is running, nothing changes. Otherwise a refresh without re-registration runs. |
| App.App.OnSettingSet | app.js:51-67 | Ignored keys change nothing. Format keys recompute the formats only. Calendar keys refresh with re-registration unless a refresh is running. |
| Triggers.Classify | handlers/triggers.js:19-25 | No own contract; characterised by Triggers.ClassifyWindows and Triggers.ClassifyExclusive. |
| Triggers.EventNotifications | handlers/triggers.js:27-44 | No own contract; characterised by Triggers.EventCardCounts, Triggers.EventStartsPair and Triggers.EventNotificationsStated. |
| Triggers.StartPart | handlers/triggers.js:27-30 | No own contract; characterised by Triggers.EventStartsPair and Triggers.EventCardCounts. |
| Triggers.StopPart | handlers/triggers.js:32-34 | No own contract; characterised by Triggers.EventCardCounts and Triggers.EventNotificationsStated. |
| Triggers.StartsInPart | handlers/triggers.js:36-39 | No own contract; characterised by Triggers.StartsInStated and Triggers.EventCardCounts. |
| Triggers.StopsInPart | handlers/triggers.js:41-44 | No own contract; characterised by Triggers.StopsInStated and Triggers.EventCardCounts. |
| Triggers.EventTokens | handlers/triggers.js:79-87 | No own contract; characterised by Triggers.EventNotificationsStated, with Triggers.GetTriggerTokenValue and Triggers.GetTriggerTokenDuration. |
| Triggers.StartTrigger | handlers/triggers.js:77-107 | No own contract; characterised by Triggers.EventNotificationsStated. |
| Triggers.ScanEvents | handlers/triggers.js:18-45 | No own contract; characterised by Triggers.TriggerCalendarEvents, Triggers.ScanEventsMembers and Triggers.ScanEventsStartsPaired. |
| Triggers.ScanCalendars | handlers/triggers.js:13-47 | No own contract; characterised by Triggers.TriggerAllEvents, Triggers.ScanCalendarsMembers and Triggers.ScanStartsPaired. |
| Triggers.WhenListener | handlers/triggers.js:250-268 | No own contract; characterised by Triggers.ListenersDecide and Triggers.StartsInExactMatch. |
| Triggers.CalendarListener | handlers/triggers.js:270-278 | No own contract; characterised by Triggers.ListenersDecide. |
| TokenConfig.StripPostIds | handlers/triggers.js:194 | No own contract; characterised by TokenConfig.NameOfTokenId and TokenConfig.SuffixInNameMisparses. |
| TokenConfig.CalendarIdOf | handlers/triggers.js:193 | No own contract; characterised by TokenConfig.CalendarIdOfTokenId. |
| TokenConfig.CalendarNameOf | handlers/triggers.js:194 | No own contract; characterised by TokenConfig.NameOfTokenId, TokenConfig.ParseTokenId and TokenConfig.SuffixInNameMisparses. |
| TokenConfig.CalendarTypeOf | handlers/triggers.js:195 | No own contract; characterised by TokenConfig.TypeOfTokenId, TokenConfig.ParseTokenId and TokenConfig.SuffixInNameMisparses. |
| TokenProjection.GlobalTokenValue | handlers/triggers.js:140-188 | No own contract; characterised by TokenProjection.GlobalNoNextEvent, TokenProjection.GlobalClockStamps, TokenProjection.DurationMinutesMarker and TokenProjection.GlobalTokenValueDefined. |
| TokenProjection.GlobalWrites | handlers/triggers.js:140-188 | No own contract; characterised by TokenProjection.GlobalWritesMembers and TokenProjection.UpdateGlobalTokens. |
| TokenProjection.KindValue | handlers/triggers.js:197-238 | No own contract; characterised by TokenProjection.KindValueMarkers and TokenProjection.GeneratedTokenValue. |
| TokenProjection.CalendarPass | handlers/triggers.js:190-241 | No own contract; characterised by TokenProjection.CalendarPassTransparent and TokenProjection.UpdateCalendarTokens. |
| TokenProjection.FlowTokenWrites | handlers/triggers.js:129-242 | No own contract; characterised by TokenProjection.UpdateFlowTokens. |
| App.HasScheme | app.js:97 | No own contract; characterised by App.InvalidUriMarked and App.SchemeAnywhereIsFetched. |
| App.CheckUri | app.js:94-108 | No own contract; characterised by App.EmptyUriSkipped, App.InvalidUriMarked, App.SchemeAnywhereIsFetched and App.WebcalRewritten. |
| App.ErrorString | app.js:125 | No own contract; characterised by App.FetchOutcome. |
| App.ProcessConfig | app.js:93-136 | No own contract; characterised by App.EmptyUriSkipped, App.InvalidUriMarked, App.WebcalRewritten and App.FetchOutcome. |
| App.ProcessAll | app.js:92-137 | No own contract; characterised by App.ProcessAllStore, App.EmptyUriContributesNothing, App.ProcessNothing and App.App.RefreshCalendars. |
| App.SortStore | app.js:165 | No own contract; an assumed shape of sort-calendars (see Left out), used by App.App.PublishRefresh. |
| App.InlineCalendarTokens | app.js:184-229 | No own contract; characterised by App.InlineMatchesGenerated, App.InlineDescribes and App.InlineMembers. |
| App.AllCalendarTokens | app.js:183-231 | No own contract; characterised by App.AllCalendarTokensCount, App.AllCalendarTokensMembers and App.App.RegisterCalendarTokens. |
| App.RouteSetting | app.js:51-67 | No own contract; characterised by App.RouteSettingIff and App.App.OnSettingSet. |
| App.App.SettingsAfter | app.js:99-162 | No own contract; the settings part of App.App.StoreAfter. |
| App.App.StoreAfter | app.js:77-165 | No own contract; the store side of a refresh, which App.App.RefreshStore and App.App.GetEvents are proved to produce. |
| Triggers.DiffSeconds | handlers/triggers.js:19-20 | No own contract; characterised by Triggers.ClassifyWindows and Triggers.ClassifyExclusive. |
| Triggers.StartsInMinutes | handlers/triggers.js:37 | No own contract; characterised by Triggers.StartsInStated, Triggers.StartsInExactMatch and Triggers.ListenersDecide. |
| Triggers.StopsInMinutes | handlers/triggers.js:42 | No own contract; characterised by Triggers.StopsInStated and Triggers.ListenersDecide. |
| Triggers.PerEvent | handlers/triggers.js:18-45 | No own contract beyond one entry per event; characterised by Triggers.ScanEventsMembers and Triggers.TriggerCalendarEvents. |
| Triggers.PerCalendar | handlers/triggers.js:16-46 | No own contract beyond one entry per calendar; characterised by Triggers.TriggerAllEvents and Triggers.ScanStartsPaired. |
| App.StoredConfigs | app.js:80 | No own contract; the calendar list that App.App.StoreAfter refreshes (empty when unset, with App.ProcessNothing), which App.App.RefreshStore is proved to produce. |
| App.ReadLimit | app.js:82 | No own contract; the event limit App.App.StoreAfter passes to every fetch, which App.App.RefreshStore is proved to produce. |
| App.ReadUids | app.js:83-84 | No own contract; the old uid snapshot of App.App.StoreAfter's new-event diff, which App.App.RefreshStore is proved to produce. |
| App.FailedTruthy | app.js:115 | No own contract; characterised by App.FetchOutcome and App.WebcalRewritten. |
| TokenConfig.TokenId | lib/generate-token-configuration.js:8 | No own contract; characterised by TokenConfig.GenerateTokens, TokenConfig.GeneratePerCalendarTokens and TokenConfig.ParseTokenId. |
| TokenConfig.TokenTitle | lib/generate-token-configuration.js:10 | No own contract; characterised by TokenConfig.GenerateTokens and TokenConfig.GeneratePerCalendarTokens. |
| TokenConfig.Describe | lib/generate-token-configuration.js:8-10 | No own contract; characterised by TokenConfig.GenerateTokens, TokenConfig.GeneratePerCalendarTokens and App.InlineMatchesGenerated. |
| TokenProjection.GlobalWrite | handlers/triggers.js:139-187 | No own contract; characterised by TokenProjection.GlobalWritesMembers and TokenProjection.GlobalTokenValueDefined. |
| TokenProjection.ParsedStep | handlers/triggers.js:196-239 | No own contract; characterised by TokenProjection.CalendarPassTransparent and TokenProjection.GeneratedTokenValue. |
| TokenProjection.CalendarStep | handlers/triggers.js:192-239 | No own contract; characterised by TokenProjection.CalendarPassTransparent and TokenProjection.UpdateCalendarTokens. |

## Left out

- Formatting is passed in as function values, with no behaviour invented: `humanize-duration`
  output, moment's locale and date/time `format`, and `Homey.__` translation.
- The modules that are not shown are passed in as function values: `get-ical-content` (the
  `fetch` parameter), `get-active-events`, `get-next-event`, `get-todays-events`,
  `get-tomorrows-events`, `get-events-for-token`, `filter-updated-calendars`, `get-event-uids`,
  `get-new-events`, `sort-calendars`, `convert-to-minutes` and `get-datetime-format`.
- App.App.TriggerEvents and TokenProjection.UpdateFlowTokens model `get-next-event`,
  `get-todays-events` and `get-tomorrows-events` (handlers/triggers.js:112, 117, 130-132, 200, 204) as
  independent of the clock. In the source these modules read the clock themselves, so `startsIn`,
  `endsIn` and the day lists change from one cron tick to the next. In the model their values,
  and so the token values written, are the same at every tick for a fixed store.
- `triggerChangedCalendars` and `triggerAddedEvent` are not part of this model. Their calls are
  logged with their arguments.
- `lib/sentry-io.js` and exception capture, `handlers/actions.js`, and all logging are not part of
  this model.
- Promise ordering is not modelled.
  - The tokens registered by `.then(push)` are stated as a multiset, because their order is
    nondeterministic.
  - The pushes at app.js:186-228 are not awaited by `Promise.all`, so in the app they may land
    after `getEvents` returns. The model completes them inside the refresh.
  - In this sequential model the flag is never observed while a refresh is running. The guards
    are proved for a flag that is up on entry.
- The 500 ms `setTimeout` debounce of the settings router (app.js:57-62) is not modelled: the flag
  is checked when the handler runs.
- App.App.RefreshStore does not route its own settings writes. The refresh writes `icalUris`
  itself (app.js:100, 117, 134); if the host raises `on('set')` for an app's own writes, the router
  (app.js:50-66) starts `getEvents(true)` again 500 ms later whenever the flag is down by then.
  A calendar with an invalid URI is rewritten on every refresh, so this can repeat.
- Handler registration in `onInit` is represented only by the constructor's starting state. This
  covers the cron task set-up (app.js:265-290) and the flow-card registrations (handlers/triggers.js:244-305).
- The autocomplete listener of `event_starts_calendar` (handlers/triggers.js:279-299) is not
  modelled; it is user-interface glue. So is flow-token creation (handlers/triggers.js:302-305),
  which the model takes as given in `flowTokenIds`.
- Host failures are not modelled:
  - a `.catch` on a flow-card `trigger`;
  - `token.setValue` or `token.unregister` failing;
  - a config entry without a `uri` field. In the source `uri.includes` throws at app.js:97, so
    `getEvents` rejects before the flag is reset at app.js:234. `isGettingEvents` then stays up,
    and neither the cron task nor the settings router refreshes again.
- Settings values are typed.
  - An `icalUris` value that is not a calendar list counts as unset.
  - An `eventLimit` that is not a limit counts as unset, and the default is used.
  - The JSON encoding of the uid snapshot and the `hasData` test are not modelled. The snapshot is
    stored as a list of uids.
- An event text field the feed leaves out is modelled as the empty string. In the source a
  missing `summary` reaches `setValue` as `undefined` (handlers/triggers.js:142 and 209), where
  the model writes `''`. The trigger tokens blank it to `''` either way
  (handlers/triggers.js:50-51).
- sort-calendars (app.js:165) is modelled as applying the abstract `sortEvents` to each
  calendar's events, keeping the calendars, their names and their order. This is an assumption;
  the module is not modelled.
- Floating point is not modelled. Minutes are rounded with an exact integer `Math.round`.
- Instants are absolute milliseconds. moment computes its second, minute and millisecond diffs
  on absolute milliseconds, so the model's diffs at handlers/triggers.js:19-20, 37, 42, 62 and 73
  are exact, across a DST change too.
- `getNextEventCalendar`'s final `return null` branch (handlers/triggers.js:125-126) is
  unreachable and has no counterpart.
