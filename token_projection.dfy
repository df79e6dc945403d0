/** The token refresh of handlers/triggers.js (updateFlowTokens, getNextEventCalendar): every tick
    writes a value to each global flow token and to each per-calendar token. The tokens are host
    objects; the model returns the `setValue` calls in the order they are made. */
module TokenProjection {
  import opened Calendar
  import opened JsString
  import opened TokenConfig
  import Triggers

  /** A token value: the text tokens and the number tokens of the host. */
  datatype TokenValue = TextValue(text: string) | NumberValue(number: int)

  /** One `token.setValue(value)` call. */
  datatype TokenWrite = TokenWrite(tokenId: string, value: TokenValue)

  /** The clock slot of an event at instant `t`: the formatted time for a timed event, midnight
      written with the configured separator for an all-day event, and nothing for any other
      datetype. */
  function ClockStamp(c: Collaborators, fmt: DateTimeFormat, e: Event, t: Instant): (r: Option<string>)
    ensures e.datetype == DateTime ==> r == Some(c.formatTime(t, fmt.time))
    ensures e.datetype == Date ==> r == Some("00" + fmt.splitter + "00")
    ensures e.datetype.OtherDateType? ==> r == None
  {
    match e.datetype
    case DateTime => Some(c.formatTime(t, fmt.time))
    case Date => Some("00" + fmt.splitter + "00")
    case OtherDateType(_) => None
  }

  /** The ids of the global flow tokens the refresh knows. */
  const GlobalTokenIds: set<string> := {
    "event_next_title", "event_next_startdate", "event_next_startstamp", "event_next_stopdate",
    "event_next_stopstamp", "event_next_duration", "event_next_duration_minutes",
    "event_next_starts_in_minutes", "event_next_stops_in_minutes", "event_next_calendar_name",
    "events_today_title_stamps", "events_today_count", "events_tomorrow_title_stamps",
    "events_tomorrow_count"
  }

  /** The value the first loop of updateFlowTokens writes to the global token `id`, given the next
      event and today's and tomorrow's events over all calendars; `None` when it writes nothing
      (an unknown id, or a clock slot of an event of another datetype). */
  function GlobalTokenValue(c: Collaborators, fmt: DateTimeFormat, next: NextEvent, today: seq<Event>, tomorrow: seq<Event>, id: string): Option<TokenValue> {
    var has := next.event.Some?;
    if id == "event_next_title" then
      Some(TextValue(if has then next.event.value.summary else ""))
    else if id == "event_next_startdate" then
      Some(TextValue(if has then c.formatDate(next.event.value.start, fmt.dateLong) else ""))
    else if id == "event_next_startstamp" then
      if has then
        match ClockStamp(c, fmt, next.event.value, next.event.value.start)
        case Some(s) => Some(TextValue(s))
        case None => None
      else Some(TextValue(""))
    else if id == "event_next_stopdate" then
      Some(TextValue(if has then c.formatDate(next.event.value.end, fmt.dateLong) else ""))
    else if id == "event_next_stopstamp" then
      if has then
        match ClockStamp(c, fmt, next.event.value, next.event.value.end)
        case Some(s) => Some(TextValue(s))
        case None => None
      else Some(TextValue(""))
    else if id == "event_next_duration" then
      Some(TextValue(if has then Triggers.GetTriggerTokenDuration(next.event.value, c.humanize).duration else ""))
    else if id == "event_next_duration_minutes" then
      Some(NumberValue(if has then Triggers.GetTriggerTokenDuration(next.event.value, c.humanize).durationMinutes else -1))
    else if id == "event_next_starts_in_minutes" then
      Some(NumberValue(if has then next.startsIn else -1))
    else if id == "event_next_stops_in_minutes" then
      Some(NumberValue(if has then next.endsIn else -1))
    else if id == "event_next_calendar_name" then
      Some(TextValue(if has then next.calendarName else ""))
    else if id == "events_today_title_stamps" then
      Some(TextValue(c.getEventsForToken(today, fmt).GetOr("")))
    else if id == "events_today_count" then
      Some(NumberValue(|today|))
    else if id == "events_tomorrow_title_stamps" then
      Some(TextValue(c.getEventsForToken(tomorrow, fmt).GetOr("")))
    else if id == "events_tomorrow_count" then
      Some(NumberValue(|tomorrow|))
    else
      None
  }

  /** The `setValue` call, if any, for one global token. */
  function GlobalWrite(id: string, v: Option<TokenValue>): seq<TokenWrite> {
    match v
    case Some(x) => [TokenWrite(id, x)]
    case None => []
  }

  /** The writes of the first loop over the global token ids, in order. */
  function GlobalWrites(c: Collaborators, fmt: DateTimeFormat, next: NextEvent, today: seq<Event>, tomorrow: seq<Event>, ids: seq<string>): seq<TokenWrite>
    decreases |ids|
  {
    if ids == [] then []
    else
      var id := ids[|ids| - 1];
      GlobalWrites(c, fmt, next, today, tomorrow, ids[..|ids| - 1]) + GlobalWrite(id, GlobalTokenValue(c, fmt, next, today, tomorrow, id))
  }

  lemma GlobalWritesSnoc(c: Collaborators, fmt: DateTimeFormat, next: NextEvent, today: seq<Event>, tomorrow: seq<Event>, ids: seq<string>, i: nat)
    requires i < |ids|
    ensures GlobalWrites(c, fmt, next, today, tomorrow, ids[..i + 1])
         == GlobalWrites(c, fmt, next, today, tomorrow, ids[..i]) + GlobalWrite(ids[i], GlobalTokenValue(c, fmt, next, today, tomorrow, ids[i]))
  {
    assert ids[..i + 1][..i] == ids[..i];
  }

  /** With no next event every next-event token holds its missing-value marker: the empty text,
      or -1 for the three minute counts; the day counts are the list lengths, so an empty day
      writes 0, never -1. */
  lemma GlobalNoNextEvent(c: Collaborators, fmt: DateTimeFormat, next: NextEvent, today: seq<Event>, tomorrow: seq<Event>)
    requires next.event.None?
    ensures forall id :: id in {"event_next_title", "event_next_startdate", "event_next_startstamp", "event_next_stopdate",
                                "event_next_stopstamp", "event_next_duration", "event_next_calendar_name"} ==>
      GlobalTokenValue(c, fmt, next, today, tomorrow, id) == Some(TextValue(""))
    ensures forall id :: id in {"event_next_duration_minutes", "event_next_starts_in_minutes", "event_next_stops_in_minutes"} ==>
      GlobalTokenValue(c, fmt, next, today, tomorrow, id) == Some(NumberValue(-1))
    ensures GlobalTokenValue(c, fmt, next, today, tomorrow, "events_today_count") == Some(NumberValue(|today|))
    ensures GlobalTokenValue(c, fmt, next, today, tomorrow, "events_tomorrow_count") == Some(NumberValue(|tomorrow|))
    ensures today == [] ==> GlobalTokenValue(c, fmt, next, today, tomorrow, "events_today_count") == Some(NumberValue(0))
  {
  }

  /** The clock slots of the next event: midnight with the separator for an all-day event, the
      formatted clock time for a timed one, and no write for any other datetype. */
  lemma GlobalClockStamps(c: Collaborators, fmt: DateTimeFormat, next: NextEvent, today: seq<Event>, tomorrow: seq<Event>, e: Event)
    requires next.event == Some(e)
    ensures e.datetype == Date ==>
      && GlobalTokenValue(c, fmt, next, today, tomorrow, "event_next_startstamp") == Some(TextValue("00" + fmt.splitter + "00"))
      && GlobalTokenValue(c, fmt, next, today, tomorrow, "event_next_stopstamp") == Some(TextValue("00" + fmt.splitter + "00"))
    ensures e.datetype == DateTime ==>
      && GlobalTokenValue(c, fmt, next, today, tomorrow, "event_next_startstamp") == Some(TextValue(c.formatTime(e.start, fmt.time)))
      && GlobalTokenValue(c, fmt, next, today, tomorrow, "event_next_stopstamp") == Some(TextValue(c.formatTime(e.end, fmt.time)))
    ensures e.datetype.OtherDateType? ==>
      && GlobalTokenValue(c, fmt, next, today, tomorrow, "event_next_startstamp") == None
      && GlobalTokenValue(c, fmt, next, today, tomorrow, "event_next_stopstamp") == None
  {
  }

  /** `event_next_duration_minutes` is -1 exactly when there is no next event, for events that
      do not end before they start; otherwise it is the whole minutes of the event's length. */
  lemma DurationMinutesMarker(c: Collaborators, fmt: DateTimeFormat, next: NextEvent, today: seq<Event>, tomorrow: seq<Event>)
    requires next.event.Some? ==> next.event.value.start <= next.event.value.end
    ensures GlobalTokenValue(c, fmt, next, today, tomorrow, "event_next_duration_minutes") == Some(NumberValue(-1)) <==> next.event.None?
    ensures next.event.Some? ==>
      var e := next.event.value;
      var m := Triggers.GetTriggerTokenDuration(e, c.humanize).durationMinutes;
      && GlobalTokenValue(c, fmt, next, today, tomorrow, "event_next_duration_minutes") == Some(NumberValue(m))
      && 0 <= m && 60000 * m <= e.end - e.start < 60000 * m + 60000
  {
  }

  /** Only the fourteen known ids are written, and each of them is written unless it is a clock
      slot of an event of another datetype. */
  lemma GlobalTokenValueDefined(c: Collaborators, fmt: DateTimeFormat, next: NextEvent, today: seq<Event>, tomorrow: seq<Event>, id: string)
    ensures id !in GlobalTokenIds ==> GlobalTokenValue(c, fmt, next, today, tomorrow, id) == None
    ensures id in GlobalTokenIds && id != "event_next_startstamp" && id != "event_next_stopstamp" ==>
      GlobalTokenValue(c, fmt, next, today, tomorrow, id).Some?
  {
  }

  /** A write of the first loop is exactly a known token id of the list with its value. */
  lemma {:induction false} GlobalWritesMembers(c: Collaborators, fmt: DateTimeFormat, next: NextEvent, today: seq<Event>, tomorrow: seq<Event>, ids: seq<string>, w: TokenWrite)
    ensures w in GlobalWrites(c, fmt, next, today, tomorrow, ids) <==>
      w.tokenId in ids && GlobalTokenValue(c, fmt, next, today, tomorrow, w.tokenId) == Some(w.value)
    decreases |ids|
  {
    if ids != [] {
      var init := ids[..|ids| - 1];
      GlobalWritesMembers(c, fmt, next, today, tomorrow, init, w);
      assert ids == init + [ids[|ids| - 1]];
    }
  }

  // ----- Per-calendar tokens -----

  /** getNextEventCalendar: the cached answer when it is for the requested calendar, otherwise a
      fresh query for that calendar. */
  function GetNextEventCalendar(c: Collaborators, store: seq<CalendarEvents>, calendarName: string, cache: Option<NextEvent>): (r: NextEvent)
    ensures cache.Some? && cache.value.calendarName == calendarName ==> r == cache.value
    ensures !(cache.Some? && cache.value.calendarName == calendarName) ==> r == c.getNextEvent(store, Some(calendarName))
  {
    match cache
    case None => c.getNextEvent(store, Some(calendarName))
    case Some(n) => if n.calendarName != calendarName then c.getNextEvent(store, Some(calendarName)) else n
  }

  /** Whether a kind reads the next event of its calendar. */
  predicate IsNextKind(k: Kind) {
    k != Today && k != Tomorrow
  }

  /** The value written to a token of kind `k` of calendar `name`, using `next` as the calendar's
      next event; an id whose type word selects no kind gets the empty text. */
  function KindValue(c: Collaborators, store: seq<CalendarEvents>, fmt: DateTimeFormat, name: string, k: Option<Kind>, next: NextEvent): string {
    match k
    case None => ""
    case Some(Today) => c.getEventsForToken(c.getTodaysEvents(store, Some(name)), fmt).GetOr("")
    case Some(Tomorrow) => c.getEventsForToken(c.getTomorrowsEvents(store, Some(name)), fmt).GetOr("")
    case Some(NextTitle) => if next.event.Some? then next.event.value.summary else ""
    case Some(NextStartDate) => if next.event.Some? then c.formatDate(next.event.value.start, fmt.dateLong) else ""
    case Some(NextStartTime) => if next.event.Some? then ClockStamp(c, fmt, next.event.value, next.event.value.start).GetOr("") else ""
    case Some(NextEndDate) => if next.event.Some? then c.formatDate(next.event.value.end, fmt.dateLong) else ""
    case Some(NextEndTime) => if next.event.Some? then ClockStamp(c, fmt, next.event.value, next.event.value.end).GetOr("") else ""
  }

  /** The writes made so far and the `calendarNextEvent` carried to the next token. */
  datatype Pass = Pass(writes: seq<TokenWrite>, cache: Option<NextEvent>)

  /** One iteration of the second loop once the id is parsed into `name` and `k`: compute the
      value (consulting the cache for a next-event kind, and keeping its answer) and write it. */
  function ParsedStep(c: Collaborators, store: seq<CalendarEvents>, fmt: DateTimeFormat, id: string, name: string, k: Option<Kind>, cache: Option<NextEvent>): Pass {
    if k.Some? && IsNextKind(k.value) then
      var next := GetNextEventCalendar(c, store, name, cache);
      Pass([TokenWrite(id, TextValue(KindValue(c, store, fmt, name, k, next)))], Some(next))
    else
      // the next event is not consulted, so any value serves
      Pass([TokenWrite(id, TextValue(KindValue(c, store, fmt, name, k, NextEvent(None, -1, -1, ""))))], cache)
  }

  /** One iteration of the second loop: parse the id, then the parsed step. */
  function CalendarStep(c: Collaborators, store: seq<CalendarEvents>, fmt: DateTimeFormat, naming: TokenNaming, id: string, cache: Option<NextEvent>): Pass {
    ParsedStep(c, store, fmt, id, CalendarNameOf(naming, id), KindOfType(CalendarTypeOf(naming, id)), cache)
  }

  /** The second loop over the per-calendar token ids, threading the cache; it starts empty. */
  function CalendarPass(c: Collaborators, store: seq<CalendarEvents>, fmt: DateTimeFormat, naming: TokenNaming, ids: seq<string>): Pass
    decreases |ids|
  {
    if ids == [] then Pass([], None)
    else
      var p := CalendarPass(c, store, fmt, naming, ids[..|ids| - 1]);
      var s := CalendarStep(c, store, fmt, naming, ids[|ids| - 1], p.cache);
      Pass(p.writes + s.writes, s.cache)
  }

  /** The value a per-calendar token gets from a fresh query, with no cache. */
  function CalendarTokenValue(c: Collaborators, store: seq<CalendarEvents>, fmt: DateTimeFormat, naming: TokenNaming, id: string): string {
    var name := CalendarNameOf(naming, id);
    KindValue(c, store, fmt, name, KindOfType(CalendarTypeOf(naming, id)), c.getNextEvent(store, Some(name)))
  }

  /** A next-event answer reused for the calendar it names is the answer a fresh query for that
      calendar gives. This holds in particular when the query reports the calendar it was asked
      about. */
  ghost predicate ReportsOwnCalendar(q: (seq<CalendarEvents>, Option<string>) -> NextEvent, store: seq<CalendarEvents>) {
    forall n: string :: q(store, Some(q(store, Some(n)).calendarName)) == q(store, Some(n))
  }

  /** The cache holds an answer of the query for the calendar it names. */
  ghost predicate CacheSound(q: (seq<CalendarEvents>, Option<string>) -> NextEvent, store: seq<CalendarEvents>, cache: Option<NextEvent>) {
    cache.Some? ==> cache.value == q(store, Some(cache.value.calendarName))
  }

  /** A sound cache gives the parsed token the uncached value and stays sound. */
  lemma ParsedStepTransparent(c: Collaborators, store: seq<CalendarEvents>, fmt: DateTimeFormat, id: string, name: string, k: Option<Kind>, cache: Option<NextEvent>)
    requires ReportsOwnCalendar(c.getNextEvent, store) && CacheSound(c.getNextEvent, store, cache)
    ensures ParsedStep(c, store, fmt, id, name, k, cache).writes == [TokenWrite(id, TextValue(KindValue(c, store, fmt, name, k, c.getNextEvent(store, Some(name)))))]
    ensures CacheSound(c.getNextEvent, store, ParsedStep(c, store, fmt, id, name, k, cache).cache)
  {
    if k.Some? && IsNextKind(k.value) {
      var next := GetNextEventCalendar(c, store, name, cache);
      assert next == c.getNextEvent(store, Some(name));
      assert c.getNextEvent(store, Some(next.calendarName)) == next;
    }
  }

  lemma CalendarStepTransparent(c: Collaborators, store: seq<CalendarEvents>, fmt: DateTimeFormat, naming: TokenNaming, id: string, cache: Option<NextEvent>)
    requires ReportsOwnCalendar(c.getNextEvent, store) && CacheSound(c.getNextEvent, store, cache)
    ensures CalendarStep(c, store, fmt, naming, id, cache).writes == [TokenWrite(id, TextValue(CalendarTokenValue(c, store, fmt, naming, id)))]
    ensures CacheSound(c.getNextEvent, store, CalendarStep(c, store, fmt, naming, id, cache).cache)
  {
    ParsedStepTransparent(c, store, fmt, id, CalendarNameOf(naming, id), KindOfType(CalendarTypeOf(naming, id)), cache);
  }

  /** The reference for the second loop: every token gets the value of a fresh query, in order. */
  function UncachedWrites(c: Collaborators, store: seq<CalendarEvents>, fmt: DateTimeFormat, naming: TokenNaming, ids: seq<string>): (r: seq<TokenWrite>)
    ensures |r| == |ids|
    decreases |ids|
  {
    if ids == [] then []
    else
      var last := ids[|ids| - 1];
      UncachedWrites(c, store, fmt, naming, ids[..|ids| - 1]) + [TokenWrite(last, TextValue(CalendarTokenValue(c, store, fmt, naming, last)))]
  }

  /** The cache of the second loop is transparent: with a query that reports its own calendar, the
      writes are those of fresh queries, one per token id, in order. */
  lemma {:induction false} CalendarPassTransparent(c: Collaborators, store: seq<CalendarEvents>, fmt: DateTimeFormat, naming: TokenNaming, ids: seq<string>)
    requires ReportsOwnCalendar(c.getNextEvent, store)
    ensures CalendarPass(c, store, fmt, naming, ids).writes == UncachedWrites(c, store, fmt, naming, ids)
    ensures CacheSound(c.getNextEvent, store, CalendarPass(c, store, fmt, naming, ids).cache)
    decreases |ids|
  {
    if ids != [] {
      var init := ids[..|ids| - 1];
      var p := CalendarPass(c, store, fmt, naming, init);
      CalendarPassTransparent(c, store, fmt, naming, init);
      CalendarStepTransparent(c, store, fmt, naming, ids[|ids| - 1], p.cache);
    }
  }

  /** A generated id of a calendar whose name holds no id suffix gets that calendar's value for
      its kind. */
  lemma GeneratedTokenValue(c: Collaborators, store: seq<CalendarEvents>, fmt: DateTimeFormat, naming: TokenNaming, name: string, k: Kind)
    requires Conventional(naming) && NoSuffixIn(name)
    ensures CalendarTokenValue(c, store, fmt, naming, TokenId(naming, name, k))
         == KindValue(c, store, fmt, name, Some(k), c.getNextEvent(store, Some(name)))
  {
    ParseTokenId(naming, name, k);
  }

  /** Per-calendar missing values: with no next event the five next-event kinds are the empty
      text; an all-day event's clock slots are midnight with the separator, a timed event's the
      formatted clock time, any other datetype's the empty text. */
  lemma KindValueMarkers(c: Collaborators, store: seq<CalendarEvents>, fmt: DateTimeFormat, name: string, k: Kind, next: NextEvent)
    ensures IsNextKind(k) && next.event.None? ==> KindValue(c, store, fmt, name, Some(k), next) == ""
    ensures next.event.Some? && next.event.value.datetype == Date ==>
      && KindValue(c, store, fmt, name, Some(NextStartTime), next) == "00" + fmt.splitter + "00"
      && KindValue(c, store, fmt, name, Some(NextEndTime), next) == "00" + fmt.splitter + "00"
    ensures next.event.Some? && next.event.value.datetype == DateTime ==>
      && KindValue(c, store, fmt, name, Some(NextStartTime), next) == c.formatTime(next.event.value.start, fmt.time)
      && KindValue(c, store, fmt, name, Some(NextEndTime), next) == c.formatTime(next.event.value.end, fmt.time)
    ensures next.event.Some? && next.event.value.datetype.OtherDateType? ==>
      && KindValue(c, store, fmt, name, Some(NextStartTime), next) == ""
      && KindValue(c, store, fmt, name, Some(NextEndTime), next) == ""
  {
  }

  lemma CalendarPassSnoc(c: Collaborators, store: seq<CalendarEvents>, fmt: DateTimeFormat, naming: TokenNaming, ids: seq<string>, j: nat)
    requires j < |ids|
    ensures CalendarPass(c, store, fmt, naming, ids[..j + 1])
         == var p := CalendarPass(c, store, fmt, naming, ids[..j]);
            var s := CalendarStep(c, store, fmt, naming, ids[j], p.cache);
            Pass(p.writes + s.writes, s.cache)
  {
    assert ids[..j + 1][..j] == ids[..j];
  }

  /** The `setValue` calls of one token refresh: the global tokens in list order, then the
      per-calendar tokens. */
  function FlowTokenWrites(c: Collaborators, store: seq<CalendarEvents>, fmt: DateTimeFormat, naming: TokenNaming,
                           flowTokenIds: seq<string>, calendarTokenIds: seq<string>): seq<TokenWrite> {
    GlobalWrites(c, fmt, c.getNextEvent(store, None), c.getTodaysEvents(store, None), c.getTomorrowsEvents(store, None), flowTokenIds)
      + CalendarPass(c, store, fmt, naming, calendarTokenIds).writes
  }

  /** updateFlowTokens: the next event and the day lists over all calendars are read once; then
      the global tokens are written in list order, then the per-calendar tokens. */
  method UpdateFlowTokens(c: Collaborators, store: seq<CalendarEvents>, fmt: DateTimeFormat, naming: TokenNaming,
                          flowTokenIds: seq<string>, calendarTokenIds: seq<string>) returns (writes: seq<TokenWrite>)
    ensures writes == FlowTokenWrites(c, store, fmt, naming, flowTokenIds, calendarTokenIds)
  {
    var next := c.getNextEvent(store, None);
    var today := c.getTodaysEvents(store, None);
    var tomorrow := c.getTomorrowsEvents(store, None);
    var globalWrites := UpdateGlobalTokens(c, fmt, next, today, tomorrow, flowTokenIds);
    var calendarWrites := UpdateCalendarTokens(c, store, fmt, naming, calendarTokenIds);
    writes := globalWrites + calendarWrites;
  }

  /** The first loop: one `setValue` per known global token id. */
  method UpdateGlobalTokens(c: Collaborators, fmt: DateTimeFormat, next: NextEvent, today: seq<Event>, tomorrow: seq<Event>, flowTokenIds: seq<string>)
    returns (writes: seq<TokenWrite>)
    ensures writes == GlobalWrites(c, fmt, next, today, tomorrow, flowTokenIds)
  {
    writes := [];
    var i := 0;
    while i < |flowTokenIds|
      invariant 0 <= i <= |flowTokenIds|
      invariant writes == GlobalWrites(c, fmt, next, today, tomorrow, flowTokenIds[..i])
    {
      GlobalWritesSnoc(c, fmt, next, today, tomorrow, flowTokenIds, i);
      var v := GlobalTokenValue(c, fmt, next, today, tomorrow, flowTokenIds[i]);
      if v.Some? {
        writes := writes + [TokenWrite(flowTokenIds[i], v.value)];
      }
      i := i + 1;
    }
    assert flowTokenIds[..i] == flowTokenIds;
  }

  /** The second loop: one `setValue` per per-calendar token, threading `calendarNextEvent`. */
  method UpdateCalendarTokens(c: Collaborators, store: seq<CalendarEvents>, fmt: DateTimeFormat, naming: TokenNaming, calendarTokenIds: seq<string>)
    returns (writes: seq<TokenWrite>)
    ensures writes == CalendarPass(c, store, fmt, naming, calendarTokenIds).writes
  {
    writes := [];
    var calendarNextEvent: Option<NextEvent> := None;
    var j := 0;
    while j < |calendarTokenIds|
      invariant 0 <= j <= |calendarTokenIds|
      invariant writes == CalendarPass(c, store, fmt, naming, calendarTokenIds[..j]).writes
      invariant calendarNextEvent == CalendarPass(c, store, fmt, naming, calendarTokenIds[..j]).cache
    {
      CalendarPassSnoc(c, store, fmt, naming, calendarTokenIds, j);
      var step := CalendarStep(c, store, fmt, naming, calendarTokenIds[j], calendarNextEvent);
      writes := writes + step.writes;
      calendarNextEvent := step.cache;
      j := j + 1;
    }
    assert calendarTokenIds[..j] == calendarTokenIds;
  }
}
