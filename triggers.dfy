/** The periodic trigger scan of handlers/triggers.js: every event of every calendar is classified
    against the current time, and the start, stop, starts-in and stops-in flow cards are fired
    with the event's tokens. The fired cards are returned as a log, in firing order. */
module Triggers {
  import opened Calendar
  import opened JsNumber
  import opened Seqs

  /** The scan tolerance: a start or stop is reported for this many whole seconds after it. */
  const ToleranceSeconds := 55

  const MsPerSecond := 1000
  const MsPerMinute := 60000

  /** `now.diff(t, 'seconds')`: whole seconds from `t` to `now`, truncated toward zero. */
  function DiffSeconds(now: Instant, t: Instant): int {
    TruncDiv(now - t, MsPerSecond)
  }

  /** The four decisions of one event in one scan. */
  datatype Firing = Firing(starts: bool, stops: bool, startsInCheck: bool, stopsInCheck: bool)

  function Classify(now: Instant, e: Event): Firing {
    var startDiff := DiffSeconds(now, e.start);
    var endDiff := DiffSeconds(now, e.end);
    var resultStart := 0 <= startDiff <= ToleranceSeconds && endDiff <= 0;
    var resultEnd := 0 <= endDiff <= ToleranceSeconds;
    Firing(resultStart, resultEnd, !resultStart && startDiff < 0, !resultEnd && endDiff < 0)
  }

  /** The start window in milliseconds: truncation makes it open at -1 s and at +56 s. */
  predicate InStartWindow(now: Instant, e: Event) {
    -1000 < now - e.start < 56000 && now - e.end < 1000
  }

  predicate InStopWindow(now: Instant, e: Event) {
    -1000 < now - e.end < 56000
  }

  /** What the four decisions mean in milliseconds. */
  lemma ClassifyWindows(now: Instant, e: Event)
    ensures Classify(now, e).starts <==> InStartWindow(now, e)
    ensures Classify(now, e).stops <==> InStopWindow(now, e)
    ensures Classify(now, e).startsInCheck <==> e.start - now >= 1000
    ensures Classify(now, e).stopsInCheck <==> e.end - now >= 1000
  {
  }

  /** Starting now and starting in N minutes never fire together; nor do stopping and stopping in N. */
  lemma ClassifyExclusive(now: Instant, e: Event)
    ensures !(Classify(now, e).starts && Classify(now, e).startsInCheck)
    ensures !(Classify(now, e).stops && Classify(now, e).stopsInCheck)
    ensures Classify(now, e).startsInCheck ==> DiffSeconds(now, e.start) < 0
    ensures Classify(now, e).stopsInCheck ==> DiffSeconds(now, e.end) < 0
  {
  }

  /** The flow cards `event_starts`, `event_starts_calendar`, `event_stops`, `event_starts_in` and
      `event_stops_in`. */
  datatype Card = EventStarts | EventStartsCalendar | EventStops | EventStartsIn | EventStopsIn

  /** The state a card is fired with; `NoState` is `trigger(tokens)` without a state argument. */
  datatype TriggerState = NoState | CalendarState(calendarName: string) | WhenState(when: int)

  datatype TriggerTokens = TriggerTokens(
    eventName: string,
    eventDescription: string,
    eventLocation: string,
    eventDurationReadable: string,
    eventDuration: int,
    eventCalendarName: string)

  datatype Notification = Notification(card: Card, tokens: TriggerTokens, state: TriggerState)

  /** The whitespace-only texts that a trigger token reports as empty. The list is closed: other
      blank texts, such as two spaces or a tab, are passed through. */
  const BlankLiterals: set<string> := {
    "", " ", "\n", "\\n", "\n ", "\\n ", "\r", "\\r", "\r ", "\\r ",
    "\r\n", "\\r\\n", "\r\n ", "\\r\\n ", "\n\r", "\\n\\r", "\n\r ", "\\n\\r "
  }

  /** getTriggerTokenValue: empty for a missing text or one of the blank literals, otherwise the
      text itself. */
  function GetTriggerTokenValue(key: string): (r: string)
    ensures r == "" <==> key in BlankLiterals
    ensures r != "" ==> r == key
  {
    if key == "" then ""
    else if key == "" || key == " " || key == "\n" || key == "\\n" || key == "\n " || key == "\\n "
      || key == "\r" || key == "\\r" || key == "\r " || key == "\\r " || key == "\r\n" || key == "\\r\\n"
      || key == "\r\n " || key == "\\r\\n " || key == "\n\r" || key == "\\n\\r" || key == "\n\r "
      || key == "\\n\\r "
    then ""
    else key
  }

  /** Blanking twice is blanking once. */
  lemma GetTriggerTokenValueIdempotent(key: string)
    ensures GetTriggerTokenValue(GetTriggerTokenValue(key)) == GetTriggerTokenValue(key)
  {
  }

  /** The blank list is not a trim: two spaces survive it. */
  lemma TwoSpacesAreKept()
    ensures GetTriggerTokenValue("  ") == "  "
  {
  }

  datatype Duration = Duration(duration: string, durationMinutes: int)

  /** getTriggerTokenDuration: the readable duration, and the whole minutes of the event
      (truncated toward zero, so never negative for an event that does not end before it starts). */
  function GetTriggerTokenDuration(e: Event, humanize: int -> string): (d: Duration)
    ensures d.duration == humanize(e.end - e.start)
    ensures e.start <= e.end ==> 0 <= d.durationMinutes && MsPerMinute * d.durationMinutes <= e.end - e.start < MsPerMinute * d.durationMinutes + MsPerMinute
  {
    Duration(humanize(e.end - e.start), TruncDiv(e.end - e.start, MsPerMinute))
  }

  /** The tokens every card of one event carries. */
  function EventTokens(calendarName: string, e: Event, humanize: int -> string): TriggerTokens {
    var d := GetTriggerTokenDuration(e, humanize);
    TriggerTokens(GetTriggerTokenValue(e.summary), GetTriggerTokenValue(e.description),
                  GetTriggerTokenValue(e.location), d.duration, d.durationMinutes, calendarName)
  }

  /** startTrigger: one card firing with the event's tokens. */
  function StartTrigger(calendarName: string, e: Event, card: Card, state: TriggerState, humanize: int -> string): Notification {
    Notification(card, EventTokens(calendarName, e, humanize), state)
  }

  /** The minutes carried by starts-in: `Math.round` of the fractional minutes until the start. */
  function StartsInMinutes(now: Instant, e: Event): int {
    RoundDiv(e.start - now, MsPerMinute)
  }

  function StopsInMinutes(now: Instant, e: Event): int {
    RoundDiv(e.end - now, MsPerMinute)
  }

  /** The cards one event fires in one scan, in the order the scan fires them. */
  function EventNotifications(calendarName: string, e: Event, now: Instant, humanize: int -> string): seq<Notification> {
    StartPart(calendarName, e, now, humanize) + StopPart(calendarName, e, now, humanize)
    + StartsInPart(calendarName, e, now, humanize) + StopsInPart(calendarName, e, now, humanize)
  }

  /** A start fires event_starts without a state, then event_starts_calendar with the calendar. */
  function StartPart(calendarName: string, e: Event, now: Instant, humanize: int -> string): seq<Notification> {
    if Classify(now, e).starts then
      [StartTrigger(calendarName, e, EventStarts, NoState, humanize),
       StartTrigger(calendarName, e, EventStartsCalendar, CalendarState(calendarName), humanize)]
    else []
  }

  function StopPart(calendarName: string, e: Event, now: Instant, humanize: int -> string): seq<Notification> {
    if Classify(now, e).stops then [StartTrigger(calendarName, e, EventStops, NoState, humanize)] else []
  }

  function StartsInPart(calendarName: string, e: Event, now: Instant, humanize: int -> string): seq<Notification> {
    if Classify(now, e).startsInCheck
    then [StartTrigger(calendarName, e, EventStartsIn, WhenState(StartsInMinutes(now, e)), humanize)]
    else []
  }

  function StopsInPart(calendarName: string, e: Event, now: Instant, humanize: int -> string): seq<Notification> {
    if Classify(now, e).stopsInCheck
    then [StartTrigger(calendarName, e, EventStopsIn, WhenState(StopsInMinutes(now, e)), humanize)]
    else []
  }

  /** How many notifications of `r` fire card `c`. */
  function CountCard(r: seq<Notification>, c: Card): nat {
    if r == [] then 0 else (if r[0].card == c then 1 else 0) + CountCard(r[1..], c)
  }

  lemma {:induction false} CountCardAppend(a: seq<Notification>, b: seq<Notification>, c: Card)
    ensures CountCard(a + b, c) == CountCard(a, c) + CountCard(b, c)
  {
    if a == [] {
      assert a + b == b;
    } else {
      assert (a + b)[1..] == a[1..] + b;
      CountCardAppend(a[1..], b, c);
    }
  }

  /** The state each card is fired with, and the rounded minutes of starts-in and stops-in. */
  predicate WellStated(calendarName: string, e: Event, now: Instant, n: Notification) {
    match n.card
    case EventStarts => n.state == NoState
    case EventStops => n.state == NoState
    case EventStartsCalendar => n.state == CalendarState(calendarName)
    case EventStartsIn =>
      n.state.WhenState? && 2 * MsPerMinute * n.state.when - MsPerMinute <= 2 * (e.start - now) < 2 * MsPerMinute * n.state.when + MsPerMinute
    case EventStopsIn =>
      n.state.WhenState? && 2 * MsPerMinute * n.state.when - MsPerMinute <= 2 * (e.end - now) < 2 * MsPerMinute * n.state.when + MsPerMinute
  }

  lemma CountCardSingleton(n: Notification, c: Card)
    ensures CountCard([n], c) == if n.card == c then 1 else 0
  {
    assert [n][1..] == [];
  }

  lemma CountCardPair(n: Notification, m: Notification, c: Card)
    ensures CountCard([n, m], c) == (if n.card == c then 1 else 0) + (if m.card == c then 1 else 0)
  {
    assert [n, m] == [n] + [m];
    CountCardAppend([n], [m], c);
    CountCardSingleton(n, c);
    CountCardSingleton(m, c);
  }

  /** How often one event fires each card in one scan: event_starts exactly when it is in the
      start window, and event_starts_calendar as often; event_stops exactly when in the stop
      window; starts-in and stops-in exactly when the start (end) is at least a second away. */
  lemma EventCardCounts(calendarName: string, e: Event, now: Instant, humanize: int -> string)
    ensures var r := EventNotifications(calendarName, e, now, humanize);
      && CountCard(r, EventStarts) == (if InStartWindow(now, e) then 1 else 0)
      && CountCard(r, EventStartsCalendar) == CountCard(r, EventStarts)
      && CountCard(r, EventStops) == (if InStopWindow(now, e) then 1 else 0)
      && CountCard(r, EventStartsIn) == (if e.start - now >= 1000 then 1 else 0)
      && CountCard(r, EventStopsIn) == (if e.end - now >= 1000 then 1 else 0)
  {
    ClassifyWindows(now, e);
    var a := StartPart(calendarName, e, now, humanize);
    var b := StopPart(calendarName, e, now, humanize);
    var c := StartsInPart(calendarName, e, now, humanize);
    var d := StopsInPart(calendarName, e, now, humanize);
    forall k: Card
      ensures CountCard(a + b + c + d, k) == CountCard(a, k) + CountCard(b, k) + CountCard(c, k) + CountCard(d, k)
      ensures CountCard(a, k) == (if Classify(now, e).starts && (k == EventStarts || k == EventStartsCalendar) then 1 else 0)
      ensures CountCard(b, k) == (if Classify(now, e).stops && k == EventStops then 1 else 0)
      ensures CountCard(c, k) == (if Classify(now, e).startsInCheck && k == EventStartsIn then 1 else 0)
      ensures CountCard(d, k) == (if Classify(now, e).stopsInCheck && k == EventStopsIn then 1 else 0)
    {
      CountCardAppend(a + b + c, d, k);
      CountCardAppend(a + b, c, k);
      CountCardAppend(a, b, k);
      if a != [] { CountCardPair(a[0], a[1], k); }
      if b != [] { CountCardSingleton(b[0], k); }
      if c != [] { CountCardSingleton(c[0], k); }
      if d != [] { CountCardSingleton(d[0], k); }
    }
  }

  /** A start fires event_starts without a state, immediately followed by event_starts_calendar
      with the calendar's name as its state, both first in the event's notifications. */
  lemma EventStartsPair(calendarName: string, e: Event, now: Instant, humanize: int -> string)
    requires InStartWindow(now, e)
    ensures var r := EventNotifications(calendarName, e, now, humanize);
      |r| >= 2 &&
      r[0] == Notification(EventStarts, EventTokens(calendarName, e, humanize), NoState) &&
      r[1] == Notification(EventStartsCalendar, EventTokens(calendarName, e, humanize), CalendarState(calendarName))
  {
    ClassifyWindows(now, e);
  }

  /** Every notification of an event carries the event's tokens and the state its card takes,
      with the rounded minutes for starts-in and stops-in. */
  lemma EventNotificationsStated(calendarName: string, e: Event, now: Instant, humanize: int -> string)
    ensures forall n :: n in EventNotifications(calendarName, e, now, humanize) ==>
      n.tokens == EventTokens(calendarName, e, humanize) && WellStated(calendarName, e, now, n)
  {
    StartsInStated(calendarName, e, now, humanize);
    StopsInStated(calendarName, e, now, humanize);
    var a := StartPart(calendarName, e, now, humanize);
    var b := StopPart(calendarName, e, now, humanize);
    var c := StartsInPart(calendarName, e, now, humanize);
    var d := StopsInPart(calendarName, e, now, humanize);
    forall n: Notification | n in a + b + c + d
      ensures n.tokens == EventTokens(calendarName, e, humanize) && WellStated(calendarName, e, now, n)
    {
      assert n in a || n in b || n in c || n in d;
    }
  }

  lemma StartsInStated(calendarName: string, e: Event, now: Instant, humanize: int -> string)
    ensures forall n :: n in StartsInPart(calendarName, e, now, humanize) ==>
      n.tokens == EventTokens(calendarName, e, humanize) && WellStated(calendarName, e, now, n)
  {
    if Classify(now, e).startsInCheck {
      var n := StartsInPart(calendarName, e, now, humanize)[0];
      assert n.state == WhenState(RoundDiv(e.start - now, MsPerMinute));
    }
  }

  lemma StopsInStated(calendarName: string, e: Event, now: Instant, humanize: int -> string)
    ensures forall n :: n in StopsInPart(calendarName, e, now, humanize) ==>
      n.tokens == EventTokens(calendarName, e, humanize) && WellStated(calendarName, e, now, n)
  {
    if Classify(now, e).stopsInCheck {
      var n := StopsInPart(calendarName, e, now, humanize)[0];
      assert n.state == WhenState(RoundDiv(e.end - now, MsPerMinute));
    }
  }

  /** The notifications of each of one calendar's events, in list order. */
  function PerEvent(calendarName: string, events: seq<Event>, now: Instant, humanize: int -> string): (r: seq<seq<Notification>>)
    ensures |r| == |events|
  {
    seq(|events|, j requires 0 <= j < |events| => EventNotifications(calendarName, events[j], now, humanize))
  }

  /** The scan of one calendar's events, in list order. */
  function ScanEvents(calendarName: string, events: seq<Event>, now: Instant, humanize: int -> string): seq<Notification> {
    Flatten(PerEvent(calendarName, events, now, humanize))
  }

  /** The scans of each calendar, in store order. */
  function PerCalendar(calendars: seq<CalendarEvents>, now: Instant, humanize: int -> string): (r: seq<seq<Notification>>)
    ensures |r| == |calendars|
  {
    seq(|calendars|, i requires 0 <= i < |calendars| => ScanEvents(calendars[i].name, calendars[i].events, now, humanize))
  }

  /** The whole scan of triggerAllEvents, calendar by calendar. */
  function ScanCalendars(calendars: seq<CalendarEvents>, now: Instant, humanize: int -> string): seq<Notification> {
    Flatten(PerCalendar(calendars, now, humanize))
  }

  lemma ScanEventsSnoc(calendarName: string, events: seq<Event>, j: nat, now: Instant, humanize: int -> string)
    requires j < |events|
    ensures ScanEvents(calendarName, events[..j + 1], now, humanize)
         == ScanEvents(calendarName, events[..j], now, humanize) + EventNotifications(calendarName, events[j], now, humanize)
  {
    assert PerEvent(calendarName, events[..j + 1], now, humanize)[..j] == PerEvent(calendarName, events[..j], now, humanize);
  }

  lemma ScanCalendarsSnoc(calendars: seq<CalendarEvents>, i: nat, now: Instant, humanize: int -> string)
    requires i < |calendars|
    ensures ScanCalendars(calendars[..i + 1], now, humanize)
         == ScanCalendars(calendars[..i], now, humanize) + ScanEvents(calendars[i].name, calendars[i].events, now, humanize)
  {
    assert PerCalendar(calendars[..i + 1], now, humanize)[..i] == PerCalendar(calendars[..i], now, humanize);
  }

  /** triggerAllEvents: the loop over the calendars, firing as it goes. */
  method TriggerAllEvents(calendars: seq<CalendarEvents>, now: Instant, humanize: int -> string) returns (fired: seq<Notification>)
    ensures fired == ScanCalendars(calendars, now, humanize)
  {
    fired := [];
    var i := 0;
    while i < |calendars|
      invariant 0 <= i <= |calendars|
      invariant fired == ScanCalendars(calendars[..i], now, humanize)
    {
      var firedHere := TriggerCalendarEvents(calendars[i], now, humanize);
      fired := fired + firedHere;
      ScanCalendarsSnoc(calendars, i, now, humanize);
      i := i + 1;
    }
    assert calendars[..i] == calendars;
  }

  /** The inner loop of triggerAllEvents over one calendar's events. */
  method TriggerCalendarEvents(calendar: CalendarEvents, now: Instant, humanize: int -> string) returns (fired: seq<Notification>)
    ensures fired == ScanEvents(calendar.name, calendar.events, now, humanize)
  {
    fired := [];
    var j := 0;
    while j < |calendar.events|
      invariant 0 <= j <= |calendar.events|
      invariant fired == ScanEvents(calendar.name, calendar.events[..j], now, humanize)
    {
      var firedByEvent := EventNotifications(calendar.name, calendar.events[j], now, humanize);
      fired := fired + firedByEvent;
      ScanEventsSnoc(calendar.name, calendar.events, j, now, humanize);
      j := j + 1;
    }
    assert calendar.events[..j] == calendar.events;
  }

  /** A notification of a calendar's scan is one of the notifications of one of its events, and
      every notification of every event is in the scan. */
  lemma ScanEventsMembers(calendarName: string, events: seq<Event>, now: Instant, humanize: int -> string, n: Notification)
    ensures n in ScanEvents(calendarName, events, now, humanize) <==>
      exists j :: 0 <= j < |events| && n in EventNotifications(calendarName, events[j], now, humanize)
  {
    var per := PerEvent(calendarName, events, now, humanize);
    FlattenMembers(per, n);
    if n in ScanEvents(calendarName, events, now, humanize) {
      var j :| 0 <= j < |per| && n in per[j];
      assert n in EventNotifications(calendarName, events[j], now, humanize);
    } else {
      forall j | 0 <= j < |events| ensures n !in EventNotifications(calendarName, events[j], now, humanize) {
        assert per[j] == EventNotifications(calendarName, events[j], now, humanize);
      }
    }
  }

  /** A notification is in the whole scan iff some event of some calendar fires it. */
  lemma ScanCalendarsMembers(calendars: seq<CalendarEvents>, now: Instant, humanize: int -> string, n: Notification)
    ensures n in ScanCalendars(calendars, now, humanize) <==>
      exists i, j :: 0 <= i < |calendars| && 0 <= j < |calendars[i].events|
        && n in EventNotifications(calendars[i].name, calendars[i].events[j], now, humanize)
  {
    var per := PerCalendar(calendars, now, humanize);
    FlattenMembers(per, n);
    if n in ScanCalendars(calendars, now, humanize) {
      var i :| 0 <= i < |per| && n in per[i];
      ScanEventsMembers(calendars[i].name, calendars[i].events, now, humanize, n);
      var j :| 0 <= j < |calendars[i].events| && n in EventNotifications(calendars[i].name, calendars[i].events[j], now, humanize);
    } else {
      forall i, j | 0 <= i < |calendars| && 0 <= j < |calendars[i].events|
        ensures n !in EventNotifications(calendars[i].name, calendars[i].events[j], now, humanize)
      {
        assert per[i] == ScanEvents(calendars[i].name, calendars[i].events, now, humanize);
        ScanEventsMembers(calendars[i].name, calendars[i].events, now, humanize, n);
      }
    }
  }

  /** In the whole scan, every event_starts is matched by one event_starts_calendar. */
  lemma {:induction false} ScanStartsPaired(calendars: seq<CalendarEvents>, now: Instant, humanize: int -> string)
    decreases |calendars|
    ensures CountCard(ScanCalendars(calendars, now, humanize), EventStarts)
         == CountCard(ScanCalendars(calendars, now, humanize), EventStartsCalendar)
  {
    if calendars != [] {
      var k := |calendars| - 1;
      var last := calendars[k];
      assert calendars[..k + 1] == calendars;
      ScanCalendarsSnoc(calendars, k, now, humanize);
      ScanStartsPaired(calendars[..k], now, humanize);
      ScanEventsStartsPaired(last.name, last.events, now, humanize);
      CountCardAppend(ScanCalendars(calendars[..k], now, humanize), ScanEvents(last.name, last.events, now, humanize), EventStarts);
      CountCardAppend(ScanCalendars(calendars[..k], now, humanize), ScanEvents(last.name, last.events, now, humanize), EventStartsCalendar);
    } else {
      assert ScanCalendars(calendars, now, humanize) == [];
    }
  }

  lemma {:induction false} ScanEventsStartsPaired(calendarName: string, events: seq<Event>, now: Instant, humanize: int -> string)
    decreases |events|
    ensures CountCard(ScanEvents(calendarName, events, now, humanize), EventStarts)
         == CountCard(ScanEvents(calendarName, events, now, humanize), EventStartsCalendar)
  {
    if events != [] {
      var k := |events| - 1;
      var last := events[k];
      assert events[..k + 1] == events;
      ScanEventsSnoc(calendarName, events, k, now, humanize);
      ScanEventsStartsPaired(calendarName, events[..k], now, humanize);
      EventCardCounts(calendarName, last, now, humanize);
      CountCardAppend(ScanEvents(calendarName, events[..k], now, humanize), EventNotifications(calendarName, last, now, humanize), EventStarts);
      CountCardAppend(ScanEvents(calendarName, events[..k], now, humanize), EventNotifications(calendarName, last, now, humanize), EventStartsCalendar);
    } else {
      assert ScanEvents(calendarName, events, now, humanize) == [];
    }
  }

  /** The flow card's `when` and `type` arguments of starts-in and stops-in. */
  datatype WhenArgs = WhenArgs(when: int, unit: string)

  /** The run listener of event_starts_in and event_stops_in: an exact match of the subscriber's
      minutes against the state's minutes, not a range. */
  predicate WhenListener(convertToMinutes: (int, string) -> int, args: WhenArgs, state: TriggerState) {
    match state
    case WhenState(w) => convertToMinutes(args.when, args.unit) == w
    case _ => false
  }

  /** The run listener of event_starts_calendar: the chosen calendar's name against the state's. */
  predicate CalendarListener(argsCalendarName: string, state: TriggerState) {
    match state
    case CalendarState(name) => argsCalendarName == name
    case _ => false
  }

  /** An event starting exactly `m` whole minutes from now fires starts-in once, and a subscriber
      is notified exactly when its requested minutes equal `m` (so 30, not 29 or 31, for m = 30). */
  lemma StartsInExactMatch(calendarName: string, e: Event, now: Instant, humanize: int -> string,
                              m: int, convertToMinutes: (int, string) -> int, args: WhenArgs)
    requires m >= 1 && e.start - now == 60000 * m
    ensures CountCard(EventNotifications(calendarName, e, now, humanize), EventStartsIn) == 1
    ensures forall n :: n in EventNotifications(calendarName, e, now, humanize) && n.card == EventStartsIn ==>
        n.state == WhenState(m) &&
        (WhenListener(convertToMinutes, args, n.state) <==> convertToMinutes(args.when, args.unit) == m)
  {
    EventCardCounts(calendarName, e, now, humanize);
    RoundDivUnique(e.start - now, MsPerMinute, m);
    var a := StartPart(calendarName, e, now, humanize);
    var b := StopPart(calendarName, e, now, humanize);
    var c := StartsInPart(calendarName, e, now, humanize);
    var d := StopsInPart(calendarName, e, now, humanize);
    assert c == [StartTrigger(calendarName, e, EventStartsIn, WhenState(m), humanize)];
    forall n: Notification | n in a + b + c + d && n.card == EventStartsIn
      ensures n.state == WhenState(m)
    {
      assert n !in a && n !in b && n !in d;
    }
  }

  /** What the three run listeners decide on the notifications of one event: a starts-in or
      stops-in subscriber is notified exactly when its minutes equal the rounded minutes until the
      start (end), and an event_starts_calendar subscriber exactly when it chose this calendar. */
  lemma ListenersDecide(calendarName: string, e: Event, now: Instant, humanize: int -> string,
                        convertToMinutes: (int, string) -> int, args: WhenArgs, chosen: string)
    ensures forall n :: n in EventNotifications(calendarName, e, now, humanize) ==>
      && (n.card == EventStartsIn ==>
            (WhenListener(convertToMinutes, args, n.state) <==> convertToMinutes(args.when, args.unit) == StartsInMinutes(now, e)))
      && (n.card == EventStopsIn ==>
            (WhenListener(convertToMinutes, args, n.state) <==> convertToMinutes(args.when, args.unit) == StopsInMinutes(now, e)))
      && (n.card == EventStartsCalendar ==> (CalendarListener(chosen, n.state) <==> chosen == calendarName))
  {
    EventNotificationsStated(calendarName, e, now, humanize);
    forall n: Notification | n in EventNotifications(calendarName, e, now, humanize) && (n.card == EventStartsIn || n.card == EventStopsIn)
      ensures n.card == EventStartsIn ==> n.state == WhenState(StartsInMinutes(now, e))
      ensures n.card == EventStopsIn ==> n.state == WhenState(StopsInMinutes(now, e))
    {
      assert WellStated(calendarName, e, now, n);
      if n.card == EventStartsIn {
        RoundDivUnique(e.start - now, MsPerMinute, n.state.when);
      } else {
        RoundDivUnique(e.end - now, MsPerMinute, n.state.when);
      }
    }
  }

  /** Two scans that both report the same start are less than 57 seconds apart, so scans at
      least 57 seconds apart report each start at most once. */
  lemma StartAtMostOnce(e: Event, t1: Instant, t2: Instant)
    requires Classify(t1, e).starts && Classify(t2, e).starts
    ensures -57000 < t2 - t1 < 57000
  {
    ClassifyWindows(t1, e);
    ClassifyWindows(t2, e);
  }

  /** Scans no more than 56.999 seconds apart, the first not after the start window closes and
      the last not before it opens, report the start of an event that lasts at least 55 seconds. */
  lemma {:induction false} StartAtLeastOnce(e: Event, ticks: seq<Instant>)
    requires |ticks| > 0
    requires e.end - e.start >= 55000
    requires ticks[0] - e.start < 56000 && ticks[|ticks| - 1] - e.start > -1000
    requires forall i :: 0 <= i < |ticks| - 1 ==> ticks[i] < ticks[i + 1] <= ticks[i] + 56999
    ensures exists i :: 0 <= i < |ticks| && Classify(ticks[i], e).starts
    decreases |ticks|
  {
    ClassifyWindows(ticks[0], e);
    if !Classify(ticks[0], e).starts {
      assert ticks[0] - e.start <= -1000;
      assert |ticks| > 1;
      assert ticks[1..][0] == ticks[1];
      StartAtLeastOnce(e, ticks[1..]);
      var i :| 0 <= i < |ticks[1..]| && Classify(ticks[1..][i], e).starts;
      assert ticks[i + 1] == ticks[1..][i];
    }
  }

  /** A once-a-minute scan can miss any start: one tick a second before it, the next 59 seconds
      after, whatever the event's length. */
  lemma MinuteCadenceCanMiss(e: Event)
    ensures !Classify(e.start - 1000, e).starts && !Classify(e.start + 59000, e).starts
  {
    ClassifyWindows(e.start - 1000, e);
    ClassifyWindows(e.start + 59000, e);
  }
}
