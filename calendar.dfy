/** The entities the calendar engine works on, and the collaborators whose code is not part of this
    model (calendar fetch and extraction, the store's queries, formatting, translation), which the
    operations receive as function values instead of inventing their behaviour. */
module Calendar {

  datatype Option<T> = None | Some(value: T) {
    /** JavaScript's `x || fallback` for a value that is either present or falsy. */
    function GetOr(fallback: T): T {
      match this
      case Some(v) => v
      case None => fallback
    }
  }

  /** A point in time, in milliseconds. */
  type Instant = int

  /** An event's `datetype`: `'date'` for all-day entries, `'date-time'` for timed ones; any
      other string is carried as it is. */
  datatype DateType = Date | DateTime | OtherDateType(name: string)

  /** One concrete occurrence. A text field the feed leaves out is the empty string. */
  datatype Event = Event(
    uid: string,
    summary: string,
    description: string,
    location: string,
    start: Instant,
    end: Instant,
    datetype: DateType)

  /** One calendar's entry in the in-memory store. */
  datatype CalendarEvents = CalendarEvents(name: string, events: seq<Event>)

  /** One configured calendar as stored in the settings; `failed` holds the message shown on the
      settings page after a refresh could not use the calendar. */
  datatype CalendarConfig = CalendarConfig(name: string, uri: string, failed: Option<string>)

  /** How far ahead events are extracted (`value` units of `unit`). */
  datatype EventLimit = EventLimit(value: int, unit: string)

  /** What a failed fetch or extraction throws: an error object, whose `message` is reported, or
      any other value, which is reported as it is. */
  datatype FetchError = ErrorObject(message: string) | ErrorValue(text: string)

  datatype Result<T> = Ok(value: T) | Err(error: FetchError)

  /** What the next-event query answers: the event (if any), the minutes until it starts and
      stops, and the name of the calendar it was found in. */
  datatype NextEvent = NextEvent(event: Option<Event>, startsIn: int, endsIn: int, calendarName: string)

  /** The configured output formats: the long date pattern, the clock pattern, and the separator
      between hours and minutes. */
  datatype DateTimeFormat = DateTimeFormat(dateLong: string, time: string, splitter: string)

  /** An event that was not in the previous uid snapshot, with the calendar it belongs to. */
  datatype AddedEvent = AddedEvent(event: Event, calendarName: string)

  /** The persisted record of known event identities. */
  type UidSnapshot = seq<string>

  /** A value in the host's settings store. */
  datatype SettingValue =
    | CalendarList(configs: seq<CalendarConfig>)
    | Limit(limit: EventLimit)
    | Flag(on: bool)
    | Uids(uids: UidSnapshot)
    | Text(text: string)

  /** JavaScript truthiness of a settings lookup (`None` is a missing key). */
  predicate Truthy(v: Option<SettingValue>) {
    match v
    case None => false
    case Some(Flag(b)) => b
    case Some(Text(t)) => t != ""
    case Some(_) => true
  }

  /** The code the engine calls but that is not part of this model. */
  datatype Collaborators = Collaborators(
    /** humanize-duration of a span in milliseconds, in the configured language */
    humanize: int -> string,
    /** moment's localised `format` of an instant with a date pattern */
    formatDate: (Instant, string) -> string,
    /** moment's `format` of an instant with a clock pattern */
    formatTime: (Instant, string) -> string,
    /** the host's translation of a label key */
    translate: string -> string,
    /** get-next-event over all calendars, or over the named one */
    getNextEvent: (seq<CalendarEvents>, Option<string>) -> NextEvent,
    /** get-todays-events over all calendars, or over the named one */
    getTodaysEvents: (seq<CalendarEvents>, Option<string>) -> seq<Event>,
    /** get-tomorrows-events over all calendars, or over the named one */
    getTomorrowsEvents: (seq<CalendarEvents>, Option<string>) -> seq<Event>,
    /** get-events-for-token: the digest text of a list of events; `None` for a falsy result */
    getEventsForToken: (seq<Event>, DateTimeFormat) -> Option<string>,
    /** get-active-events over fetched calendar content; `Err` when it throws */
    getActiveEvents: (string, EventLimit) -> Result<seq<Event>>,
    /** sort-calendars' ordering of one calendar's events */
    sortEvents: seq<Event> -> seq<Event>,
    /** filter-updated-calendars: which calendars changed between the old and the new store */
    filterUpdatedCalendars: (seq<CalendarEvents>, seq<CalendarEvents>) -> seq<CalendarEvents>,
    /** get-event-uids: the uid snapshot of a store */
    getEventUids: seq<CalendarEvents> -> UidSnapshot,
    /** get-new-events: the events of the new store whose uid the old snapshot lacks */
    getNewEvents: (UidSnapshot, UidSnapshot, seq<CalendarEvents>) -> seq<AddedEvent>,
    /** convert-to-minutes of a flow card's `when` and `type` arguments */
    convertToMinutes: (int, string) -> int,
    /** get-datetime-format: the formats configured in the settings */
    getDateTimeFormat: map<string, SettingValue> -> DateTimeFormat)
}
