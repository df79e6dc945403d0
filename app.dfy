/** The refresh orchestration of app.js: the calendar refresh `getEvents` with its URI checks,
    failure bookkeeping, store replacement, uid snapshot and token re-registration; the tick
    `triggerEvents`; the settings router; and the cron guard on the in-flight flag. */
module App {
  import opened Calendar
  import opened JsString
  import opened TokenConfig
  import opened Seqs
  import Triggers
  import TokenProjection

  /** The settings keys of variable-management. */
  datatype SettingKeys = SettingKeys(
    icalUris: string,
    eventLimit: string,
    nextEventTokensPerCalendar: string,
    dateFormat: string,
    timeFormat: string,
    eventUids: string)

  /** The keys are non-empty and pairwise distinct. */
  predicate WellFormedKeys(keys: SettingKeys) {
    var all := [keys.icalUris, keys.eventLimit, keys.nextEventTokensPerCalendar, keys.dateFormat, keys.timeFormat, keys.eventUids];
    && (forall i :: 0 <= i < |all| ==> all[i] != "")
    && (forall i, j :: 0 <= i < j < |all| ==> all[i] != all[j])
  }

  /** `Homey.ManagerSettings.get(key)`: `None` when nothing is stored. */
  function Get(settings: map<string, SettingValue>, key: string): Option<SettingValue> {
    if key in settings then Some(settings[key]) else None
  }

  /** The configured calendars; anything but a calendar list counts as not set. */
  function StoredConfigs(keys: SettingKeys, settings: map<string, SettingValue>): Option<seq<CalendarConfig>> {
    match Get(settings, keys.icalUris)
    case Some(CalendarList(cs)) => Some(cs)
    case _ => None
  }

  /** The configured event limit, or the default when none is set. */
  function ReadLimit(keys: SettingKeys, eventLimitDefault: EventLimit, settings: map<string, SettingValue>): EventLimit {
    match Get(settings, keys.eventLimit)
    case Some(Limit(l)) => l
    case _ => eventLimitDefault
  }

  /** The persisted uid snapshot, or the empty one when none is stored. */
  function ReadUids(keys: SettingKeys, settings: map<string, SettingValue>): UidSnapshot {
    match Get(settings, keys.eventUids)
    case Some(Uids(u)) => u
    case _ => []
  }

  // ----- One calendar -----

  /** The scheme test of a URI: a substring test for each scheme, not a prefix test. */
  predicate HasScheme(uri: string) {
    Includes(uri, "http://") || Includes(uri, "https://") || Includes(uri, "webcal://")
  }

  /** What a calendar's URI leads to: nothing, an invalid-URI failure, or a fetch of `target`. */
  datatype UriCheck = EmptyUri | InvalidUri(message: string) | FetchUri(target: string)

  /** The URI checks of the refresh loop, and the rewrite of a leading `webcal://` (its first
      occurrence) to `https://`. */
  function CheckUri(name: string, uri: string): UriCheck {
    if uri == "" then EmptyUri
    else if !HasScheme(uri) then InvalidUri("Uri for calendar '" + name + "' is invalid")
    else if IndexOf(uri, "webcal://") == 0 then FetchUri(ReplaceFirst(uri, "webcal://", "https://"))
    else FetchUri(uri)
  }

  /** The text put in `failed` for a thrown error: an object's message, any other value itself. */
  function ErrorString(e: FetchError): string {
    match e
    case ErrorObject(m) => m
    case ErrorValue(t) => t
  }

  /** JavaScript truthiness of a `failed` field. */
  predicate FailedTruthy(f: Option<string>) {
    f.Some? && f.value != ""
  }

  /** The effect of one iteration of the refresh loop: the calendar's new config entry, its
      events when it was fetched and extracted, and the URI fetched, if any. */
  datatype Outcome = Outcome(config: CalendarConfig, events: Option<CalendarEvents>, fetched: Option<string>)

  function ProcessConfig(c: Collaborators, fetch: string -> Result<string>, limit: EventLimit, cfg: CalendarConfig): Outcome {
    match CheckUri(cfg.name, cfg.uri)
    case EmptyUri => Outcome(cfg, None, None)
    case InvalidUri(m) => Outcome(CalendarConfig(cfg.name, cfg.uri, Some(m)), None, None)
    case FetchUri(target) =>
      match fetch(target)
      case Err(e) => Outcome(CalendarConfig(cfg.name, target, Some(ErrorString(e))), None, Some(target))
      case Ok(data) =>
        match c.getActiveEvents(data, limit)
        case Err(e) => Outcome(CalendarConfig(cfg.name, target, Some(ErrorString(e))), None, Some(target))
        case Ok(events) =>
          var cleared := if FailedTruthy(cfg.failed) then CalendarConfig(cfg.name, target, None) else cfg;
          Outcome(cleared, Some(CalendarEvents(cfg.name, events)), Some(target))
  }

  /** A calendar with an empty URI is skipped: no fetch, no events, its entry unchanged. */
  lemma EmptyUriSkipped(c: Collaborators, fetch: string -> Result<string>, limit: EventLimit, cfg: CalendarConfig)
    requires cfg.uri == ""
    ensures ProcessConfig(c, fetch, limit, cfg) == Outcome(cfg, None, None)
  {
  }

  /** A URI holding none of the three schemes marks the calendar failed with the invalid-URI
      message, without a fetch. */
  lemma InvalidUriMarked(c: Collaborators, fetch: string -> Result<string>, limit: EventLimit, cfg: CalendarConfig)
    requires cfg.uri != "" && !HasScheme(cfg.uri)
    ensures ProcessConfig(c, fetch, limit, cfg)
         == Outcome(CalendarConfig(cfg.name, cfg.uri, Some("Uri for calendar '" + cfg.name + "' is invalid")), None, None)
  {
  }

  /** The scheme test is a substring test: a URI that contains one of the schemes anywhere and
      does not start with `webcal://` is fetched unchanged. */
  lemma SchemeAnywhereIsFetched(name: string, uri: string, i: int)
    requires OccursAt(uri, "http://", i) || OccursAt(uri, "https://", i) || OccursAt(uri, "webcal://", i)
    requires !(|"webcal://"| <= |uri| && uri[..|"webcal://"|] == "webcal://")
    ensures CheckUri(name, uri) == FetchUri(uri)
  {
    IncludesIff(uri, "http://");
    IncludesIff(uri, "https://");
    IncludesIff(uri, "webcal://");
    IndexOfZeroIffPrefix(uri, "webcal://");
  }

  /** For instance, `see http://x` is fetched as it is. */
  lemma SchemeInTextIsFetched()
    ensures CheckUri("c", "see http://x") == FetchUri("see http://x")
  {
    var uri := "see http://x";
    assert uri[4..11] == "http://";
    assert uri[0] != "webcal://"[0];
    SchemeAnywhereIsFetched("c", uri, 4);
  }

  /** A URI starting with `webcal://` is fetched as `https://` followed by the rest; that rewritten
      URI is what a failure writes back, and what a success writes back when it clears `failed`. */
  lemma WebcalRewritten(c: Collaborators, fetch: string -> Result<string>, limit: EventLimit, cfg: CalendarConfig)
    requires |"webcal://"| <= |cfg.uri| && cfg.uri[..|"webcal://"|] == "webcal://"
    ensures var target := "https://" + cfg.uri[|"webcal://"|..];
      var o := ProcessConfig(c, fetch, limit, cfg);
      && o.fetched == Some(target)
      && (o.events.None? || FailedTruthy(cfg.failed) ==> o.config.uri == target)
  {
    var uri := cfg.uri;
    IndexOfZeroIffPrefix(uri, "webcal://");
    assert OccursAt(uri, "webcal://", 0);
    IncludesIff(uri, "webcal://");
    ReplacePrefix(uri, "webcal://", "https://");
  }

  /** A fetch and extraction that succeed give the calendar's events and leave `failed` falsy;
      either failing records the error text and gives no events. */
  lemma FetchOutcome(c: Collaborators, fetch: string -> Result<string>, limit: EventLimit, cfg: CalendarConfig, target: string)
    requires CheckUri(cfg.name, cfg.uri) == FetchUri(target)
    ensures var o := ProcessConfig(c, fetch, limit, cfg);
      && o.fetched == Some(target)
      && o.config.name == cfg.name
      && (fetch(target).Ok? && c.getActiveEvents(fetch(target).value, limit).Ok? ==>
            && o.events == Some(CalendarEvents(cfg.name, c.getActiveEvents(fetch(target).value, limit).value))
            && !FailedTruthy(o.config.failed))
      && (fetch(target).Err? ==> o.events.None? && o.config == CalendarConfig(cfg.name, target, Some(ErrorString(fetch(target).error))))
      && (fetch(target).Ok? && c.getActiveEvents(fetch(target).value, limit).Err? ==>
            o.events.None? && o.config == CalendarConfig(cfg.name, target, Some(ErrorString(c.getActiveEvents(fetch(target).value, limit).error))))
  {
  }

  // ----- The whole refresh -----

  /** The state a refresh loop builds: the config list, the new store, the URIs fetched. */
  datatype Refresh = Refresh(configs: seq<CalendarConfig>, store: seq<CalendarEvents>, fetched: seq<string>)

  function OptionSeq<T>(o: Option<T>): seq<T> {
    match o
    case Some(x) => [x]
    case None => []
  }

  /** The outcome of each config entry, in order. */
  function Outcomes(c: Collaborators, fetch: string -> Result<string>, limit: EventLimit, cfgs: seq<CalendarConfig>): (os: seq<Outcome>)
    ensures |os| == |cfgs|
  {
    seq(|cfgs|, i requires 0 <= i < |cfgs| => ProcessConfig(c, fetch, limit, cfgs[i]))
  }

  /** Each entry's new config, in place. */
  function ConfigsOf(os: seq<Outcome>): (r: seq<CalendarConfig>)
    ensures |r| == |os|
  {
    seq(|os|, i requires 0 <= i < |os| => os[i].config)
  }

  /** The extracted calendars, in config order; skipped and failed entries contribute nothing. */
  function StoreOf(os: seq<Outcome>): seq<CalendarEvents> {
    Flatten(seq(|os|, i requires 0 <= i < |os| => OptionSeq(os[i].events)))
  }

  /** The URIs fetched, in config order. */
  function FetchedOf(os: seq<Outcome>): seq<string> {
    Flatten(seq(|os|, i requires 0 <= i < |os| => OptionSeq(os[i].fetched)))
  }

  /** The refresh loop over the config list. */
  function ProcessAll(c: Collaborators, fetch: string -> Result<string>, limit: EventLimit, cfgs: seq<CalendarConfig>): Refresh {
    var os := Outcomes(c, fetch, limit, cfgs);
    Refresh(ConfigsOf(os), StoreOf(os), FetchedOf(os))
  }

  lemma OutcomesSnoc(c: Collaborators, fetch: string -> Result<string>, limit: EventLimit, cfgs: seq<CalendarConfig>, i: nat)
    requires i < |cfgs|
    ensures Outcomes(c, fetch, limit, cfgs[..i + 1]) == Outcomes(c, fetch, limit, cfgs[..i]) + [ProcessConfig(c, fetch, limit, cfgs[i])]
  {
  }

  lemma OutcomesSnocParts(os: seq<Outcome>, o: Outcome)
    ensures ConfigsOf(os + [o]) == ConfigsOf(os) + [o.config]
    ensures StoreOf(os + [o]) == StoreOf(os) + OptionSeq(o.events)
    ensures FetchedOf(os + [o]) == FetchedOf(os) + OptionSeq(o.fetched)
  {
    var ev := seq(|os|, i requires 0 <= i < |os| => OptionSeq(os[i].events));
    assert seq(|os + [o]|, i requires 0 <= i < |os + [o]| => OptionSeq((os + [o])[i].events)) == ev + [OptionSeq(o.events)];
    FlattenSnoc(ev, OptionSeq(o.events));
    var fe := seq(|os|, i requires 0 <= i < |os| => OptionSeq(os[i].fetched));
    assert seq(|os + [o]|, i requires 0 <= i < |os + [o]| => OptionSeq((os + [o])[i].fetched)) == fe + [OptionSeq(o.fetched)];
    FlattenSnoc(fe, OptionSeq(o.fetched));
  }

  /** One iteration of the refresh loop, on the loop's state: the entry at `i` is still the
      stored one, and replacing it by its outcome extends each part by that outcome. */
  lemma RefreshStep(c: Collaborators, fetch: string -> Result<string>, limit: EventLimit, cfgs: seq<CalendarConfig>, i: nat, configs: seq<CalendarConfig>)
    requires i < |cfgs| && configs == ConfigsOf(Outcomes(c, fetch, limit, cfgs[..i])) + cfgs[i..]
    ensures configs[i] == cfgs[i]
    ensures var o := ProcessConfig(c, fetch, limit, cfgs[i]);
      var os' := Outcomes(c, fetch, limit, cfgs[..i + 1]);
      && configs[i := o.config] == ConfigsOf(os') + cfgs[i + 1..]
      && StoreOf(os') == StoreOf(Outcomes(c, fetch, limit, cfgs[..i])) + OptionSeq(o.events)
      && FetchedOf(os') == FetchedOf(Outcomes(c, fetch, limit, cfgs[..i])) + OptionSeq(o.fetched)
  {
    var os := Outcomes(c, fetch, limit, cfgs[..i]);
    var o := ProcessConfig(c, fetch, limit, cfgs[i]);
    OutcomesSnoc(c, fetch, limit, cfgs, i);
    OutcomesSnocParts(os, o);
    assert configs[i] == cfgs[i];
    assert configs[i := o.config] == ConfigsOf(os) + [o.config] + cfgs[i + 1..];
  }

  /** The new store holds exactly the successfully fetched calendars: a calendar is in the store
      iff some config entry's outcome produced it, so skipped and failed calendars are dropped. */
  lemma ProcessAllStore(c: Collaborators, fetch: string -> Result<string>, limit: EventLimit, cfgs: seq<CalendarConfig>, ce: CalendarEvents)
    ensures ce in ProcessAll(c, fetch, limit, cfgs).store <==>
      exists i :: 0 <= i < |cfgs| && ProcessConfig(c, fetch, limit, cfgs[i]).events == Some(ce)
  {
    var os := Outcomes(c, fetch, limit, cfgs);
    var ev := seq(|os|, i requires 0 <= i < |os| => OptionSeq(os[i].events));
    FlattenMembers(ev, ce);
    forall i | 0 <= i < |cfgs| ensures ce in ev[i] <==> ProcessConfig(c, fetch, limit, cfgs[i]).events == Some(ce) {
      assert ev[i] == OptionSeq(ProcessConfig(c, fetch, limit, cfgs[i]).events);
    }
  }

  /** A config entry with an empty URI is left as it is and contributes no calendar. */
  lemma EmptyUriContributesNothing(c: Collaborators, fetch: string -> Result<string>, limit: EventLimit, cfgs: seq<CalendarConfig>, i: int)
    requires 0 <= i < |cfgs| && cfgs[i].uri == ""
    ensures ProcessAll(c, fetch, limit, cfgs).configs[i] == cfgs[i]
    ensures forall ce :: ce in ProcessAll(c, fetch, limit, cfgs).store ==>
      exists j :: 0 <= j < |cfgs| && j != i && ProcessConfig(c, fetch, limit, cfgs[j]).events == Some(ce)
  {
    forall ce | ce in ProcessAll(c, fetch, limit, cfgs).store
      ensures exists j :: 0 <= j < |cfgs| && j != i && ProcessConfig(c, fetch, limit, cfgs[j]).events == Some(ce)
    {
      ProcessAllStore(c, fetch, limit, cfgs, ce);
    }
  }

  /** Without a config list, nothing is fetched and the new store is empty. */
  lemma ProcessNothing(c: Collaborators, fetch: string -> Result<string>, limit: EventLimit)
    ensures ProcessAll(c, fetch, limit, []) == Refresh([], [], [])
  {
    assert Outcomes(c, fetch, limit, []) == [];
  }

  /** The refresh that `getEvents` performs from the current settings. */
  function RefreshOf(c: Collaborators, fetch: string -> Result<string>, keys: SettingKeys, eventLimitDefault: EventLimit, settings: map<string, SettingValue>): Refresh {
    ProcessAll(c, fetch, ReadLimit(keys, eventLimitDefault, settings), StoredConfigs(keys, settings).GetOr([]))
  }

  /** sort-calendars, taken to apply the abstract `sortEvents` to each calendar's events and to keep
      the calendars, their names and their order; the module itself is not part of this model. */
  function SortStore(c: Collaborators, store: seq<CalendarEvents>): seq<CalendarEvents> {
    seq(|store|, i requires 0 <= i < |store| => CalendarEvents(store[i].name, c.sortEvents(store[i].events)))
  }

  // ----- Token re-registration -----

  /** The tokens `getEvents` builds inline for one calendar (app.js:186-224). */
  function InlineCalendarTokens(naming: TokenNaming, translate: string -> string, name: string, nextEventTokens: bool): seq<TokenDescriptor> {
    [
      TokenDescriptor(naming.preId + name + naming.postTodayId, "string",
                      translate("calendarTokens.events_today_calendar_title_stamps") + " " + name),
      TokenDescriptor(naming.preId + name + naming.postTomorrowId, "string",
                      translate("calendarTokens.events_tomorrow_calendar_title_stamps") + " " + name)
    ]
    + if nextEventTokens then
      [
        TokenDescriptor(naming.preId + name + naming.postNextTitleId, "string",
                        translate("calendarTokens.event_next_title_calendar") + " " + name),
        TokenDescriptor(naming.preId + name + naming.postNextStartDateId, "string",
                        translate("calendarTokens.event_next_startdate_calendar") + " " + name),
        TokenDescriptor(naming.preId + name + naming.postNextStartTimeId, "string",
                        translate("calendarTokens.event_next_startstamp_calendar") + " " + name),
        TokenDescriptor(naming.preId + name + naming.postNextEndDateId, "string",
                        translate("calendarTokens.event_next_enddate_calendar") + " " + name),
        TokenDescriptor(naming.preId + name + naming.postNextEndTimeId, "string",
                        translate("calendarTokens.event_next_endstamp_calendar") + " " + name)
      ]
    else []
  }

  /** The inline tokens are the generated ones: today and tomorrow, then the five next-event
      tokens when they are enabled. */
  lemma InlineMatchesGenerated(naming: TokenNaming, translate: string -> string, name: string, nextEventTokens: bool)
    ensures InlineCalendarTokens(naming, translate, name, nextEventTokens)
         == GenerateTokens(naming, translate, name) + (if nextEventTokens then GeneratePerCalendarTokens(naming, translate, name) else [])
  {
  }

  /** The kinds `getEvents` registers for each calendar: the two digest kinds, then the five
      next-event kinds when those are enabled. */
  function RegisteredKinds(nextEventTokens: bool): seq<Kind> {
    DigestKinds + if nextEventTokens then NextEventKinds else []
  }

  /** The inline tokens of one calendar are its generated descriptors, kind by kind. */
  lemma InlineDescribes(naming: TokenNaming, translate: string -> string, name: string, nextEventTokens: bool)
    ensures var ts := InlineCalendarTokens(naming, translate, name, nextEventTokens);
      var ks := RegisteredKinds(nextEventTokens);
      && |ts| == |ks| == (if nextEventTokens then 7 else 2)
      && forall j :: 0 <= j < |ts| ==> ts[j] == Describe(naming, translate, name, ks[j])
  {
    InlineMatchesGenerated(naming, translate, name, nextEventTokens);
    var g := GenerateTokens(naming, translate, name);
    var h := if nextEventTokens then GeneratePerCalendarTokens(naming, translate, name) else [];
    var ks := RegisteredKinds(nextEventTokens);
    forall j | 0 <= j < |g + h| ensures (g + h)[j] == Describe(naming, translate, name, ks[j]) {
      if j >= 2 {
        assert (g + h)[j] == h[j - 2];
      }
    }
  }

  /** The inline tokens of a calendar of the store. */
  function InlineOf(naming: TokenNaming, translate: string -> string, nextEventTokens: bool): CalendarEvents -> seq<TokenDescriptor> {
    (ce: CalendarEvents) => InlineCalendarTokens(naming, translate, ce.name, nextEventTokens)
  }

  /** All calendar tokens for a store, calendar by calendar. */
  function AllCalendarTokens(naming: TokenNaming, translate: string -> string, store: seq<CalendarEvents>, nextEventTokens: bool): seq<TokenDescriptor> {
    FlatMap(InlineOf(naming, translate, nextEventTokens), store)
  }

  lemma AllCalendarTokensSnoc(naming: TokenNaming, translate: string -> string, store: seq<CalendarEvents>, i: nat, nextEventTokens: bool)
    requires i < |store|
    ensures AllCalendarTokens(naming, translate, store[..i + 1], nextEventTokens)
         == AllCalendarTokens(naming, translate, store[..i], nextEventTokens) + InlineCalendarTokens(naming, translate, store[i].name, nextEventTokens)
  {
    FlatMapSnoc(InlineOf(naming, translate, nextEventTokens), store, i);
  }

  /** The ids of a token list. */
  function TokenIds(tokens: seq<TokenDescriptor>): (r: seq<string>)
    ensures |r| == |tokens| && forall i :: 0 <= i < |r| ==> r[i] == tokens[i].id
  {
    seq(|tokens|, i requires 0 <= i < |tokens| => tokens[i].id)
  }

  /** Each calendar gets two tokens, and five more when next-event tokens are enabled. */
  lemma {:induction false} AllCalendarTokensCount(naming: TokenNaming, translate: string -> string, store: seq<CalendarEvents>, nextEventTokens: bool)
    ensures |AllCalendarTokens(naming, translate, store, nextEventTokens)| == |store| * (if nextEventTokens then 7 else 2)
    decreases |store|
  {
    if store != [] {
      var n := |store| - 1;
      AllCalendarTokensCount(naming, translate, store[..n], nextEventTokens);
      AllCalendarTokensSnoc(naming, translate, store, n, nextEventTokens);
      InlineDescribes(naming, translate, store[n].name, nextEventTokens);
      assert store[..n + 1] == store;
    }
  }

  /** A token is among one calendar's inline tokens iff it is that calendar's descriptor for a
      registered kind. */
  lemma InlineMembers(naming: TokenNaming, translate: string -> string, name: string, nextEventTokens: bool, d: TokenDescriptor)
    ensures d in InlineCalendarTokens(naming, translate, name, nextEventTokens) <==>
      exists k :: k in RegisteredKinds(nextEventTokens) && d == Describe(naming, translate, name, k)
  {
    var ts := InlineCalendarTokens(naming, translate, name, nextEventTokens);
    var ks := RegisteredKinds(nextEventTokens);
    InlineDescribes(naming, translate, name, nextEventTokens);
    if d in ts {
      var j :| 0 <= j < |ts| && ts[j] == d;
      assert ks[j] in ks;
    }
    if k :| k in ks && d == Describe(naming, translate, name, k) {
      var j :| 0 <= j < |ks| && ks[j] == k;
      assert ts[j] == d;
    }
  }

  /** A token is registered iff it is the generated descriptor of one of the store's calendars
      for a registered kind. */
  lemma AllCalendarTokensMembers(naming: TokenNaming, translate: string -> string, store: seq<CalendarEvents>, nextEventTokens: bool, d: TokenDescriptor)
    ensures d in AllCalendarTokens(naming, translate, store, nextEventTokens) <==>
      exists i, k :: 0 <= i < |store| && k in RegisteredKinds(nextEventTokens) && d == Describe(naming, translate, store[i].name, k)
  {
    FlatMapMembers(InlineOf(naming, translate, nextEventTokens), store, d);
    forall i | 0 <= i < |store|
      ensures d in InlineOf(naming, translate, nextEventTokens)(store[i]) <==>
        exists k :: k in RegisteredKinds(nextEventTokens) && d == Describe(naming, translate, store[i].name, k)
    {
      InlineMembers(naming, translate, store[i].name, nextEventTokens, d);
    }
  }


  /** How the settings router treats a changed key. */
  datatype SettingRoute = Ignore | RefreshAndReregister | Reformat

  /** The `on('set')` router: a falsy key is ignored; a calendar-specific key refreshes with
      re-registration; a format key recomputes the formats; anything else is ignored. */
  function RouteSetting(keys: SettingKeys, key: string): SettingRoute {
    if key == "" then Ignore
    else if key in [keys.icalUris, keys.eventLimit, keys.nextEventTokensPerCalendar] then RefreshAndReregister
    else if key in [keys.dateFormat, keys.timeFormat] then Reformat
    else Ignore
  }

  /** Exactly the three calendar-specific keys refresh, and exactly the two format keys only
      recompute the formats. */
  lemma RouteSettingIff(keys: SettingKeys, key: string)
    requires WellFormedKeys(keys)
    ensures RouteSetting(keys, key) == RefreshAndReregister <==>
      key == keys.icalUris || key == keys.eventLimit || key == keys.nextEventTokensPerCalendar
    ensures RouteSetting(keys, key) == Reformat <==> key == keys.dateFormat || key == keys.timeFormat
  {
    var all := [keys.icalUris, keys.eventLimit, keys.nextEventTokensPerCalendar, keys.dateFormat, keys.timeFormat, keys.eventUids];
    assert all[0] != "" && all[3] != "" && all[4] != "";
    assert all[0] != all[3] && all[0] != all[4] && all[1] != all[3] && all[1] != all[4] && all[2] != all[3] && all[2] != all[4];
  }

  // ----- The app -----

  /** The part of the app's state a refresh rewrites: the settings, the store, and what was
      fetched and announced. */
  datatype StoreView = StoreView(
    settings: map<string, SettingValue>,
    calendars: Option<seq<CalendarEvents>>,
    fetchLog: seq<string>,
    changedCalendars: seq<seq<CalendarEvents>>,
    addedEvents: seq<AddedEvent>)

  class App {
    const keys: SettingKeys
    const naming: TokenNaming
    const eventLimitDefault: EventLimit
    const c: Collaborators
    /** Whether a refresh is running. */
    var isGettingEvents: bool
    /** The host's settings store. */
    var settings: map<string, SettingValue>
    /** The in-memory store; `None` before the first refresh. */
    var calendars: Option<seq<CalendarEvents>>
    /** The registered per-calendar tokens. */
    var calendarTokens: seq<TokenDescriptor>
    /** The ids of the global flow tokens. */
    var flowTokenIds: seq<string>
    var dateTimeFormat: DateTimeFormat
    /** The URIs fetched, in order. */
    var fetchLog: seq<string>
    /** The arguments of each `triggerChangedCalendars` call. */
    var changedCalendars: seq<seq<CalendarEvents>>
    /** The arguments of the `triggerAddedEvent` calls. */
    var addedEvents: seq<AddedEvent>
    /** The tokens unregistered, in order. */
    var unregistered: seq<TokenDescriptor>
    /** The `setValue` calls of the token refreshes. */
    var tokenWrites: seq<TokenProjection.TokenWrite>
    /** The notifications of the trigger scans. */
    var fired: seq<Triggers.Notification>

    /** The state `onInit` sets up before its first refresh. */
    constructor(keys: SettingKeys, naming: TokenNaming, eventLimitDefault: EventLimit, c: Collaborators,
                settings: map<string, SettingValue>, flowTokenIds: seq<string>)
      ensures this.keys == keys && this.naming == naming && this.eventLimitDefault == eventLimitDefault && this.c == c
      ensures this.settings == settings && this.flowTokenIds == flowTokenIds
      ensures !isGettingEvents && calendars == None && calendarTokens == []
      ensures dateTimeFormat == c.getDateTimeFormat(settings)
      ensures fetchLog == [] && changedCalendars == [] && addedEvents == [] && unregistered == []
      ensures tokenWrites == [] && fired == []
    {
      this.keys := keys;
      this.naming := naming;
      this.eventLimitDefault := eventLimitDefault;
      this.c := c;
      this.settings := settings;
      this.flowTokenIds := flowTokenIds;
      isGettingEvents := false;
      calendars := None;
      calendarTokens := [];
      dateTimeFormat := c.getDateTimeFormat(settings);
      fetchLog := [];
      changedCalendars := [];
      addedEvents := [];
      unregistered := [];
      tokenWrites := [];
      fired := [];
    }

    /** The settings after a refresh `r`: the rewritten config list (when one was configured) and
        the new uid snapshot. */
    function SettingsAfter(oldSettings: map<string, SettingValue>, r: Refresh): map<string, SettingValue> {
      var s := if StoredConfigs(keys, oldSettings).Some? then oldSettings[keys.icalUris := CalendarList(r.configs)] else oldSettings;
      s[keys.eventUids := Uids(c.getEventUids(r.store))]
    }

    /** The store side of a refresh, from the values before it: the settings hold the rewritten
        config list and the new uid snapshot, the store is the sorted list of the calendars
        fetched, each fetch is logged, the changed calendars are announced when there was a store
        before and something was fetched, and the events missing from the old snapshot are
        announced. */
    ghost function StoreAfter(fetch: string -> Result<string>, before: StoreView): StoreView {
      var r := RefreshOf(c, fetch, keys, eventLimitDefault, before.settings);
      StoreView(
        SettingsAfter(before.settings, r),
        Some(SortStore(c, r.store)),
        before.fetchLog + r.fetched,
        before.changedCalendars
          + (if before.calendars.Some? && |before.calendars.value| > 0 && |r.store| > 0
             then [c.filterUpdatedCalendars(before.calendars.value, r.store)] else []),
        before.addedEvents + c.getNewEvents(ReadUids(keys, before.settings), c.getEventUids(r.store), r.store))
    }

    /** The fields a refresh rewrites. */
    function Store(): StoreView
      reads this`settings, this`calendars, this`fetchLog, this`changedCalendars, this`addedEvents
    {
      StoreView(settings, calendars, fetchLog, changedCalendars, addedEvents)
    }

    /** The token side of a refresh with re-registration, over the new store and settings: the
        old calendar tokens are unregistered and exactly the tokens of the new store are
        registered, in some order. */
    ghost predicate TokensRebuilt(unregistered0: seq<TokenDescriptor>, tokens0: seq<TokenDescriptor>,
                                  store: Option<seq<CalendarEvents>>, settings1: map<string, SettingValue>,
                                  unregistered1: seq<TokenDescriptor>, tokens1: seq<TokenDescriptor>)
    {
      && unregistered1 == unregistered0 + tokens0
      && store.Some?
      && multiset(tokens1)
         == multiset(AllCalendarTokens(naming, c.translate, store.value, Truthy(Get(settings1, keys.nextEventTokensPerCalendar))))
    }

    /** The state `getEvents(reregister)` leaves, against the state it started from. */
    twostate predicate Refreshed(reregister: bool, fetch: string -> Result<string>)
      reads this
    {
      && !isGettingEvents
      && Store() == StoreAfter(fetch, old(Store()))
      && (reregister ==> TokensRebuilt(old(unregistered), old(calendarTokens), calendars, settings, unregistered, calendarTokens))
      && (!reregister ==> unregistered == old(unregistered) && calendarTokens == old(calendarTokens))
      && unchanged(this`flowTokenIds, this`dateTimeFormat, this`tokenWrites, this`fired)
    }

    /** getEvents: refresh every configured calendar in order, publish the changes, replace the
        store, persist the uid snapshot and, when asked, rebuild the per-calendar tokens. The
        in-flight flag is set for the whole run and cleared at its end. */
    method GetEvents(reregister: bool, fetch: string -> Result<string>) returns (result: bool)
      modifies this
      ensures result
      ensures Refreshed(reregister, fetch)
    {
      RefreshStore(fetch);
      FinishRefresh(reregister);
      return true;
    }

    /** The end of getEvents: the calendar tokens are rebuilt when asked, then the in-flight flag
        is cleared. */
    method FinishRefresh(reregister: bool)
      requires calendars.Some?
      modifies this`unregistered, this`calendarTokens, this`isGettingEvents
      ensures !isGettingEvents
      ensures unchanged(this`flowTokenIds, this`dateTimeFormat, this`tokenWrites, this`fired)
      ensures reregister ==> TokensRebuilt(old(unregistered), old(calendarTokens), calendars, settings, unregistered, calendarTokens)
      ensures !reregister ==> unregistered == old(unregistered) && calendarTokens == old(calendarTokens)
    {
      if reregister {
        ReregisterTokens();
      }
      isGettingEvents := false;
    }

    /** The start of getEvents, up to the replacement of the store: the in-flight flag is set and
        the calendars are refreshed. */
    method RefreshStore(fetch: string -> Result<string>)
      modifies this`isGettingEvents, this`settings, this`fetchLog, this`changedCalendars, this`addedEvents, this`calendars
      ensures isGettingEvents && calendars.Some?
      ensures unchanged(this`flowTokenIds, this`dateTimeFormat, this`tokenWrites, this`fired)
      ensures Store() == StoreAfter(fetch, old(Store()))
    {
      isGettingEvents := true;
      var stored := StoredConfigs(keys, settings);
      var limit := ReadLimit(keys, eventLimitDefault, settings);
      var oldUids := ReadUids(keys, settings);
      var calendarsEvents: seq<CalendarEvents> := [];
      if stored.Some? {
        calendarsEvents := RefreshCalendars(stored.value, limit, fetch);
      } else {
        ProcessNothing(c, fetch, limit);
      }
      PublishRefresh(calendarsEvents, oldUids);
    }

    /** The loop of getEvents: each config entry is checked, fetched and updated in place, every
        change to the list is written back to the settings, and the extracted calendars are
        collected in order. */
    method RefreshCalendars(cs: seq<CalendarConfig>, limit: EventLimit, fetch: string -> Result<string>) returns (calendarsEvents: seq<CalendarEvents>)
      requires Get(settings, keys.icalUris) == Some(CalendarList(cs))
      modifies this`settings, this`fetchLog
      ensures calendarsEvents == ProcessAll(c, fetch, limit, cs).store
      ensures settings == old(settings)[keys.icalUris := CalendarList(ProcessAll(c, fetch, limit, cs).configs)]
      ensures fetchLog == old(fetchLog) + ProcessAll(c, fetch, limit, cs).fetched
    {
      var configs := cs;
      calendarsEvents := [];
      assert old(settings)[keys.icalUris := CalendarList(cs)] == old(settings);
      var i := 0;
      while i < |cs|
        invariant 0 <= i <= |cs|
        invariant LoopState(old(settings), old(fetchLog), cs, limit, fetch, i, configs, calendarsEvents)
      {
        configs, calendarsEvents := RefreshEntry(old(settings), old(fetchLog), cs, limit, fetch, i, configs, calendarsEvents);
        i := i + 1;
      }
      assert cs[..i] == cs;
      assert configs == ConfigsOf(Outcomes(c, fetch, limit, cs)) + [] == ProcessAll(c, fetch, limit, cs).configs;
    }

    /** The state of the loop of getEvents after `i` entries: the first `i` entries are replaced by
        their outcomes and the rest are as stored, the list is written back over the settings the
        loop started from, and the calendars and the fetches are those of the first `i` outcomes. */
    ghost predicate LoopState(settings0: map<string, SettingValue>, log0: seq<string>, cs: seq<CalendarConfig>, limit: EventLimit,
                              fetch: string -> Result<string>, i: nat, configs: seq<CalendarConfig>, store: seq<CalendarEvents>)
      requires i <= |cs|
      reads this
    {
      var os := Outcomes(c, fetch, limit, cs[..i]);
      && configs == ConfigsOf(os) + cs[i..]
      && store == StoreOf(os)
      && fetchLog == log0 + FetchedOf(os)
      && settings == settings0[keys.icalUris := CalendarList(configs)]
    }

    /** The body of the loop of getEvents for entry `i`: the entry is refreshed and, when it
        changed, put back in the list and the list written to the settings. */
    method RefreshEntry(ghost settings0: map<string, SettingValue>, ghost log0: seq<string>, cs: seq<CalendarConfig>, limit: EventLimit,
                        fetch: string -> Result<string>, i: nat, configs: seq<CalendarConfig>, store: seq<CalendarEvents>)
      returns (configs': seq<CalendarConfig>, store': seq<CalendarEvents>)
      requires i < |cs| && LoopState(settings0, log0, cs, limit, fetch, i, configs, store)
      modifies this`settings, this`fetchLog
      ensures LoopState(settings0, log0, cs, limit, fetch, i + 1, configs', store')
    {
      RefreshStep(c, fetch, limit, cs, i, configs);
      var entry, events := RefreshCalendar(configs[i], limit, fetch);
      configs' := configs;
      if entry != configs[i] {
        configs' := configs[i := entry];
        settings := settings[keys.icalUris := CalendarList(configs')];
      } else {
        assert configs == configs[i := entry];
      }
      store' := store + OptionSeq(events);
    }

    /** One iteration of the loop of getEvents: the URI checks, the rewrite of a leading
        `webcal://`, the fetch and the extraction; it answers the entry's new config and the
        extracted calendar, and logs the fetch. */
    method RefreshCalendar(entry: CalendarConfig, limit: EventLimit, fetch: string -> Result<string>) returns (newEntry: CalendarConfig, events: Option<CalendarEvents>)
      modifies this`fetchLog
      ensures newEntry == ProcessConfig(c, fetch, limit, entry).config
      ensures events == ProcessConfig(c, fetch, limit, entry).events
      ensures fetchLog == old(fetchLog) + OptionSeq(ProcessConfig(c, fetch, limit, entry).fetched)
    {
      var name := entry.name;
      var uri := entry.uri;
      newEntry := entry;
      events := None;
      if uri == "" {
        // skipped
      } else if !Includes(uri, "http://") && !Includes(uri, "https://") && !Includes(uri, "webcal://") {
        newEntry := CalendarConfig(name, uri, Some("Uri for calendar '" + name + "' is invalid"));
      } else {
        if IndexOf(uri, "webcal://") == 0 {
          uri := ReplaceFirst(uri, "webcal://", "https://");
        }
        fetchLog := fetchLog + [uri];
        match fetch(uri) {
          case Ok(data) =>
            if FailedTruthy(entry.failed) {
              newEntry := CalendarConfig(name, uri, None);
            }
            match c.getActiveEvents(data, limit) {
              case Ok(active) =>
                events := Some(CalendarEvents(name, active));
              case Err(e) =>
                newEntry := CalendarConfig(name, uri, Some(ErrorString(e)));
            }
          case Err(e) =>
            newEntry := CalendarConfig(name, uri, Some(ErrorString(e)));
        }
      }
    }

    /** After the loop: announce the changed calendars when there was a store and something was
        fetched, announce the events missing from the old uid snapshot, persist the new snapshot,
        and replace the store with the sorted new list. */
    method PublishRefresh(calendarsEvents: seq<CalendarEvents>, oldUids: UidSnapshot)
      modifies this`changedCalendars, this`addedEvents, this`settings, this`calendars
      ensures changedCalendars == old(changedCalendars)
        + (if old(calendars).Some? && |old(calendars).value| > 0 && |calendarsEvents| > 0
           then [c.filterUpdatedCalendars(old(calendars).value, calendarsEvents)] else [])
      ensures addedEvents == old(addedEvents) + c.getNewEvents(oldUids, c.getEventUids(calendarsEvents), calendarsEvents)
      ensures settings == old(settings)[keys.eventUids := Uids(c.getEventUids(calendarsEvents))]
      ensures calendars == Some(SortStore(c, calendarsEvents))
    {
      if calendars.Some? && |calendars.value| > 0 && |calendarsEvents| > 0 {
        changedCalendars := changedCalendars + [c.filterUpdatedCalendars(calendars.value, calendarsEvents)];
      }
      var newUids := c.getEventUids(calendarsEvents);
      addedEvents := addedEvents + c.getNewEvents(oldUids, newUids, calendarsEvents);
      settings := settings[keys.eventUids := Uids(newUids)];
      calendars := Some(SortStore(c, calendarsEvents));
    }

    /** The re-registration of getEvents: every old calendar token is unregistered, then each
        calendar of the store gets its tokens, the next-event ones only when the setting is on. */
    method ReregisterTokens()
      requires calendars.Some?
      modifies this`unregistered, this`calendarTokens
      ensures unregistered == old(unregistered) + old(calendarTokens)
      ensures TokensRebuilt(old(unregistered), old(calendarTokens), calendars, settings, unregistered, calendarTokens)
    {
      if |calendarTokens| > 0 {
        unregistered := unregistered + calendarTokens;
        calendarTokens := [];
      }
      var nextEventTokens := Truthy(Get(settings, keys.nextEventTokensPerCalendar));
      if |calendars.value| > 0 {
        RegisterCalendarTokens(calendars.value, nextEventTokens);
      }
    }

    /** The registration loop: every calendar of the store gets its inline tokens. */
    method RegisterCalendarTokens(store: seq<CalendarEvents>, nextEventTokens: bool)
      modifies this`calendarTokens
      ensures calendarTokens == old(calendarTokens) + AllCalendarTokens(naming, c.translate, store, nextEventTokens)
    {
      var i := 0;
      while i < |store|
        invariant 0 <= i <= |store|
        invariant calendarTokens == old(calendarTokens) + AllCalendarTokens(naming, c.translate, store[..i], nextEventTokens)
      {
        AllCalendarTokensSnoc(naming, c.translate, store, i, nextEventTokens);
        calendarTokens := calendarTokens + InlineCalendarTokens(naming, c.translate, store[i].name, nextEventTokens);
        i := i + 1;
      }
      assert store[..i] == store;
    }

    /** triggerEvents: when the store holds calendars, refresh the tokens, then scan for
        notifications at `now`. */
    method TriggerEvents(now: Instant)
      modifies this`tokenWrites, this`fired
      ensures old(calendars).Some? && |old(calendars).value| > 0 ==>
        && tokenWrites == old(tokenWrites) + TokenProjection.FlowTokenWrites(c, old(calendars).value, old(dateTimeFormat), naming, old(flowTokenIds), TokenIds(old(calendarTokens)))
        && fired == old(fired) + Triggers.ScanCalendars(old(calendars).value, now, c.humanize)
      ensures !(old(calendars).Some? && |old(calendars).value| > 0) ==> tokenWrites == old(tokenWrites) && fired == old(fired)
    {
      if calendars.Some? && |calendars.value| > 0 {
        var store := calendars.value;
        var writes := TokenProjection.UpdateFlowTokens(c, store, dateTimeFormat, naming, flowTokenIds, TokenIds(calendarTokens));
        var notifications := Triggers.TriggerAllEvents(store, now, c.humanize);
        tokenWrites := tokenWrites + writes;
        fired := fired + notifications;
      }
    }

    /** The update-calendar cron task: a refresh without re-registration, unless one is running. */
    method OnCronUpdateCalendar(fetch: string -> Result<string>)
      modifies this
      ensures old(isGettingEvents) ==> unchanged(this)
      ensures !old(isGettingEvents) ==> Refreshed(false, fetch)
    {
      if !isGettingEvents {
        var _ := GetEvents(false, fetch);
      }
    }

    /** The settings `on('set')` handler. */
    method OnSettingSet(key: string, fetch: string -> Result<string>)
      modifies this
      ensures RouteSetting(keys, key) == Ignore ==> unchanged(this)
      ensures RouteSetting(keys, key) == Reformat ==>
        && dateTimeFormat == c.getDateTimeFormat(settings)
        && unchanged(this`settings, this`calendars, this`calendarTokens, this`isGettingEvents, this`flowTokenIds)
        && unchanged(this`fetchLog, this`changedCalendars, this`addedEvents, this`unregistered, this`tokenWrites, this`fired)
      ensures RouteSetting(keys, key) == RefreshAndReregister && old(isGettingEvents) ==> unchanged(this)
      ensures RouteSetting(keys, key) == RefreshAndReregister && !old(isGettingEvents) ==> Refreshed(true, fetch)
    {
      var route := RouteSetting(keys, key);
      if route == RefreshAndReregister {
        if !isGettingEvents {
          var _ := GetEvents(true, fetch);
        }
      } else if route == Reformat {
        dateTimeFormat := c.getDateTimeFormat(settings);
      }
    }
  }
}
