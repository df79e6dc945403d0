/** Per-calendar token descriptors (lib/generate-token-configuration.js) and the reverse step that
    handlers/triggers.js takes when it updates them: recovering the calendar name and the token kind
    from an id by stripping the known id parts with `String.replace`. */
module TokenConfig {
  import opened Calendar
  import opened JsString

  /** The seven per-calendar token kinds. */
  datatype Kind = Today | Tomorrow | NextTitle | NextStartDate | NextStartTime | NextEndDate | NextEndTime

  /** The word after `<calendar name>_` that updateFlowTokens dispatches on. */
  function TypeWord(k: Kind): string {
    match k
    case Today => "today"
    case Tomorrow => "tomorrow"
    case NextTitle => "next_title"
    case NextStartDate => "next_startdate"
    case NextStartTime => "next_starttime"
    case NextEndDate => "next_enddate"
    case NextEndTime => "next_endtime"
  }

  /** The dispatch of updateFlowTokens on the type word; any other word selects no kind. */
  function KindOfType(t: string): (r: Option<Kind>)
    ensures r.Some? ==> TypeWord(r.value) == t
  {
    if t == "today" then Some(Today)
    else if t == "tomorrow" then Some(Tomorrow)
    else if t == "next_title" then Some(NextTitle)
    else if t == "next_startdate" then Some(NextStartDate)
    else if t == "next_starttime" then Some(NextStartTime)
    else if t == "next_enddate" then Some(NextEndDate)
    else if t == "next_endtime" then Some(NextEndTime)
    else None
  }

  /** Every kind's type word selects that kind. */
  lemma KindOfTypeWord(k: Kind)
    ensures KindOfType(TypeWord(k)) == Some(k)
  {
  }

  /** The translation key of the label in a token's title. */
  function LabelKey(k: Kind): string {
    match k
    case Today => "calendarTokens.events_today_calendar_title_stamps"
    case Tomorrow => "calendarTokens.events_tomorrow_calendar_title_stamps"
    case NextTitle => "calendarTokens.event_next_title_calendar"
    case NextStartDate => "calendarTokens.event_next_startdate_calendar"
    case NextStartTime => "calendarTokens.event_next_startstamp_calendar"
    case NextEndDate => "calendarTokens.event_next_enddate_calendar"
    case NextEndTime => "calendarTokens.event_next_endstamp_calendar"
  }

  /** The id parts that variable-management defines: a prefix and one suffix per kind. */
  datatype TokenNaming = TokenNaming(
    preId: string,
    postTodayId: string,
    postTomorrowId: string,
    postNextTitleId: string,
    postNextStartDateId: string,
    postNextStartTimeId: string,
    postNextEndDateId: string,
    postNextEndTimeId: string)

  function PostId(naming: TokenNaming, k: Kind): string {
    match k
    case Today => naming.postTodayId
    case Tomorrow => naming.postTomorrowId
    case NextTitle => naming.postNextTitleId
    case NextStartDate => naming.postNextStartDateId
    case NextStartTime => naming.postNextStartTimeId
    case NextEndDate => naming.postNextEndDateId
    case NextEndTime => naming.postNextEndTimeId
  }

  /** The suffix a kind's id ends with when the naming follows the dispatch's convention. */
  function Suffix(k: Kind): string {
    "_" + TypeWord(k)
  }

  /** Each suffix is `_` followed by the type word the dispatch compares against; this is the
      only naming under which the dispatch of updateFlowTokens can select a kind. */
  predicate Conventional(naming: TokenNaming) {
    && naming.postTodayId == Suffix(Today)
    && naming.postTomorrowId == Suffix(Tomorrow)
    && naming.postNextTitleId == Suffix(NextTitle)
    && naming.postNextStartDateId == Suffix(NextStartDate)
    && naming.postNextStartTimeId == Suffix(NextStartTime)
    && naming.postNextEndDateId == Suffix(NextEndDate)
    && naming.postNextEndTimeId == Suffix(NextEndTime)
  }

  datatype TokenDescriptor = TokenDescriptor(id: string, tokenType: string, title: string)

  /** The id of a calendar's token of one kind: prefix, calendar name, kind suffix. */
  function TokenId(naming: TokenNaming, calendarName: string, k: Kind): string {
    naming.preId + calendarName + PostId(naming, k)
  }

  /** The title: the translated label, a space, the calendar name. */
  function TokenTitle(translate: string -> string, calendarName: string, k: Kind): string {
    translate(LabelKey(k)) + " " + calendarName
  }

  function Describe(naming: TokenNaming, translate: string -> string, calendarName: string, k: Kind): TokenDescriptor {
    TokenDescriptor(TokenId(naming, calendarName, k), "string", TokenTitle(translate, calendarName, k))
  }

  /** The kinds of generateTokens, in order. */
  const DigestKinds: seq<Kind> := [Today, Tomorrow]

  /** The kinds of generatePerCalendarTokens, in order. */
  const NextEventKinds: seq<Kind> := [NextTitle, NextStartDate, NextStartTime, NextEndDate, NextEndTime]

  /** generateTokens: today's and tomorrow's digest tokens, in that order. */
  function GenerateTokens(naming: TokenNaming, translate: string -> string, calendarName: string): (r: seq<TokenDescriptor>)
    ensures |r| == |DigestKinds| == 2
    ensures forall i :: 0 <= i < |r| ==> r[i] == Describe(naming, translate, calendarName, DigestKinds[i])
  {
    [
      TokenDescriptor(naming.preId + calendarName + naming.postTodayId, "string",
                      translate("calendarTokens.events_today_calendar_title_stamps") + " " + calendarName),
      TokenDescriptor(naming.preId + calendarName + naming.postTomorrowId, "string",
                      translate("calendarTokens.events_tomorrow_calendar_title_stamps") + " " + calendarName)
    ]
  }

  /** generatePerCalendarTokens: the five next-event tokens, title, start date, start time, end
      date, end time. */
  function GeneratePerCalendarTokens(naming: TokenNaming, translate: string -> string, calendarName: string): (r: seq<TokenDescriptor>)
    ensures |r| == |NextEventKinds| == 5
    ensures forall i :: 0 <= i < |r| ==> r[i] == Describe(naming, translate, calendarName, NextEventKinds[i])
  {
    [
      TokenDescriptor(naming.preId + calendarName + naming.postNextTitleId, "string",
                      translate("calendarTokens.event_next_title_calendar") + " " + calendarName),
      TokenDescriptor(naming.preId + calendarName + naming.postNextStartDateId, "string",
                      translate("calendarTokens.event_next_startdate_calendar") + " " + calendarName),
      TokenDescriptor(naming.preId + calendarName + naming.postNextStartTimeId, "string",
                      translate("calendarTokens.event_next_startstamp_calendar") + " " + calendarName),
      TokenDescriptor(naming.preId + calendarName + naming.postNextEndDateId, "string",
                      translate("calendarTokens.event_next_enddate_calendar") + " " + calendarName),
      TokenDescriptor(naming.preId + calendarName + naming.postNextEndTimeId, "string",
                      translate("calendarTokens.event_next_endstamp_calendar") + " " + calendarName)
    ]
  }

  // ----- Recovering the calendar name and the kind from an id (handlers/triggers.js:193-195) -----

  /** The suffixes in the order updateFlowTokens strips them. */
  const StripOrder: seq<Kind> := [Today, Tomorrow, NextTitle, NextStartDate, NextStartTime, NextEndDate, NextEndTime]

  /** The chain of `.replace(post, '')` calls, one per kind of `ks`, each removing the first
      occurrence only. */
  function StripPostIds(naming: TokenNaming, s: string, ks: seq<Kind>): string
    decreases |ks|
  {
    if ks == [] then s else StripPostIds(naming, ReplaceFirst(s, PostId(naming, ks[0]), ""), ks[1..])
  }

  /** `calendarId`: the id without its prefix. */
  function CalendarIdOf(naming: TokenNaming, id: string): string {
    ReplaceFirst(id, naming.preId, "")
  }

  /** `calendarName`: what is left once every suffix has been stripped. */
  function CalendarNameOf(naming: TokenNaming, id: string): string {
    StripPostIds(naming, CalendarIdOf(naming, id), StripOrder)
  }

  /** `calendarType`: the calendar id without `<calendar name>_`. */
  function CalendarTypeOf(naming: TokenNaming, id: string): string {
    ReplaceFirst(CalendarIdOf(naming, id), CalendarNameOf(naming, id) + "_", "")
  }

  /** Under the conventional naming each id suffix is the kind's Suffix. */
  lemma ConventionalPostId(naming: TokenNaming, k: Kind)
    requires Conventional(naming)
    ensures PostId(naming, k) == Suffix(k)
  {
  }

  /** Stripping the prefix of a generated id leaves the calendar name and the kind's id suffix. */
  lemma CalendarIdOfTokenId(naming: TokenNaming, name: string, k: Kind)
    ensures CalendarIdOf(naming, TokenId(naming, name, k)) == name + PostId(naming, k)
  {
    var id := TokenId(naming, name, k);
    assert id[..|naming.preId|] == naming.preId;
    ReplacePrefix(id, naming.preId, "");
    assert id[|naming.preId|..] == name + PostId(naming, k);
  }

  /** No kind's suffix occurs anywhere in `s`. */
  ghost predicate NoSuffixIn(s: string) {
    forall j: Kind, i: int :: !OccursAt(s, Suffix(j), i)
  }

  /** The genuine suffix at the end is the only place any kind suffix occurs in `name + Suffix(k)`. */
  ghost predicate OnlyOwnSuffix(name: string, k: Kind) {
    forall j: Kind, i: int :: OccursAt(name + Suffix(k), Suffix(j), i) ==> j == k && i == |name|
  }

  lemma OccursInPrefix(a: string, b: string, pat: string, i: int)
    requires OccursAt(a, pat, i)
    ensures OccursAt(a + b, pat, i)
  {
    assert (a + b)[i..i + |pat|] == a[i..i + |pat|];
  }

  /** Under OnlyOwnSuffix the name itself holds no suffix at all. */
  lemma NameHoldsNoSuffix(name: string, k: Kind)
    requires OnlyOwnSuffix(name, k)
    ensures NoSuffixIn(name)
  {
    forall j: Kind, i: int ensures !OccursAt(name, Suffix(j), i) {
      if OccursAt(name, Suffix(j), i) {
        OccursInPrefix(name, Suffix(k), Suffix(j), i);
      }
    }
  }

  /** The word after `next_` of a next-event kind. */
  function NextWord(k: Kind): string {
    match k
    case NextTitle => "title"
    case NextStartDate => "startdate"
    case NextStartTime => "starttime"
    case NextEndDate => "enddate"
    case NextEndTime => "endtime"
    case _ => ""
  }

  /** A suffix is `_` and a word without `_`, or `_next_` and a word without `_`. */
  lemma SuffixShape(k: Kind)
    ensures k.Today? || k.Tomorrow? ==> '_' !in TypeWord(k)
    ensures !(k.Today? || k.Tomorrow?) ==> Suffix(k) == "_next_" + NextWord(k) && '_' !in NextWord(k)
    ensures !(k.Today? || k.Tomorrow?) ==> |NextWord(k)| >= 5 && NextWord(k)[0] != 'n' && (NextWord(k)[0] == 't' ==> NextWord(k)[1] == 'i')
    ensures |Suffix(k)| >= 6 && Suffix(k)[0] == '_' && (Suffix(k)[1] == 'n' || (Suffix(k)[1] == 't' && Suffix(k)[2] == 'o'))
  {
  }

  /** Inside a suffix, `_` stands only at its start and, for the next-event kinds, after `_next`;
      what follows that one is never the head of a suffix. */
  lemma UnderscoreInSuffix(k: Kind, o: int)
    requires 0 < o < |Suffix(k)| && Suffix(k)[o] == '_'
    ensures o == 5 && |Suffix(k)| >= 11 && Suffix(k)[6] != 'n' && (Suffix(k)[6] == 't' ==> Suffix(k)[7] == 'i')
  {
    SuffixShape(k);
    if !(k.Today? || k.Tomorrow?) && o < 6 {
      assert Suffix(k)[o] == "_next_"[o];
    }
  }

  /** One suffix begins another only when both are the same kind's. */
  lemma SuffixPrefixSameKind(j: Kind, k: Kind)
    requires |Suffix(j)| <= |Suffix(k)| && Suffix(k)[..|Suffix(j)|] == Suffix(j)
    ensures j == k
  {
    assert Suffix(k)[1] == Suffix(j)[1] && Suffix(k)[3] == Suffix(j)[3];
    if !(j.Today? || j.Tomorrow?) {
      assert Suffix(k)[7] == Suffix(j)[7] && Suffix(k)[9] == Suffix(j)[9];
      if j.NextStartDate? || j.NextStartTime? {
        assert Suffix(k)[11] == Suffix(j)[11];
      }
    }
  }

  /** A suffix occurs inside another only as that whole suffix. */
  lemma SuffixInSuffix(j: Kind, k: Kind, o: int)
    requires OccursAt(Suffix(k), Suffix(j), o)
    ensures o == 0 && j == k
  {
    var pat := Suffix(j);
    assert forall x :: 0 <= x < |pat| ==> pat[x] == Suffix(k)[o + x];
    SuffixShape(j);
    if o == 0 {
      assert Suffix(k)[..|pat|] == pat;
      SuffixPrefixSameKind(j, k);
    } else {
      UnderscoreInSuffix(k, o);
      assert false;
    }
  }

  /** No suffix runs on into the head of another. */
  lemma NoSuffixOverlap(j: Kind, k: Kind, p: int)
    requires 0 < p && p + 3 <= |Suffix(j)|
    ensures Suffix(j)[p..p + 3] != Suffix(k)[..3]
  {
    SuffixShape(k);
    if Suffix(j)[p..p + 3] == Suffix(k)[..3] {
      assert forall x :: 0 <= x < 3 ==> Suffix(j)[p + x] == Suffix(j)[p..p + 3][x] == Suffix(k)[x];
      UnderscoreInSuffix(j, p);
    }
  }

  lemma OccurrenceInName(a: string, b: string, pat: string, i: int)
    requires OccursAt(a + b, pat, i) && i + |pat| <= |a|
    ensures OccursAt(a, pat, i)
  {
    assert a[i..i + |pat|] == (a + b)[i..i + |pat|];
  }

  lemma OccurrenceInTail(a: string, b: string, pat: string, i: int)
    requires OccursAt(a + b, pat, i) && i >= |a|
    ensures OccursAt(b, pat, i - |a|)
  {
    assert b[i - |a|..i - |a| + |pat|] == (a + b)[i..i + |pat|];
  }

  lemma OccurrenceAcross(a: string, b: string, pat: string, i: int)
    requires OccursAt(a + b, pat, i) && i < |a| < i + |pat| && |b| > 0
    ensures pat[|a| - i] == b[0]
  {
    assert pat[|a| - i] == (a + b)[i..i + |pat|][|a| - i];
  }

  lemma OccurrenceAcrossHead(a: string, b: string, pat: string, i: int)
    requires OccursAt(a + b, pat, i) && i < |a| && |a| - i + 3 <= |pat| && |b| >= 3
    ensures pat[|a| - i..|a| - i + 3] == b[..3]
  {
    forall x | 0 <= x < 3 ensures pat[|a| - i + x] == b[x] {
      assert pat[|a| - i + x] == (a + b)[i..i + |pat|][|a| - i + x];
    }
  }

  /** Where a suffix can occur in `name + Suffix(k)` when the name holds none. */
  lemma OccurrenceIsOwn(name: string, k: Kind, j: Kind, i: int)
    requires NoSuffixIn(name) && OccursAt(name + Suffix(k), Suffix(j), i)
    ensures j == k && i == |name|
  {
    if i + |Suffix(j)| <= |name| {
      OccurrenceInName(name, Suffix(k), Suffix(j), i);
    } else if i >= |name| {
      OccurrenceInTail(name, Suffix(k), Suffix(j), i);
      SuffixInSuffix(j, k, i - |name|);
    } else {
      var p := |name| - i;
      OccurrenceAcross(name, Suffix(k), Suffix(j), i);
      UnderscoreInSuffix(j, p);
      OccurrenceAcrossHead(name, Suffix(k), Suffix(j), i);
      NoSuffixOverlap(j, k, p);
    }
  }

  /** A name holding no suffix leaves its own suffix the only one in `name + Suffix(k)`: no suffix
      can straddle the boundary or sit inside another. */
  lemma NoSuffixOnlyOwn(name: string, k: Kind)
    requires NoSuffixIn(name)
    ensures OnlyOwnSuffix(name, k)
  {
    forall j: Kind, i: int | OccursAt(name + Suffix(k), Suffix(j), i) ensures j == k && i == |name| {
      OccurrenceIsOwn(name, k, j, i);
    }
  }

  /** The id condition of the round trip is exactly the name condition. */
  lemma OnlyOwnSuffixIff(name: string, k: Kind)
    ensures OnlyOwnSuffix(name, k) <==> NoSuffixIn(name)
  {
    if OnlyOwnSuffix(name, k) {
      NameHoldsNoSuffix(name, k);
    }
    if NoSuffixIn(name) {
      NoSuffixOnlyOwn(name, k);
    }
  }

  /** Stripping suffixes that do not occur changes nothing. */
  lemma {:induction false} StripAbsent(naming: TokenNaming, s: string, ks: seq<Kind>)
    requires Conventional(naming) && NoSuffixIn(s)
    ensures StripPostIds(naming, s, ks) == s
    decreases |ks|
  {
    if ks != [] {
      ConventionalPostId(naming, ks[0]);
      assert forall i :: !OccursAt(s, Suffix(ks[0]), i);
      ReplaceAbsent(s, PostId(naming, ks[0]), "");
      StripAbsent(naming, s, ks[1..]);
    }
  }

  /** One strip step on `name + Suffix(k)`: its own suffix is cut off, any other is absent. */
  lemma StripStep(name: string, k: Kind, j: Kind)
    requires OnlyOwnSuffix(name, k)
    ensures ReplaceFirst(name + Suffix(k), Suffix(j), "") == if j == k then name else name + Suffix(k)
  {
    if j == k {
      assert name + Suffix(k) + "" == name + Suffix(k);
      ReplaceAt(name, Suffix(k), "", "");
      assert name + "" + "" == name;
    } else {
      ReplaceAbsent(name + Suffix(k), Suffix(j), "");
    }
  }

  lemma {:induction false} StripToName(naming: TokenNaming, name: string, k: Kind, ks: seq<Kind>)
    requires Conventional(naming) && OnlyOwnSuffix(name, k) && k in ks
    ensures StripPostIds(naming, name + Suffix(k), ks) == name
    decreases |ks|
  {
    ConventionalPostId(naming, ks[0]);
    StripStep(name, k, ks[0]);
    if ks[0] == k {
      NameHoldsNoSuffix(name, k);
      StripAbsent(naming, name, ks[1..]);
    } else {
      StripToName(naming, name, k, ks[1..]);
    }
  }

  lemma NameOfTokenId(naming: TokenNaming, name: string, k: Kind)
    requires Conventional(naming) && NoSuffixIn(name)
    ensures CalendarNameOf(naming, TokenId(naming, name, k)) == name
  {
    NoSuffixOnlyOwn(name, k);
    ConventionalPostId(naming, k);
    CalendarIdOfTokenId(naming, name, k);
    StripToName(naming, name, k, StripOrder);
  }

  /** Cutting `<name>_` off the calendar id leaves the type word. */
  lemma TypeAfterName(name: string, k: Kind)
    ensures ReplaceFirst(name + Suffix(k), name + "_", "") == TypeWord(k)
  {
    var calendarId := name + Suffix(k);
    assert calendarId == (name + "_") + TypeWord(k);
    ReplacePrefix(calendarId, name + "_", "");
    assert calendarId[|name + "_"|..] == TypeWord(k);
  }

  lemma TypeOfTokenId(naming: TokenNaming, name: string, k: Kind)
    requires Conventional(naming) && NoSuffixIn(name)
    ensures CalendarTypeOf(naming, TokenId(naming, name, k)) == TypeWord(k)
  {
    ConventionalPostId(naming, k);
    CalendarIdOfTokenId(naming, name, k);
    NameOfTokenId(naming, name, k);
    TypeAfterName(name, k);
  }

  /** The id round trip: for the conventional naming, stripping recovers the calendar name and the
      kind's type word from a generated id, provided no kind's suffix occurs in the name. */
  lemma ParseTokenId(naming: TokenNaming, name: string, k: Kind)
    requires Conventional(naming) && NoSuffixIn(name)
    ensures CalendarNameOf(naming, TokenId(naming, name, k)) == name
    ensures KindOfType(CalendarTypeOf(naming, TokenId(naming, name, k))) == Some(k)
  {
    NameOfTokenId(naming, name, k);
    TypeOfTokenId(naming, name, k);
    KindOfTypeWord(k);
  }

  lemma MisparseFirstStep()
    ensures ReplaceFirst("x" + "_today" + "_tomorrow", "_today", "") == "x" + "_tomorrow"
  {
    NotAt("x" + "_today" + "_tomorrow", "_today", 0);
    ReplaceAt("x", "_today", "_tomorrow", "");
  }

  lemma MisparseSecondStep()
    ensures ReplaceFirst("x" + "_tomorrow", "_tomorrow", "") == "x"
  {
    assert "x" + "_tomorrow" + "" == "x" + "_tomorrow";
    NotAt("x" + "_tomorrow" + "", "_tomorrow", 0);
    ReplaceAt("x", "_tomorrow", "", "");
  }

  lemma NoSuffixInX()
    ensures NoSuffixIn("x")
  {
    forall j: Kind, i: int ensures !OccursAt("x", Suffix(j), i) {
      assert |Suffix(j)| > 1;
    }
  }

  lemma MisparseType()
    ensures KindOfType(ReplaceFirst("x" + "_today" + "_tomorrow", "x" + "_", "")) == None
  {
    var s0 := "x" + "_today" + "_tomorrow";
    assert s0 == ("x" + "_") + "today_tomorrow";
    ReplacePrefix(s0, "x" + "_", "");
    assert s0[|"x" + "_"|..] == "today_tomorrow";
    assert "today_tomorrow"[0] != "next_startdate"[0] && "today_tomorrow"[0] != "next_starttime"[0];
  }

  /** The round trip is conditional: a calendar named `x_today` gets its tomorrow token parsed as
      calendar `x` with the type word `today_tomorrow`, which selects no kind. */
  lemma SuffixInNameMisparses(naming: TokenNaming)
    requires Conventional(naming)
    ensures CalendarNameOf(naming, TokenId(naming, "x_today", Tomorrow)) == "x"
    ensures KindOfType(CalendarTypeOf(naming, TokenId(naming, "x_today", Tomorrow))) == None
  {
    var id := TokenId(naming, "x_today", Tomorrow);
    var s0 := "x" + "_today" + "_tomorrow";
    ConventionalPostId(naming, Today);
    ConventionalPostId(naming, Tomorrow);
    assert Suffix(Today) == "_today" && Suffix(Tomorrow) == "_tomorrow";
    CalendarIdOfTokenId(naming, "x_today", Tomorrow);
    assert "x_today" + "_tomorrow" == s0;
    assert CalendarIdOf(naming, id) == s0;
    MisparseFirstStep();
    MisparseSecondStep();
    NoSuffixInX();
    assert StripOrder[0] == Today && StripOrder[1..][0] == Tomorrow;
    assert StripOrder[1..][1..] == StripOrder[2..];
    assert StripPostIds(naming, s0, StripOrder) == StripPostIds(naming, "x" + "_tomorrow", StripOrder[1..]);
    assert StripPostIds(naming, "x" + "_tomorrow", StripOrder[1..]) == StripPostIds(naming, "x", StripOrder[2..]);
    StripAbsent(naming, "x", StripOrder[2..]);
    assert CalendarNameOf(naming, id) == "x";
    MisparseType();
  }
}
