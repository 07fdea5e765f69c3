/**
 * google_calendar.py: the service-account fetch of tomorrow's events. Tomorrow
 * is today's Asia/Tokyo date plus one day; each event's start is resolved to a
 * Tokyo calendar date and only the events on tomorrow are kept, in API order.
 */
module GoogleCalendar {
  import opened Wrappers
  import opened Text
  import opened Dates
  import opened IsoFormat

  /**
   * An item of the API's event list: its `summary` and its `start` object, each
   * when it has one, and the names of its other keys.
   */
  datatype Event = Event(summary: Option<string>, start: Option<map<string, string>>,
                         otherKeys: set<string>)

  /** `event.get('start', {})`. */
  function StartOf(e: Event): map<string, string> {
    e.start.GetOr(map[])
  }

  /** An entry of the returned list: `{'summary': ..., 'start': ...}`. */
  datatype TomorrowEvent = TomorrowEvent(summary: string, start: map<string, string>)

  /** The summary used for an event that has none. */
  const NoName := "名前なし"

  /** How the service-account setup ends: `json.loads`, the credentials and `build`. */
  datatype Setup = Authorized | InvalidJson | SetupFailed

  /** A `timeMin`/`timeMax` pair of the list request, as UTC minutes (see `UtcMinute`). */
  datatype Window = Window(timeMin: int, timeMax: int)

  /** What `events().list(...).execute()` gives: the items, an `HttpError`, or another exception. */
  datatype ListOutcome = Listed(items: seq<Event>) | HttpFailure | Raised

  /**
   * What the function reads from outside: the `GOOGLE_SERVICE_ACCOUNT_KEY`
   * variable, how the setup goes, today's Tokyo date, the calendar API (a
   * function of the requested window) and the host's UTC offset.
   */
  datatype Environment = Environment(serviceAccountKey: Option<string>, setup: Setup, today: Date,
                                     api: Window -> ListOutcome, hostOffset: int)

  predicate ValidEnvironment(env: Environment) {
    ValidDate(env.today) && ValidOffset(env.hostOffset)
  }

  /** `if not service_account_key`: unset or empty. */
  predicate KeyGiven(key: Option<string>) {
    key.Some? && key.value != ""
  }

  // ---------------------------------------------------------------------------
  // Resolving a start to a Tokyo date

  /**
   * The Tokyo date of an event's start: `dateTime` (with every `Z` read as
   * `+00:00`) converted to Asia/Tokyo, taking precedence over `date`, which is
   * taken as written. `None` for a start with neither key or one that fails to
   * parse or convert.
   */
  function StartDate(start: map<string, string>, hostOffset: int): (r: Option<Date>)
    requires ValidOffset(hostOffset)
    ensures r.Some? ==> ValidDate(r.value)
  {
    if "dateTime" in start then
      match ParseIsoDateTime(ReplaceZ(start["dateTime"]))
      case None => None
      case Some(t) => TokyoDate(t, hostOffset)
    else if "date" in start then StrptimeDate(start["date"])
    else None
  }

  /** The entry kept for an event: its summary (or `NoName`) and its unchanged start. */
  function Reduce(e: Event): (r: TomorrowEvent)
    ensures r.start == if e.start.Some? then e.start.value else map[]
    ensures e.summary.Some? ==> r.summary == e.summary.value
    ensures e.summary.None? ==> r.summary == NoName
  {
    TomorrowEvent(e.summary.GetOr(NoName), StartOf(e))
  }

  predicate OnDate(e: Event, day: Date, hostOffset: int)
    requires ValidOffset(hostOffset)
  {
    StartDate(StartOf(e), hostOffset) == Some(day)
  }

  /** The events on `day`, reduced, in the order given. */
  function FilterTomorrow(events: seq<Event>, day: Date, hostOffset: int): (r: seq<TomorrowEvent>)
    requires ValidOffset(hostOffset)
    ensures |r| <= |events|
    ensures forall x | x in r :: StartDate(x.start, hostOffset) == Some(day)
    decreases |events|
  {
    if events == [] then []
    else
      var last := events[|events| - 1];
      FilterTomorrow(events[..|events| - 1], day, hostOffset)
      + (if OnDate(last, day, hostOffset) then [Reduce(last)] else [])
  }

  /** Filtering keeps order: the filter of a concatenation is the concatenation of the filters. */
  lemma {:induction false} FilterAppend(a: seq<Event>, b: seq<Event>, day: Date, hostOffset: int)
    requires ValidOffset(hostOffset)
    ensures FilterTomorrow(a + b, day, hostOffset)
            == FilterTomorrow(a, day, hostOffset) + FilterTomorrow(b, day, hostOffset)
    decreases |b|
  {
    if b == [] {
      assert a + b == a;
    } else {
      var last := b[|b| - 1];
      assert (a + b)[..|a + b| - 1] == a + b[..|b| - 1];
      FilterAppend(a, b[..|b| - 1], day, hostOffset);
    }
  }

  /** Every event on `day` is in the filtered list. */
  lemma {:induction false} FilterKeeps(events: seq<Event>, i: nat, day: Date, hostOffset: int)
    requires ValidOffset(hostOffset) && i < |events| && OnDate(events[i], day, hostOffset)
    ensures Reduce(events[i]) in FilterTomorrow(events, day, hostOffset)
  {
    var before, one, after := events[..i], [events[i]], events[i + 1..];
    assert events == before + one + after;
    FilterAppend(before + one, after, day, hostOffset);
    FilterAppend(before, one, day, hostOffset);
    FilterSingle(events[i], day, hostOffset);
    var kept := FilterTomorrow(before, day, hostOffset) + [Reduce(events[i])];
    assert Reduce(events[i]) == kept[|kept| - 1];
  }

  lemma FilterSingle(e: Event, day: Date, hostOffset: int)
    requires ValidOffset(hostOffset)
    ensures FilterTomorrow([e], day, hostOffset) == if OnDate(e, day, hostOffset) then [Reduce(e)] else []
  {
    assert [e][..0] == [];
  }

  /** Every entry of the filtered list comes from an event on `day`. */
  lemma {:induction false} FilterOnlyKeeps(events: seq<Event>, x: TomorrowEvent, day: Date, hostOffset: int)
    requires ValidOffset(hostOffset) && x in FilterTomorrow(events, day, hostOffset)
    ensures exists i | 0 <= i < |events| :: OnDate(events[i], day, hostOffset) && x == Reduce(events[i])
    decreases |events|
  {
    var init := events[..|events| - 1];
    var last := events[|events| - 1];
    if x in FilterTomorrow(init, day, hostOffset) {
      FilterOnlyKeeps(init, x, day, hostOffset);
      var i :| 0 <= i < |init| && OnDate(init[i], day, hostOffset) && x == Reduce(init[i]);
      assert events[i] == init[i];
    } else {
      assert OnDate(events[|events| - 1], day, hostOffset) && x == Reduce(events[|events| - 1]);
    }
  }

  /**
   * The loop of `get_tomorrow_events` over the listed items: an item without a
   * usable start is skipped and the loop goes on; an item on `day` is appended.
   */
  method CollectTomorrowEvents(events: seq<Event>, day: Date, hostOffset: int)
    returns (kept: seq<TomorrowEvent>)
    requires ValidOffset(hostOffset)
    ensures kept == FilterTomorrow(events, day, hostOffset)
  {
    kept := [];
    for i := 0 to |events|
      invariant kept == FilterTomorrow(events[..i], day, hostOffset)
    {
      assert events[..i + 1][..i] == events[..i];
      var start := StartOf(events[i]);
      var eventDate: Date;
      if "dateTime" in start {
        var parsed := ParseIsoDateTime(ReplaceZ(start["dateTime"]));
        if parsed.None? {
          continue;
        }
        var converted := TokyoDate(parsed.value, hostOffset);
        if converted.None? {
          continue;
        }
        eventDate := converted.value;
      } else if "date" in start {
        var parsed := StrptimeDate(start["date"]);
        if parsed.None? {
          continue;
        }
        eventDate := parsed.value;
      } else {
        continue;
      }
      if eventDate == day {
        kept := kept + [Reduce(events[i])];
      }
    }
    assert events[..|events|] == events;
  }

  // ---------------------------------------------------------------------------
  // The query window

  /** pytz's first Asia/Tokyo offset, local mean time +09:19 (+09:18:59 rounded to minutes). */
  const LmtOffset := 559

  /** Midnight of `d` in a zone `offset` minutes east of UTC, as a UTC minute. */
  function MidnightUtc(d: Date, offset: int): int
    requires ValidDate(d)
  {
    Ordinal(d) * MinutesPerDay - offset
  }

  /** The request window from tomorrow's Tokyo midnight to the next one. */
  function QueryWindow(tomorrow: Date, dayAfter: Date): (w: Window)
    requires ValidDate(tomorrow) && ValidDate(dayAfter)
    ensures NextDay(tomorrow) == Some(dayAfter) ==> w.timeMax - w.timeMin == MinutesPerDay
  {
    NextDayOrdinal(tomorrow);
    Window(MidnightUtc(tomorrow, TokyoOffset), MidnightUtc(dayAfter, TokyoOffset))
  }

  predicate InWindow(u: int, w: Window) {
    w.timeMin <= u < w.timeMax
  }

  /**
   * The window asks the API for exactly the instants whose Tokyo date is
   * tomorrow, so the date filter removes only events that overlap the window
   * without starting in it.
   */
  lemma QueryWindowIsTomorrow(t: DateTime, hostOffset: int, tomorrow: Date, dayAfter: Date)
    requires ValidDateTime(t) && ValidOffset(hostOffset) && ValidDate(tomorrow) && ValidDate(dayAfter)
    requires NextDay(tomorrow) == Some(dayAfter) && tomorrow != FirstDate
    ensures InWindow(UtcMinute(t, t.offset.GetOr(hostOffset)), QueryWindow(tomorrow, dayAfter))
            <==> TokyoDate(t, hostOffset) == Some(tomorrow)
  {
    NextDayOrdinal(tomorrow);
    TokyoDateIff(t, hostOffset, tomorrow);
  }

  /** The window as `.replace(tzinfo=jst)` with a pytz zone builds it: in local mean time. */
  function QueryWindowAsWritten(tomorrow: Date, dayAfter: Date): (w: Window)
    requires ValidDate(tomorrow) && ValidDate(dayAfter)
    ensures NextDay(tomorrow) == Some(dayAfter) ==> w.timeMax - w.timeMin == MinutesPerDay
  {
    NextDayOrdinal(tomorrow);
    Window(MidnightUtc(tomorrow, LmtOffset), MidnightUtc(dayAfter, LmtOffset))
  }

  /**
   * With the local-mean-time window, an event at 23:50 Tokyo time tomorrow is
   * on tomorrow's date but starts after `timeMax`, so the API never lists it.
   */
  lemma AsWrittenWindowMissesLateEvents(tomorrow: Date, dayAfter: Date)
    requires ValidDate(tomorrow) && tomorrow != FirstDate && NextDay(tomorrow) == Some(dayAfter)
    ensures var late := DateTime(tomorrow, 23, 50, 0, 0, Some(TokyoOffset));
            && TokyoDate(late, 0) == Some(tomorrow)
            && !InWindow(UtcMinute(late, TokyoOffset), QueryWindowAsWritten(tomorrow, dayAfter))
  {
    var late := DateTime(tomorrow, 23, 50, 0, 0, Some(TokyoOffset));
    NextDayOrdinal(tomorrow);
    TokyoDateIff(late, 0, tomorrow);
  }

  // ---------------------------------------------------------------------------
  // get_tomorrow_events

  /**
   * What `get_tomorrow_events` returns: `[]` when the key is missing, the setup
   * fails, tomorrow or the day after cannot be represented, or the API call
   * raises; otherwise the listed events that fall on tomorrow.
   */
  function TomorrowEvents(env: Environment): (r: seq<TomorrowEvent>)
    requires ValidEnvironment(env)
    ensures r != [] ==> KeyGiven(env.serviceAccountKey) && env.setup == Authorized
                        && NextDay(env.today).Some?
    ensures forall x | x in r :: StartDate(x.start, env.hostOffset) == NextDay(env.today)
  {
    if !KeyGiven(env.serviceAccountKey) || env.setup != Authorized then []
    else
      match NextDay(env.today)
      case None => []
      case Some(tomorrow) =>
        match NextDay(tomorrow)
        case None => []
        case Some(dayAfter) =>
          match env.api(QueryWindow(tomorrow, dayAfter))
          case Listed(items) => FilterTomorrow(items, tomorrow, env.hostOffset)
          case HttpFailure => []
          case Raised => []
  }

  /** Every failure is reported as an empty list, the same value as a day without events. */
  lemma FailuresGiveNoEvents(env: Environment)
    requires ValidEnvironment(env)
    requires || !KeyGiven(env.serviceAccountKey) || env.setup != Authorized
             || (NextDay(env.today).Some? && NextDay(NextDay(env.today).value).Some?
                 && !env.api(QueryWindow(NextDay(env.today).value, NextDay(NextDay(env.today).value).value)).Listed?)
    ensures TomorrowEvents(env) == []
  {
  }

  /** An event listed by the API is returned exactly when its start falls on tomorrow. */
  lemma TomorrowEventsExactly(env: Environment, i: nat)
    requires ValidEnvironment(env) && KeyGiven(env.serviceAccountKey) && env.setup == Authorized
    requires NextDay(env.today).Some? && NextDay(NextDay(env.today).value).Some?
    requires var tomorrow := NextDay(env.today).value;
             var outcome := env.api(QueryWindow(tomorrow, NextDay(tomorrow).value));
             outcome.Listed? && i < |outcome.items|
    ensures var tomorrow := NextDay(env.today).value;
            var e := env.api(QueryWindow(tomorrow, NextDay(tomorrow).value)).items[i];
            OnDate(e, tomorrow, env.hostOffset) ==> Reduce(e) in TomorrowEvents(env)
  {
    var tomorrow := NextDay(env.today).value;
    var items := env.api(QueryWindow(tomorrow, NextDay(tomorrow).value)).items;
    if OnDate(items[i], tomorrow, env.hostOffset) {
      FilterKeeps(items, i, tomorrow, env.hostOffset);
    }
  }

  method GetTomorrowEvents(env: Environment) returns (events: seq<TomorrowEvent>)
    requires ValidEnvironment(env)
    ensures events == TomorrowEvents(env)
  {
    if !KeyGiven(env.serviceAccountKey) {
      return [];
    }
    if env.setup != Authorized {
      return [];
    }
    var tomorrow := NextDay(env.today);
    if tomorrow.None? {
      return [];
    }
    var dayAfter := NextDay(tomorrow.value);
    if dayAfter.None? {
      return [];
    }
    var outcome := env.api(QueryWindow(tomorrow.value, dayAfter.value));
    if !outcome.Listed? {
      return [];
    }
    events := CollectTomorrowEvents(outcome.items, tomorrow.value, env.hostOffset);
  }

  /**
   * With both kinds of start in one item, `dateTime` decides: the API's UTC form
   * is read at offset zero and moved to Tokyo, whatever `date` says.
   */
  lemma DateTimeTakesPrecedence(t: DateTime, date: string, hostOffset: int)
    requires ValidDateTime(t) && t.offset.None? && ValidOffset(hostOffset)
    ensures StartDate(map["dateTime" := Render(t) + "Z", "date" := date], hostOffset)
            == TokyoDate(t.(offset := Some(0)), hostOffset)
  {
    ParseZuluRender(t);
  }

  /** A start at 23:30 UTC on 1 March 2024, all-day date 1 March, falls on 2 March in Tokyo. */
  lemma LateUtcStartIsNextTokyoDay(hostOffset: int)
    requires ValidOffset(hostOffset)
    ensures var t := DateTime(Date(2024, 3, 1), 23, 30, 0, 0, None);
            StartDate(map["dateTime" := Render(t) + "Z", "date" := RenderDate(t.date)], hostOffset)
            == Some(Date(2024, 3, 2))
  {
    var t := DateTime(Date(2024, 3, 1), 23, 30, 0, 0, None);
    DateTimeTakesPrecedence(t, RenderDate(t.date), hostOffset);
    LateUtcEveningIsNextTokyoDay(hostOffset);
  }

  /** An all-day start is taken as written, with no conversion. */
  lemma AllDayDateAsWritten(start: map<string, string>, d: Date, hostOffset: int)
    requires ValidDate(d) && ValidOffset(hostOffset)
    requires "dateTime" !in start && "date" in start && start["date"] == RenderDate(d)
    ensures StartDate(start, hostOffset) == Some(d)
  {
    StrptimeRender(d);
  }

  // ---------------------------------------------------------------------------
  // get_event_by_type and format_event_message

  predicate OfType(e: TomorrowEvent, eventType: string) {
    Contains(e.summary, eventType)
  }

  /** The loop of `get_event_by_type`: the first event whose summary contains `eventType`. */
  method FirstOfType(events: seq<TomorrowEvent>, eventType: string) returns (r: Option<TomorrowEvent>)
    ensures r.None? <==> forall i | 0 <= i < |events| :: !OfType(events[i], eventType)
    ensures r.Some? ==> exists i | 0 <= i < |events| ::
                          && r.value == events[i] && OfType(events[i], eventType)
                          && forall j | 0 <= j < i :: !OfType(events[j], eventType)
  {
    for i := 0 to |events|
      invariant forall j | 0 <= j < i :: !OfType(events[j], eventType)
    {
      if OfType(events[i], eventType) {
        return Some(events[i]);
      }
    }
    return None;
  }

  /** `get_event_by_type`: the first of tomorrow's events whose summary contains `eventType`. */
  method EventByType(env: Environment, eventType: string) returns (r: Option<TomorrowEvent>)
    requires ValidEnvironment(env)
    ensures r.None? <==> forall x | x in TomorrowEvents(env) :: !OfType(x, eventType)
    ensures r.Some? ==> r.value in TomorrowEvents(env) && OfType(r.value, eventType)
    ensures r.Some? ==> exists i | 0 <= i < |TomorrowEvents(env)| ::
                          && r.value == TomorrowEvents(env)[i]
                          && forall j | 0 <= j < i :: !OfType(TomorrowEvents(env)[j], eventType)
  {
    var events := GetTomorrowEvents(env);
    r := FirstOfType(events, eventType);
  }

  /** `format_event_message`: nothing for no event, otherwise the summary in bold in a sentence. */
  function FormatEventMessage(event: Option<TomorrowEvent>): (r: Option<string>)
    ensures r.None? <==> event.None?
    ensures r.Some? ==> Contains(r.value, event.value.summary)
  {
    match event
    case None => None
    case Some(e) =>
      ContainsInfix("明日は **", e.summary, "** の予定があります");
      Some("明日は **" + e.summary + "** の予定があります")
  }

  /** The message determines the summary it was made from. */
  lemma FormatEventMessageInjective(a: TomorrowEvent, b: TomorrowEvent)
    requires FormatEventMessage(Some(a)) == FormatEventMessage(Some(b))
    ensures a.summary == b.summary
  {
    WrapInjective("明日は **", a.summary, b.summary, "** の予定があります");
  }
}
