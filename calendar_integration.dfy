/**
 * calendar_integration.py: the OAuth-based `CalendarBot` behind the chat
 * commands, which asks the calendar API for the next event (optionally of one
 * type) or for tomorrow's events, and renders them as Japanese messages; and
 * the lazily created module-wide instance.
 */
module CalendarIntegration {
  import opened Wrappers
  import opened Text
  import opened Dates
  import opened IsoFormat
  import opened GoogleCalendar

  /** The summary shown for an event that has none. */
  const NoTitle := "タイトルなし"

  /** The date text for a start with neither `dateTime` nor `date`. */
  const UnknownDate := "日付不明"

  /**
   * A request to `events().list()`: the upcoming events from `timeMin` on, with
   * the free-text filter `q` when given, or the events between two instants.
   */
  datatype EventsQuery = Upcoming(timeMin: string, q: Option<string>) | Between(timeMin: string, timeMax: string)

  /** What `.execute()` gives: the `items` (`[]` when absent), an `HttpError`, or another exception. */
  datatype ApiOutcome = Items(items: seq<Event>) | HttpFailure | Raised(message: string)

  /** The authorised calendar service, as the function from a request to its outcome. */
  type CalendarApi = EventsQuery -> ApiOutcome

  /** How the OAuth flow in `authenticate` ends: a service, or the exception it raises. */
  datatype AuthOutcome = Granted(api: CalendarApi) | AuthFailed(message: string)

  /** `if event_type:` for `None` or a string. */
  predicate Truthy(s: Option<string>) {
    s.Some? && s.value != ""
  }

  /** The request `get_next_event` sends: from the naive UTC `now` marked `Z`, `q` only for a truthy type. */
  function UpcomingQuery(nowUtc: DateTime, eventType: Option<string>): (query: EventsQuery)
    requires ValidDateTime(nowUtc)
    ensures query.Upcoming? && query.timeMin == Render(nowUtc) + "Z"
    ensures query.q.Some? <==> Truthy(eventType)
    ensures query.q.Some? ==> query.q == eventType
  {
    Upcoming(Render(nowUtc) + "Z", if Truthy(eventType) then eventType else None)
  }

  /** The request's `timeMin`, read the way the API's `Z` form is read, is `utcnow()` at offset zero. */
  lemma UpcomingQueryReadsBack(nowUtc: DateTime, eventType: Option<string>)
    requires ValidDateTime(nowUtc) && nowUtc.offset.None?
    ensures ParseIsoDateTime(ReplaceZ(UpcomingQuery(nowUtc, eventType).timeMin))
            == Some(nowUtc.(offset := Some(0)))
  {
    ParseZuluRender(nowUtc);
  }

  // ---------------------------------------------------------------------------
  // The alias table of get_event_by_type

  const AliasTable: map<string, string> :=
    map["家庭" := "家庭ごみ", "プラスチック" := "プラスチックごみ", "紙" := "紙ごみ"]

  /** `event_types.get(event_type, event_type)`: the three short names gain `ごみ`, anything else is kept. */
  function Alias(eventType: string): (query: string)
    ensures eventType in AliasTable ==> query == eventType + "ごみ"
    ensures eventType !in AliasTable ==> query == eventType
  {
    if eventType in AliasTable then AliasTable[eventType] else eventType
  }

  /** The query always contains what the user typed, so a plain substring search still finds it. */
  lemma AliasContains(eventType: string)
    ensures Contains(Alias(eventType), eventType)
  {
    ContainsInfix([], eventType, Alias(eventType)[|eventType|..]);
    assert [] + eventType + Alias(eventType)[|eventType|..] == Alias(eventType);
  }

  /** Looking an alias up again changes nothing: no full name is itself a short name. */
  lemma AliasIdempotent(eventType: string)
    ensures Alias(Alias(eventType)) == Alias(eventType)
  {
    if eventType in AliasTable {
      assert AliasTable.Keys == {"家庭", "プラスチック", "紙"};
    }
  }

  // ---------------------------------------------------------------------------
  // Rendering a start

  /** `%m月%d日`: zero-padded month and day. */
  function MonthDay(d: Date): (s: string)
    requires ValidDate(d)
    ensures |s| == 6
  {
    Digits(d.month, 2) + "月" + Digits(d.day, 2) + "日"
  }

  /** The month and day can be read back from their rendering. */
  lemma MonthDayReadsBack(d: Date)
    requires ValidDate(d)
    ensures AllDigits(MonthDay(d)[0..2]) && DigitsValue(MonthDay(d)[0..2]) == d.month
    ensures AllDigits(MonthDay(d)[3..5]) && DigitsValue(MonthDay(d)[3..5]) == d.day
  {
    assert MonthDay(d)[0..2] == Digits(d.month, 2);
    assert MonthDay(d)[3..5] == Digits(d.day, 2);
    DigitsRoundTrip(d.month, 2);
    DigitsRoundTrip(d.day, 2);
  }

  /** `%m月%d日 %H時%M分` of the wall-clock fields, whatever the offset. */
  function WallClockText(t: DateTime): string
    requires ValidDateTime(t)
  {
    MonthDay(t.date) + " " + Digits(t.hour, 2) + "時" + Digits(t.minute, 2) + "分"
  }

  /** The `ValueError` text `fromisoformat` raises (without `repr`'s escaping). */
  function InvalidIsoformat(s: string): string {
    "Invalid isoformat string: '" + s + "'"
  }

  /** The date text of a `start`: `dateTime` first, then `date`, else `UnknownDate`. */
  function StartText(start: map<string, string>): (r: Result<string, string>)
    ensures "dateTime" !in start && "date" !in start ==> r == Ok(UnknownDate)
    ensures r.Err? ==> "dateTime" in start || "date" in start
  {
    if "dateTime" in start then
      var s := ReplaceZ(start["dateTime"]);
      match ParseIsoDateTime(s)
      case None => Err(InvalidIsoformat(s))
      case Some(t) => Ok(WallClockText(t))
    else if "date" in start then
      match ParseIsoDateTime(start["date"])
      case None => Err(InvalidIsoformat(start["date"]))
      case Some(t) => Ok(MonthDay(t.date))
    else Ok(UnknownDate)
  }

  /** `if not event`: `None` or a dict without keys. */
  predicate Falsy(event: Option<Event>) {
    event.None? || (event.value.summary.None? && event.value.start.None? && event.value.otherKeys == {})
  }

  /** `CalendarBot.format_event_message` (it reads no state of the bot). */
  function FormatEventMessage(event: Option<Event>): (r: Result<Option<string>, string>)
    ensures r == Ok(None) <==> Falsy(event)
    ensures r.Err? ==> !Falsy(event) && (event.value.start.None? || StartText(event.value.start.value).Err?)
    ensures r.Ok? && r.value.Some? ==>
              && StartsWith(r.value.value, "次の" + event.value.summary.GetOr(NoTitle) + "は")
              && EndsWith(r.value.value, "です")
  {
    if Falsy(event) then Ok(None)
    else
      var summary := event.value.summary.GetOr(NoTitle);
      match event.value.start
      case None => Err("'start'")
      case Some(start) =>
        match StartText(start)
        case Err(message) => Err(message)
        case Ok(dateText) =>
          var text := "次の" + summary + "は" + dateText + "です";
          assert text[..|"次の" + summary + "は"|] == "次の" + summary + "は";
          Ok(Some(text))
  }

  /**
   * A timed start is shown in the wall-clock time written in it: the offset is
   * dropped, not converted to Tokyo time.
   */
  lemma FormatTimedStart(summary: string, t: DateTime)
    requires ValidDateTime(t)
    ensures var e := Event(Some(summary), Some(map["dateTime" := Render(t)]), {});
            FormatEventMessage(Some(e)) == Ok(Some("次の" + summary + "は" + WallClockText(t) + "です"))
  {
    RenderHasNoZ(t);
    ReplaceZWithoutZ(Render(t));
    ParseRender(t);
  }

  /** An all-day start is shown as its month and day. */
  lemma FormatAllDayStart(summary: string, d: Date)
    requires ValidDate(d)
    ensures var e := Event(Some(summary), Some(map["date" := RenderDate(d)]), {});
            FormatEventMessage(Some(e)) == Ok(Some("次の" + summary + "は" + MonthDay(d) + "です"))
  {
    ParseDateOnly(d);
  }

  // ---------------------------------------------------------------------------
  // check_tomorrow_events and format_tomorrow_notification

  /**
   * The request of `check_tomorrow_events`: the host's naive `now` plus one day,
   * from 00:00:00 to 23:59:59.999999 of that date, each marked `Z`. `None` where
   * adding the day raises `OverflowError`.
   */
  function TomorrowWindow(now: DateTime): (r: Option<EventsQuery>)
    requires ValidDateTime(now) && now.offset.None?
    ensures r.None? <==> NextDay(now.date).None?
    ensures r.Some? ==> r.value.Between?
  {
    match NextDay(now.date)
    case None => None
    case Some(tomorrow) =>
      Some(Between(Render(DateTime(tomorrow, 0, 0, 0, 0, None)) + "Z",
                   Render(DateTime(tomorrow, 23, 59, 59, 999999, None)) + "Z"))
  }

  /** Both ends of the window read back as UTC instants on the day after `now`, first and last microsecond. */
  lemma TomorrowWindowShape(now: DateTime)
    requires ValidDateTime(now) && now.offset.None? && NextDay(now.date).Some?
    ensures var tomorrow := NextDay(now.date).value;
            var w := TomorrowWindow(now).value;
            && Ordinal(tomorrow) == Ordinal(now.date) + 1
            && ParseIsoDateTime(ReplaceZ(w.timeMin)) == Some(DateTime(tomorrow, 0, 0, 0, 0, Some(0)))
            && ParseIsoDateTime(ReplaceZ(w.timeMax)) == Some(DateTime(tomorrow, 23, 59, 59, 999999, Some(0)))
  {
    var tomorrow := NextDay(now.date).value;
    NextDayOrdinal(now.date);
    ParseZuluRender(DateTime(tomorrow, 0, 0, 0, 0, None));
    ParseZuluRender(DateTime(tomorrow, 23, 59, 59, 999999, None));
  }

  /** `明日は{summary}の日です`. */
  function NotificationLine(e: Event): string {
    "明日は" + e.summary.GetOr(NoTitle) + "の日です"
  }

  /** The text `format_tomorrow_notification` makes from the events: `None` for none. */
  function TomorrowNotification(events: seq<Event>): (r: Option<string>)
    ensures r.None? <==> events == []
  {
    if events == [] then None else Some(Join(MapLines(events, NotificationLine), "\n"))
  }

  /** Every event has its line in the notification, and the text ends with the last line, no newline after it. */
  lemma TomorrowNotificationLines(events: seq<Event>)
    requires events != []
    ensures forall i | 0 <= i < |events| :: Contains(TomorrowNotification(events).value, NotificationLine(events[i]))
    ensures EndsWith(TomorrowNotification(events).value, NotificationLine(events[|events| - 1]))
  {
    var lines := MapLines(events, NotificationLine);
    forall i | 0 <= i < |events|
      ensures Contains(Join(lines, "\n"), NotificationLine(events[i]))
    {
      JoinContains(lines, "\n", i);
    }
    var last := NotificationLine(events[|events| - 1]);
    if |events| == 1 {
      assert Join(lines, "\n") == last;
    } else {
      assert lines == lines[..|lines| - 1] + [last];
      JoinSnoc(lines[..|lines| - 1], "\n", last);
    }
  }

  // ---------------------------------------------------------------------------
  // CalendarBot

  class CalendarBot {
    /** `self.service`: `None` until `authenticate` has built it. */
    var service: Option<CalendarApi>

    predicate Valid()
      reads this
    {
      service.Some?
    }

    /** `__init__`: clear the service, then authenticate. */
    constructor (api: CalendarApi)
      ensures service == Some(api)
    {
      service := None;
      new;
      Authenticate(api);
    }

    /** `authenticate`: the OAuth flow's outcome becomes the bot's service. */
    method Authenticate(api: CalendarApi)
      modifies this
      ensures service == Some(api)
    {
      service := Some(api);
    }

    /**
     * `get_next_event`: the first upcoming event, `None` when there is none or
     * on an `HttpError`; any other exception passes to the caller (`Err`).
     */
    function NextEvent(nowUtc: DateTime, eventType: Option<string>): (r: Result<Option<Event>, string>)
      reads this
      requires Valid() && ValidDateTime(nowUtc)
      ensures var outcome := service.value(UpcomingQuery(nowUtc, eventType));
              && (r.Err? <==> outcome.Raised?)
              && (r.Ok? && r.value.Some? <==> outcome.Items? && outcome.items != [])
              && (r.Ok? && r.value.Some? ==> r.value.value == outcome.items[0])
    {
      match service.value(UpcomingQuery(nowUtc, eventType))
      case Items(items) => Ok(if items != [] then Some(items[0]) else None)
      case HttpFailure => Ok(None)
      case Raised(message) => Err(message)
    }

    /** `get_event_by_type`: the next event whose text matches the aliased type. */
    function EventByType(nowUtc: DateTime, eventType: string): (r: Result<Option<Event>, string>)
      reads this
      requires Valid() && ValidDateTime(nowUtc)
      ensures var query := service.value(UpcomingQuery(nowUtc, Some(Alias(eventType))));
              r.Ok? && r.value.Some? ==> query.Items? && query.items != [] && r.value.value == query.items[0]
      ensures eventType != "" ==> UpcomingQuery(nowUtc, Some(Alias(eventType))).q == Some(Alias(eventType))
    {
      NextEvent(nowUtc, Some(Alias(eventType)))
    }

    /**
     * `check_tomorrow_events`: all items of tomorrow's window, `[]` on an
     * `HttpError`; another exception, or the overflow of adding a day, passes to
     * the caller.
     */
    function CheckTomorrowEvents(now: DateTime): (r: Result<seq<Event>, string>)
      reads this
      requires Valid() && ValidDateTime(now) && now.offset.None?
      ensures NextDay(now.date).None? ==> r == Err("date value out of range")
      ensures NextDay(now.date).Some? ==>
                var outcome := service.value(TomorrowWindow(now).value);
                && (outcome.Items? ==> r == Ok(outcome.items))
                && (outcome.HttpFailure? ==> r == Ok([]))
                && (outcome.Raised? ==> r == Err(outcome.message))
    {
      match TomorrowWindow(now)
      case None => Err("date value out of range")
      case Some(window) =>
        match service.value(window)
        case Items(items) => Ok(items)
        case HttpFailure => Ok([])
        case Raised(message) => Err(message)
    }

    /** `format_tomorrow_notification`: the lines built in a loop and joined with `"\n"`. */
    method FormatTomorrowNotification(now: DateTime) returns (r: Result<Option<string>, string>)
      requires Valid() && ValidDateTime(now) && now.offset.None?
      ensures CheckTomorrowEvents(now).Err? ==> r == Err(CheckTomorrowEvents(now).error)
      ensures CheckTomorrowEvents(now).Ok? ==> r == Ok(TomorrowNotification(CheckTomorrowEvents(now).value))
    {
      var checked := CheckTomorrowEvents(now);
      if checked.Err? {
        return Err(checked.error);
      }
      var events := checked.value;
      if events == [] {
        return Ok(None);
      }
      var messages: seq<string> := [];
      for i := 0 to |events|
        invariant messages == MapLines(events[..i], NotificationLine)
      {
        assert events[..i + 1][..i] == events[..i];
        messages := messages + [NotificationLine(events[i])];
      }
      assert events[..|events|] == events;
      return Ok(Some(Join(messages, "\n")));
    }
  }

  // ---------------------------------------------------------------------------
  // get_calendar_bot

  /** The module-level `calendar_bot`, created on first use and kept from then on. */
  class Registry {
    var calendarBot: CalendarBot?

    predicate Valid()
      reads this, calendarBot
    {
      calendarBot != null ==> calendarBot.Valid()
    }

    constructor ()
      ensures calendarBot == null
    {
      calendarBot := null;
    }

    /**
     * `get_calendar_bot`: the existing instance when there is one; otherwise a new
     * one, unless authenticating raises, in which case nothing is stored.
     */
    method GetCalendarBot(auth: AuthOutcome) returns (r: Result<CalendarBot, string>)
      requires Valid()
      modifies this
      ensures Valid()
      ensures old(calendarBot) != null ==> calendarBot == old(calendarBot) && r == Ok(calendarBot)
      ensures old(calendarBot) == null && auth.Granted? ==>
                && calendarBot != null && fresh(calendarBot) && r == Ok(calendarBot)
                && calendarBot.service == Some(auth.api)
      ensures old(calendarBot) == null && auth.AuthFailed? ==> calendarBot == null && r == Err(auth.message)
    {
      if calendarBot == null {
        match auth
        case AuthFailed(message) =>
          return Err(message);
        case Granted(api) =>
          var bot := new CalendarBot(api);
          calendarBot := bot;
      }
      return Ok(calendarBot);
    }
  }
}
