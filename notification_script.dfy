/**
 * notification_script.py: the scheduled run that reads its settings, fetches
 * tomorrow's events, classifies how the fetch went and posts exactly one of
 * three messages to the notification channel.
 */
module NotificationScript {
  import opened Wrappers
  import opened Text
  import opened IsoFormat
  import opened GoogleCalendar

  const StatusUnavailable := "❌ 利用不可"
  const StatusOk := "✅ 正常"
  const StatusTokenRefresh := "🔄 トークン更新が必要"
  const StatusConnectionError := "❌ 接続エラー"

  /** How importing and calling `get_tomorrow_events` ends: it returns, or an exception escapes. */
  datatype CalendarCall = Fetched(env: Environment) | Raised(message: string)

  /**
   * A run: it stops before fetching or sending anything, or it reaches the
   * channel with a status, posting at most one message.
   */
  datatype RunOutcome = Aborted | Ran(channelId: int, status: string, sent: Option<string>)

  /** `os.getenv(...)` is neither unset nor empty. */
  predicate Given(s: Option<string>) {
    s.Some? && s.value != ""
  }

  // ---------------------------------------------------------------------------
  // Status and message texts

  /** The status for an escaped exception: a token problem or a connection error. */
  function StatusForError(message: string): (status: string)
    ensures status == StatusTokenRefresh <==> Contains(message, "invalid_grant") || Contains(message, "expired")
    ensures status == StatusTokenRefresh || status == StatusConnectionError
  {
    if Contains(message, "invalid_grant") || Contains(message, "expired") then StatusTokenRefresh
    else StatusConnectionError
  }

  /** The status after the fetch: normal whenever `get_tomorrow_events` returns, even with `[]`. */
  function CalendarStatus(call: CalendarCall): (status: string)
    ensures call.Fetched? <==> status == StatusOk
    ensures status != StatusUnavailable
  {
    match call
    case Fetched(_) => StatusOk
    case Raised(message) => StatusForError(message)
  }

  /** The events the run has: what `get_tomorrow_events` returned, or `[]` after an exception. */
  function EventsOf(call: CalendarCall): (events: seq<TomorrowEvent>)
    requires call.Fetched? ==> ValidEnvironment(call.env)
    ensures call.Raised? ==> events == []
  {
    match call
    case Fetched(env) => TomorrowEvents(env)
    case Raised(_) => []
  }

  /** `current_time.strftime('%Y年%m月%d日 %H:%M')`. */
  function Stamp(now: DateTime): (s: string)
    requires ValidDateTime(now)
  {
    NatToString(now.date.year) + "年" + Digits(now.date.month, 2) + "月" + Digits(now.date.day, 2) + "日 "
    + Digits(now.hour, 2) + ":" + Digits(now.minute, 2)
  }

  /** `明日は **{summary}** の予定があります`. */
  function EventLine(e: TomorrowEvent): string {
    "明日は **" + e.summary + "** の予定があります"
  }

  const Header := "📅 **明日の予定**\n\n"
  const NoEventsLine := "明日の予定はありません。"
  const StampLabel := "\n\n🕘 **通知時刻**: "

  function EventListText(events: seq<TomorrowEvent>, now: DateTime): string
    requires ValidDateTime(now)
  {
    Header + (Join(MapLines(events, EventLine), "\n") + StampLabel + Stamp(now))
  }

  function NoEventsText(now: DateTime): string
    requires ValidDateTime(now)
  {
    Header + (NoEventsLine + StampLabel + Stamp(now))
  }

  const StatusHead := "🤖 **システム状況**\n\n📅 Google Calendar: "
  const StatusMiddle := "\n💬 Discord通知: ✅ 正常稼働\n\n🕘 **確認時刻**: "
  const StatusTail := "\n\n💡 Google Calendarのトークン更新が必要な場合があります。"

  function StatusText(status: string, now: DateTime): string
    requires ValidDateTime(now)
  {
    StatusHead + (status + (StatusMiddle + Stamp(now) + StatusTail))
  }

  /** The one message a run posts: the events if any, else "no events" when the status is normal, else the status. */
  function Notice(events: seq<TomorrowEvent>, status: string, now: DateTime): string
    requires ValidDateTime(now)
  {
    if events != [] then EventListText(events, now)
    else if status == StatusOk then NoEventsText(now)
    else StatusText(status, now)
  }

  // ---------------------------------------------------------------------------
  // Properties of the three messages

  /** With events, every event has its line in the message, whatever the status. */
  lemma NoticeListsEvents(events: seq<TomorrowEvent>, status: string, now: DateTime, i: nat)
    requires ValidDateTime(now) && i < |events|
    ensures StartsWith(Notice(events, status, now), Header)
    ensures Contains(Notice(events, status, now), EventLine(events[i]))
  {
    var body := Join(MapLines(events, EventLine), "\n");
    var line := EventLine(events[i]);
    JoinContains(MapLines(events, EventLine), "\n", i);
    ContainsInLeft(body, StampLabel, line);
    ContainsInLeft(body + StampLabel, Stamp(now), line);
    ContainsInRight(Header, body + StampLabel + Stamp(now), line);
    StartsWithConcat(Header, body + StampLabel + Stamp(now));
  }

  /** Without events and with a normal status, the message says there are none. */
  lemma NoticeSaysNoEvents(status: string, now: DateTime)
    requires ValidDateTime(now) && status == StatusOk
    ensures Notice([], status, now) == NoEventsText(now)
    ensures Contains(Notice([], status, now), NoEventsLine)
  {
    ContainsSelf(NoEventsLine);
    ContainsInLeft(NoEventsLine, StampLabel, NoEventsLine);
    ContainsInLeft(NoEventsLine + StampLabel, Stamp(now), NoEventsLine);
    ContainsInRight(Header, NoEventsLine + StampLabel + Stamp(now), NoEventsLine);
  }

  lemma {:induction false} DigitsHaveNo(s: string, c: char)
    requires AllDigits(s) && !IsDigit(c)
    ensures c !in s
  {
  }

  /** No stamp holds the character that opens the "no events" line. */
  lemma StampLacksMei(now: DateTime)
    requires ValidDateTime(now)
    ensures '明' !in Stamp(now)
  {
    DigitsHaveNo(NatToString(now.date.year), '明');
    DigitsHaveNo(Digits(now.date.month, 2), '明');
    DigitsHaveNo(Digits(now.date.day, 2), '明');
    DigitsHaveNo(Digits(now.hour, 2), '明');
    DigitsHaveNo(Digits(now.minute, 2), '明');
  }

  /** None of the fixed parts of the status report holds the character that opens the "no events" line. */
  lemma StatusPartsLackMei()
    ensures '明' !in StatusHead && '明' !in StatusMiddle && '明' !in StatusTail
  {
    HeadLacksMei();
    MiddleLacksMei();
    TailLacksMei();
  }

  lemma HeadLacksMei()
    ensures '明' !in StatusHead
  {
  }

  lemma MiddleLacksMei()
    ensures '明' !in StatusMiddle
  {
  }

  lemma TailLacksMei()
    ensures '明' !in StatusTail
  {
  }

  /** The status report holds the character that opens the "no events" line only where the status does. */
  lemma StatusTextLacksMei(status: string, now: DateTime)
    requires ValidDateTime(now) && '明' !in status
    ensures '明' !in StatusText(status, now)
  {
    StampLacksMei(now);
    StatusPartsLackMei();
  }

  lemma StatusTextShowsStatus(status: string, now: DateTime)
    requires ValidDateTime(now)
    ensures Contains(StatusText(status, now), status)
  {
    var after := StatusMiddle + Stamp(now) + StatusTail;
    ContainsSelf(status);
    ContainsInLeft(status, after, status);
    ContainsInRight(StatusHead, status + after, status);
  }

  /**
   * Without events and after an exception, the message reports the status and
   * never claims there are no events.
   */
  lemma NoticeReportsStatus(status: string, now: DateTime)
    requires ValidDateTime(now)
    requires status == StatusTokenRefresh || status == StatusConnectionError || status == StatusUnavailable
    ensures Notice([], status, now) == StatusText(status, now)
    ensures Contains(Notice([], status, now), status)
    ensures !Contains(Notice([], status, now), NoEventsLine)
  {
    StatusTextShowsStatus(status, now);
    assert '明' !in status;
    StatusTextLacksMei(status, now);
    assert NoEventsLine[0] == '明';
    NotContainsByChar(StatusText(status, now), NoEventsLine, 0);
  }

  /** The three messages can be told apart: a run's message shows which branch it took. */
  lemma NoticesDistinct(events: seq<TomorrowEvent>, status: string, now: DateTime, later: DateTime)
    requires ValidDateTime(now) && ValidDateTime(later) && events != []
    ensures EventListText(events, now) != NoEventsText(later)
    ensures StatusText(status, now) != EventListText(events, later)
    ensures StatusText(status, now) != NoEventsText(later)
  {
    ListIsNotNoEvents(events, now, later);
    StatusOpensWithRobot(status, now);
    assert EventListText(events, later)[0] == '📅';
    assert NoEventsText(later)[0] == '📅';
  }

  /** After the header, an event line goes on with `は` where the "no events" line has `の`. */
  lemma ListIsNotNoEvents(events: seq<TomorrowEvent>, now: DateTime, later: DateTime)
    requires ValidDateTime(now) && ValidDateTime(later) && events != []
    ensures EventListText(events, now) != NoEventsText(later)
  {
    var x := Join(MapLines(events, EventLine), "\n") + StampLabel + Stamp(now);
    var y := NoEventsLine + StampLabel + Stamp(later);
    ListThirdChar(events, StampLabel + Stamp(now));
    assert y[2] == NoEventsLine[2];
    DifferAfterPrefix(Header, x, y, 2);
  }

  /** The event list's body opens with the first event's line, whose third character is `は`. */
  lemma ListThirdChar(events: seq<TomorrowEvent>, rest: string)
    requires events != []
    ensures var body := Join(MapLines(events, EventLine), "\n");
            |body + rest| > 2 && (body + rest)[2] == 'は'
  {
    var lines := MapLines(events, EventLine);
    var body := Join(lines, "\n");
    var first := EventLine(events[0]);
    assert lines[0] == first;
    assert first[2] == 'は';
    if |lines| == 1 {
      assert body == first;
    } else {
      assert body == first + "\n" + Join(lines[1..], "\n");
    }
  }

  lemma StatusOpensWithRobot(status: string, now: DateTime)
    requires ValidDateTime(now)
    ensures StatusText(status, now)[0] == '🤖'
  {
  }

  /**
   * A failure inside `get_tomorrow_events` (here a missing key) reaches the run
   * as an empty list with a normal status, so the channel is told there are no
   * events.
   */
  lemma MissingKeyReadsAsNoEvents(env: Environment, now: DateTime)
    requires ValidEnvironment(env) && ValidDateTime(now) && !KeyGiven(env.serviceAccountKey)
    ensures CalendarStatus(Fetched(env)) == StatusOk
    ensures Notice(EventsOf(Fetched(env)), CalendarStatus(Fetched(env)), now) == NoEventsText(now)
  {
    FailuresGiveNoEvents(env);
  }

  // ---------------------------------------------------------------------------
  // send_notification

  /** The loop that collects one line per event, and the event-list message around them. */
  method BuildEventList(events: seq<TomorrowEvent>, now: DateTime) returns (text: string)
    requires ValidDateTime(now)
    ensures text == EventListText(events, now)
  {
    var messages: seq<string> := [];
    for i := 0 to |events|
      invariant messages == MapLines(events[..i], EventLine)
    {
      assert events[..i + 1][..i] == events[..i];
      messages := messages + [EventLine(events[i])];
    }
    assert events[..|events|] == events;
    text := Header + (Join(messages, "\n") + StampLabel + Stamp(now));
  }

  /**
   * `send_notification` with its `on_ready` callback: the environment checks,
   * the fetch and its status, and the single message posted when the channel
   * can be reached (`channelFound`).
   */
  method SendNotification(token: Option<string>, channelIdText: Option<string>, now: DateTime,
                          call: CalendarCall, channelFound: bool) returns (outcome: RunOutcome)
    requires ValidDateTime(now)
    requires call.Fetched? ==> ValidEnvironment(call.env)
    ensures outcome.Aborted? <==>
              !Given(token) || !Given(channelIdText) || ParseInt(channelIdText.value).None?
    ensures outcome.Ran? ==>
              && outcome.channelId == ParseInt(channelIdText.value).value
              && outcome.status == CalendarStatus(call)
              && outcome.sent == if channelFound then Some(Notice(EventsOf(call), outcome.status, now)) else None
  {
    if !Given(token) || !Given(channelIdText) {
      return Aborted;
    }
    var channelId := ParseInt(channelIdText.value);
    if channelId.None? {
      return Aborted;
    }
    var tomorrowEvents: seq<TomorrowEvent> := [];
    var calendarStatus := StatusUnavailable;
    match call {
      case Fetched(env) =>
        tomorrowEvents := GetTomorrowEvents(env);
        calendarStatus := StatusOk;
      case Raised(message) =>
        if Contains(message, "invalid_grant") || Contains(message, "expired") {
          calendarStatus := StatusTokenRefresh;
        } else {
          calendarStatus := StatusConnectionError;
        }
    }
    var sent: Option<string> := None;
    if channelFound {
      if tomorrowEvents != [] {
        var text := BuildEventList(tomorrowEvents, now);
        sent := Some(text);
      } else if calendarStatus == StatusOk {
        sent := Some(NoEventsText(now));
      } else {
        sent := Some(StatusText(calendarStatus, now));
      }
    }
    return Ran(channelId.value, calendarStatus, sent);
  }
}
