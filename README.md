# Garbage-day calendar bot, modelled in Dafny

The bot reads a Google Calendar and tells a Discord channel which garbage is
collected tomorrow. It has four parts, each a Dafny module here:

- `GoogleCalendar` (`google_calendar.py`) fetches tomorrow's events with a
  service account. "Tomorrow" is today's Asia/Tokyo date plus one day. Each
  listed event's start is resolved to a Tokyo date: `dateTime` takes
  precedence over `date`, and every `Z` is read as `+00:00`. Only events on
  tomorrow are kept, in API order, as `{summary, start}` entries. Every
  failure ends as `[]`.
- `CalendarIntegration` (`calendar_integration.py`) is the OAuth-based
  `CalendarBot`. It answers "next event" and "next event of a type" (with the
  `家庭`/`プラスチック`/`紙` aliases). It also answers "tomorrow's events" and
  renders events as Japanese sentences. The module-wide instance is created on
  first use.
- `NotificationScript` (`notification_script.py`) is the scheduled run. It
  checks its settings and classifies how the fetch went, as normal, token
  refresh needed or connection error. It then posts exactly one of three
  messages: the event list, "no events", or a status report.
- `DiscordBot` (`discordbot.py`) holds the chat handlers. `on_message` routes
  the `!カレンダー` and `!明日` commands and mentions. `on_ready` posts
  tomorrow's summary and a start-up notice.

Four supporting modules model the Python library behaviour that the core
relies on:

- `Wrappers`: `Option` and `Result`.
- `Text`: substring tests, `str.split()`, `"\n".join`, `int()` and zero-padded
  digits.
- `Dates`: `datetime.date` over the years 1 to 9999, with `timedelta` stepping
  that fails where Python raises `OverflowError`.
- `IsoFormat`: `isoformat`, `fromisoformat`, the lenient `strptime('%Y-%m-%d')`
  and the conversion of an instant to an Asia/Tokyo date.

The outside world is passed in as parameters:

- The calendar API is a function from the request to its outcome: the items,
  an `HttpError` or another exception.
- Environment variables, the clock, the host's UTC offset and whether the
  channel can be reached are plain values.
- How the OAuth flow and the service-account setup end is a plain value too.

A caller cannot tell a failed fetch from a day without events.
`get_tomorrow_events` returns `[]` on a missing key, invalid JSON, an
`HttpError` or any other exception. `notification_script.py` then reports a
normal status and posts "no events", although its comment at
notification_script.py:105 reserves that message for a working calendar.
The model follows the code. `NotificationScript.MissingKeyReadsAsNoEvents`
states the consequence.

## Model

| member | source | states |
|---|---|---|
| GoogleCalendar.GetTomorrowEvents | google_calendar.py:13-125 | the whole function: `[]` when the key is unset or empty, the setup fails, tomorrow or the day after is out of range, or the API call raises; otherwise the listed items that fall on tomorrow |
| GoogleCalendar.TomorrowEvents | google_calendar.py:17-125 | a non-empty result implies a key was given, the setup succeeded and tomorrow exists; every returned entry's start resolves to tomorrow's Tokyo date |
| GoogleCalendar.FailuresGiveNoEvents | google_calendar.py:21-24 | a missing key, a failed setup or a failed list call all give `[]`, the same value as a day without events |
| GoogleCalendar.TomorrowEventsExactly | google_calendar.py:75-101 | every listed event whose start falls on tomorrow is in the result |
| GoogleCalendar.CollectTomorrowEvents | google_calendar.py:75-107 | the filtering loop, which skips items without a usable start and continues, equals the order-preserving filter |
| GoogleCalendar.FilterTomorrow | google_calendar.py:75-101 | the result is no longer than the input, and every kept entry's start is on the given day |
| GoogleCalendar.FilterAppend | google_calendar.py:76-101 | filtering keeps order: the filter of a concatenation is the concatenation of the filters |
| GoogleCalendar.FilterKeeps | google_calendar.py:96-100 | an event on the day is kept |
| GoogleCalendar.FilterOnlyKeeps | google_calendar.py:96-100 | every kept entry comes from an event on the day |
| GoogleCalendar.Reduce | google_calendar.py:97-100 | the kept entry has the event's summary, or `名前なし` when it has none, and its start unchanged (`{}` when it had none) |
| GoogleCalendar.StartDate | google_calendar.py:79-89 | a resolved start date is always a valid date |
| GoogleCalendar.DateTimeTakesPrecedence | google_calendar.py:80-86 | with both keys present, `dateTime` decides: the API's `...Z` form is read at offset zero and moved to Tokyo, whatever `date` says |
| GoogleCalendar.LateUtcStartIsNextTokyoDay | google_calendar.py:80-86 | a start at 23:30 UTC on 1 March 2024 with all-day date 1 March falls on 2 March |
| GoogleCalendar.AllDayDateAsWritten | google_calendar.py:84-86 | an all-day `date` is taken as written, with no time-zone conversion |
| GoogleCalendar.QueryWindow | google_calendar.py:46-53 | the request window from tomorrow's Tokyo midnight to the next one spans one day |
| GoogleCalendar.QueryWindowIsTomorrow | google_calendar.py:46-53 | an instant is inside the window exactly when its Tokyo date is tomorrow, in both directions |
| GoogleCalendar.QueryWindowAsWritten | google_calendar.py:47-49 | the window as `.replace(tzinfo=jst)` builds it with a pytz zone, in local mean time +09:19; it also spans one day |
| GoogleCalendar.AsWrittenWindowMissesLateEvents | google_calendar.py:47-53 | an event at 23:50 Tokyo time tomorrow is on tomorrow's date but lies past the as-written `timeMax` |
| GoogleCalendar.FirstOfType | google_calendar.py:135-138 | the loop returns the first event whose summary contains the type, and `None` exactly when none does |
| GoogleCalendar.EventByType | google_calendar.py:132-138 | `None` exactly when no event of tomorrow has the type in its summary; otherwise the first of tomorrow's events that does |
| GoogleCalendar.FormatEventMessage | google_calendar.py:140-144 | `None` exactly for no event; otherwise a sentence that contains the summary |
| GoogleCalendar.FormatEventMessageInjective | google_calendar.py:140-144 | the sentence determines the summary it was made from |
| IsoFormat.ParseRender | google_calendar.py:82 | `fromisoformat(isoformat(t)) == t` for every valid datetime, naive or aware |
| IsoFormat.ParseZuluRender | google_calendar.py:82 | a naive datetime rendered with a trailing `Z`, after `.replace('Z', '+00:00')`, parses back as the same wall clock at UTC |
| IsoFormat.ReplaceZAppend | google_calendar.py:82 | the replacement of `Z` works piecewise over a concatenation |
| IsoFormat.ReplaceZWithoutZ | calendar_integration.py:76 | a string without `Z` is left unchanged |
| IsoFormat.ParseDateOnly | calendar_integration.py:79 | `fromisoformat` of a `YYYY-MM-DD` date gives midnight of that date, naive |
| IsoFormat.StrptimeRender | google_calendar.py:86 | `strptime('%Y-%m-%d')` reads back every rendered date |
| IsoFormat.StrptimeIsLenient | google_calendar.py:86 | `strptime` accepts `2024-3-2`, which `fromisoformat` rejects |
| IsoFormat.TokyoDate | google_calendar.py:83 | `astimezone(jst).date()`: a result exactly when the instant and its Tokyo wall clock are representable, and its day number is the UTC minute plus nine hours, divided into days |
| IsoFormat.TokyoDateIff | google_calendar.py:83 | an instant's Tokyo date is `d` exactly when it lies in `d`'s Tokyo day, from 15:00 UTC on the previous day to 15:00 UTC on `d` |
| IsoFormat.LateUtcEveningIsNextTokyoDay | google_calendar.py:82-83 | 23:30 UTC on 1 March 2024 is 2 March in Tokyo |
| Dates.NextDay | google_calendar.py:41 | `+ timedelta(days=1)`: `None` exactly on 31 December 9999; otherwise a valid later date |
| Dates.NextDayOrdinal | google_calendar.py:41 | the next day is one day number later |
| Dates.AddDays | google_calendar.py:83 | the shifted date has the day number `Ordinal(d) + k`, and is `None` exactly when that leaves the representable range |
| Dates.OrdinalInjective | google_calendar.py:96 | distinct valid dates have distinct day numbers, so comparing dates and comparing day numbers agree |
| CalendarIntegration.UpcomingQuery | calendar_integration.py:42-56 | the request starts at the naive UTC now marked `Z`, and carries `q` exactly for a truthy type |
| CalendarIntegration.UpcomingQueryReadsBack | calendar_integration.py:42-50 | `timeMin`, with `Z` read as `+00:00`, parses back to `utcnow()` at offset zero |
| CalendarIntegration.CalendarBot.NextEvent | calendar_integration.py:39-65 | the first listed item when there is one; `None` for no items or an `HttpError`; another exception passes to the caller |
| CalendarIntegration.Alias | calendar_integration.py:125-131 | the three short names gain `ごみ`; any other type is used unchanged |
| CalendarIntegration.AliasContains | calendar_integration.py:131 | the query always contains what the user typed |
| CalendarIntegration.AliasIdempotent | calendar_integration.py:125-131 | looking up the alias again changes nothing |
| CalendarIntegration.CalendarBot.EventByType | calendar_integration.py:123-132 | a found event is the first item of the aliased query, and a non-empty type is sent as `q` |
| CalendarIntegration.FormatEventMessage | calendar_integration.py:67-84 | `None` exactly for a falsy event; an error only for a missing `start` or an unparsable start; otherwise `次の{summary}は…です`, with `タイトルなし` for a missing summary |
| CalendarIntegration.StartText | calendar_integration.py:75-82 | `日付不明` for a start with neither key, and an error only when one of the keys is present |
| CalendarIntegration.FormatTimedStart | calendar_integration.py:75-77 | a timed start is shown in the wall-clock time written in it, not converted to Tokyo time |
| CalendarIntegration.FormatAllDayStart | calendar_integration.py:78-80 | an all-day start is shown as its month and day |
| CalendarIntegration.MonthDay | calendar_integration.py:80 | `%m月%d日` is six characters long |
| CalendarIntegration.MonthDayReadsBack | calendar_integration.py:77-80 | the month and day read back from their zero-padded digits |
| CalendarIntegration.TomorrowWindow | calendar_integration.py:89-91 | there is no window exactly where adding a day overflows; otherwise a `timeMin`/`timeMax` pair |
| CalendarIntegration.TomorrowWindowShape | calendar_integration.py:89-96 | the window bounds read back as the first and last microsecond, in UTC, of the day after now |
| CalendarIntegration.CalendarBot.CheckTomorrowEvents | calendar_integration.py:86-107 | all items of the window; `[]` on an `HttpError`; another exception or the overflow passes to the caller |
| CalendarIntegration.TomorrowNotification | calendar_integration.py:113-121 | `None` exactly when there are no events |
| CalendarIntegration.TomorrowNotificationLines | calendar_integration.py:116-121 | every event has its `明日は{summary}の日です` line, and the text ends with the last line |
| CalendarIntegration.CalendarBot.FormatTomorrowNotification | calendar_integration.py:109-121 | the loop's text equals the joined lines of tomorrow's events, and errors pass through |
| CalendarIntegration.CalendarBot.constructor | calendar_integration.py:15-17 | a new bot holds the authenticated service |
| CalendarIntegration.CalendarBot.Authenticate | calendar_integration.py:19-37 | the outcome of the OAuth flow becomes the bot's service |
| CalendarIntegration.Registry.GetCalendarBot | calendar_integration.py:134-142 | the stored instance is returned unchanged; without one, a fresh bot is stored and returned, or authentication's exception passes with nothing stored |
| NotificationScript.SendNotification | notification_script.py:11-127 | the run stops exactly when the token or the channel ID is unset or empty, or the ID is not an integer; otherwise it has the parsed ID and the status, and posts the one chosen message when the channel is found |
| NotificationScript.BuildEventList | notification_script.py:91-99 | the loop over the events builds exactly the listing message, one line per event in order |
| NotificationScript.StatusForError | notification_script.py:60-65 | token refresh exactly when the error text contains `invalid_grant` or `expired`, connection error otherwise |
| NotificationScript.CalendarStatus | notification_script.py:41-65 | normal exactly when `get_tomorrow_events` returns, and never "unavailable" once the fetch was tried |
| NotificationScript.EventsOf | notification_script.py:41-60 | an escaped exception leaves no events |
| NotificationScript.NoticeListsEvents | notification_script.py:89-99 | with events, the message opens with the header and has every event's line, whatever the status |
| NotificationScript.NoticeSaysNoEvents | notification_script.py:104-111 | with no events and a normal status, the message says there are none |
| NotificationScript.NoticeReportsStatus | notification_script.py:115-124 | with no events after an error, the message shows the status and never claims there are no events |
| NotificationScript.StampLacksMei | notification_script.py:99 | the timestamp never contains the character that opens the "no events" line |
| NotificationScript.StatusTextShowsStatus | notification_script.py:117-124 | the status report contains the status |
| NotificationScript.NoticesDistinct | notification_script.py:88-127 | the three messages differ from one another at any times |
| NotificationScript.MissingKeyReadsAsNoEvents | notification_script.py:45-58 | a missing service-account key gives a normal status and the "no events" message |
| Text.ParseIntRoundTrip | notification_script.py:22 | `int(str(n)) == n` for every integer |
| Text.Split | discordbot.py:51 | `str.split()` gives whitespace-free, non-empty parts |
| Text.SplitJoin | discordbot.py:51 | splitting words joined by single spaces gives the words back |
| Text.JoinContains | notification_script.py:97 | every part is contained in the joined text |
| Text.DigitsRoundTrip | notification_script.py:99 | zero-padded digits read back as the number |
| DiscordBot.RouteOf | discordbot.py:42-95 | the bot's own messages are ignored; otherwise `!カレンダー` first, then `!明日`, then a mention; each route holds exactly under its condition |
| DiscordBot.CommandOf | discordbot.py:53-63 | the command asks for an event by type exactly when there are two parts, and the type is the second part |
| DiscordBot.CommandOfWords | discordbot.py:51-63 | the command alone asks for the next event, one word for that type, more words for the usage text |
| DiscordBot.CalendarCommandHasParts | discordbot.py:48-51 | a calendar command always splits into at least one part |
| DiscordBot.CalendarResponse | discordbot.py:53-63 | three or more parts give the usage text |
| DiscordBot.ReplyTo | discordbot.py:65-70 | an exception is sent with the error prefix; a non-empty response is sent unchanged, and `None` or an empty response is not sent |
| DiscordBot.TomorrowReply | discordbot.py:77-83 | the `!明日` answer is never empty |
| DiscordBot.TomorrowReplyListsEvents | discordbot.py:77-81 | with events, the answer opens with the header and has every event's line |
| DiscordBot.BuildTomorrowReply | discordbot.py:78-81 | the loop's text equals the header and joined lines |
| DiscordBot.CalendarCommandReply | discordbot.py:48-70 | on a first command, a failed authentication leaves no bot and sends its error with the error prefix, and a granted one stores a fresh bot holding the granted service; otherwise the reply is the response to the command chosen by the number of words, and an existing bot is kept |
| DiscordBot.OnMessage | discordbot.py:41-95 | the reply of each route; only a calendar command can create the shared `CalendarBot`, and a first one stores a fresh bot holding the granted service; a failed authentication leaves no bot and is reported with the error prefix |
| DiscordBot.OnReady | discordbot.py:13-39 | with a configured, reachable channel: tomorrow's summary if there are events, then the start-up notice; otherwise nothing |

## Left out

- The Google client libraries, the OAuth flow and its `token.json` and `credentials.json` files, and the parsing of the service-account key are left out. Each becomes the value it ends with (`Setup`, `AuthOutcome`, the API function).
- The Discord transport is left out: the client, intents, `get_channel`/`fetch_channel`, `send`, `start`, `close` and `asyncio`. Reaching the channel is a boolean. A failed `send` and its `except` branches are not modelled.
- `random.choice` over the answer list is left to the caller: the reply is `SendOneOf(Answers)`.
- Logging and `print` are left out, and so are exceptions that `print` itself could raise.
- `config.py` is not part of this model: `NOTIFY_CHANNEL_ID` is an optional integer and `DISCORD_TOKEN` is not used.
- `google_calendar.get_next_event` (lines 128-130) only calls `get_tomorrow_events`; it has no member of its own.
- The clock is left out: `now`, `utcnow()` and today's Tokyo date are parameters. The fallback clock used when pytz is missing (notification_script.py lines 33-36) gives one such value.
- The host's local zone is a fixed UTC offset (`hostOffset`). Daylight saving in a host zone is not modelled.
- IsoFormat.TokyoDate: Asia/Tokyo is the fixed +09:00 offset. The zone's local mean time before 1888 and its daylight saving of 1948-1951 are not modelled.
- IsoFormat.UtcMinute: counts whole minutes, because every offset in the model is a whole number of minutes. Seconds do not move a date.
- IsoFormat.ParseIsoDateTime: covers `YYYY-MM-DD[sep HH[:MM[:SS[.fff|.ffffff]]][±HH:MM]]`. Offsets with seconds and the further forms accepted since Python 3.11 (basic format, week dates, a `Z` suffix) are not modelled.
- IsoFormat.ParseIsoDateTime: the C parser of CPython 3.7-3.10 also accepts looser time shapes that this model rejects, such as `HH.fff`, `HH:MM.ffffff`, `HH:MM:SS:fff` and a trailing `HH:` before an offset (`12:+09:00`). The calendar API does not send these shapes, so they are not modelled.
- IsoFormat.StrptimeDate: `_strptime`'s `%Y` (`\d\d\d\d`) and the second digit of its `%d` (`[1-2]\d`) match any Unicode decimal digit, so `strptime("２０２４-03-01", '%Y-%m-%d')` succeeds. `%m` uses ASCII classes only. The model accepts ASCII digits only.
- Text.ParseInt: accepts ASCII digits only. It strips Python's whitespace set, as `int()` does. Other Unicode digits are not modelled.
- Error messages are kept as texts without `repr` escaping (`InvalidIsoformat`, and `'start'` for the missing key). For range errors the texts also differ, as the next line says.
- CalendarIntegration.StartText: reports every `fromisoformat` failure as `Invalid isoformat string: '…'`. For a well-shaped string with an out-of-range field, Python instead raises the `datetime`, `time` or `timezone` constructor's own message. Examples are `day is out of range for month` for `2024-02-30`, `hour must be in 0..23` for hour 25, and the offset-range message for `+24:00`. The model does not reproduce these texts, which reach the user through the error reply at discordbot.py:69-70.
- `%Y` for years below 1000 is written without padding, as glibc does. Platforms that pad are not modelled.
- The calendar API's own selection (overlap with the window, `maxResults`, `orderBy`, `showDeleted`, `singleEvents`) is the API function's business. `get_tomorrow_events`'s date filter is modelled in full.
- GoogleCalendar.GetTomorrowEvents: sends the corrected Tokyo-midnight window, not the local-mean-time window the code builds (see Findings). `QueryWindowAsWritten` models the code as written.

## Findings

| source | as written | input that shows it | evidently intended | confidence | as-written member | corrected member |
|---|---|---|---|---|---|---|
| google_calendar.py:47-53 | `.replace(tzinfo=jst)` with a pytz zone attaches Tokyo's local mean time (+09:19), so the window runs from 14:41 UTC to 14:41 UTC | an event at 23:50 +09:00 tomorrow: its Tokyo date is tomorrow, but it starts 9 minutes after `timeMax`, so the API does not list it | a window from tomorrow's Tokyo midnight (+09:00, 15:00 UTC) to the next, as `jst.localize(...)` would give | not executed | GoogleCalendar.AsWrittenWindowMissesLateEvents | GoogleCalendar.QueryWindowIsTomorrow |
