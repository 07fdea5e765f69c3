/**
 * discordbot.py: the chat bot's event handlers. `on_message` answers the
 * `!カレンダー` and `!明日` commands and mentions; `on_ready` posts tomorrow's
 * events and a start-up notice to the configured channel.
 */
module DiscordBot {
  import opened Wrappers
  import opened Text
  import opened IsoFormat
  import opened GoogleCalendar
  import opened CalendarIntegration

  /** An incoming message: whether the bot itself wrote it, its text, and whether it mentions the bot. */
  datatype Message = Message(fromBot: bool, content: string, mentionsBot: bool)

  /** What the handler sends back: nothing, one text, or one text drawn at random from a list. */
  datatype Reply = NoReply | Send(text: string) | SendOneOf(choices: seq<string>)

  const CalendarPrefix := "!カレンダー"
  const TomorrowPrefix := "!明日"
  const UsageText := "使用方法: !カレンダー [家庭/プラスチック/紙]"
  const ErrorPrefix := "エラーが発生しました: "
  const TomorrowHeader := "**明日の予定**\n"
  const NoEventsText := "明日の予定はありません。"
  const StartupText := "Botが起動しました！"
  const Answers := ["さすがですね！", "知らなかったです！", "すごいですね！", "センスが違いますね！", "そうなんですか？"]

  // ---------------------------------------------------------------------------
  // Dispatch

  /** Which branch of `on_message` a message takes. */
  datatype Route = Ignored | CalendarCommand | TomorrowCommand | Mentioned | Unhandled

  /** The bot's own messages are ignored; then `!カレンダー`, then `!明日`, then a mention. */
  function RouteOf(m: Message): (r: Route)
    ensures r == Ignored <==> m.fromBot
    ensures r == CalendarCommand <==> !m.fromBot && StartsWith(m.content, CalendarPrefix)
    ensures r == TomorrowCommand <==>
              !m.fromBot && !StartsWith(m.content, CalendarPrefix) && StartsWith(m.content, TomorrowPrefix)
    ensures r == Mentioned <==>
              && !m.fromBot && !StartsWith(m.content, CalendarPrefix) && !StartsWith(m.content, TomorrowPrefix)
              && m.mentionsBot
  {
    if m.fromBot then Ignored
    else if StartsWith(m.content, CalendarPrefix) then CalendarCommand
    else if StartsWith(m.content, TomorrowPrefix) then TomorrowCommand
    else if m.mentionsBot then Mentioned
    else Unhandled
  }

  /** The form of a calendar command, by its number of whitespace-separated parts. */
  datatype Command = NextCommand | ByTypeCommand(eventType: string) | UsageCommand

  function CommandOf(parts: seq<string>): (c: Command)
    ensures c.ByTypeCommand? <==> |parts| == 2
    ensures c.ByTypeCommand? ==> c.eventType == parts[1]
  {
    if |parts| == 1 then NextCommand
    else if |parts| == 2 then ByTypeCommand(parts[1])
    else UsageCommand
  }

  /** A message that starts with the command word always splits into at least that one part. */
  lemma CalendarCommandHasParts(content: string)
    requires StartsWith(content, CalendarPrefix)
    ensures |Split(content)| >= 1
  {
    assert content[0] == CalendarPrefix[0];
    SplitNonEmpty(content);
  }

  /**
   * The command word followed by words separated by single spaces: no word asks
   * for the next event, one word for an event of that type, more for the usage.
   */
  lemma CommandOfWords(words: seq<string>)
    requires forall i | 0 <= i < |words| :: IsWord(words[i])
    ensures var c := CommandOf(Split(Join([CalendarPrefix] + words, " ")));
            && (|words| == 0 ==> c == NextCommand)
            && (|words| == 1 ==> c == ByTypeCommand(words[0]))
            && (|words| >= 2 ==> c == UsageCommand)
  {
    var all := [CalendarPrefix] + words;
    AllWords(words);
    SplitJoin(all);
    assert |all| == |words| + 1;
    if |words| == 1 {
      assert all[1] == words[0];
    }
  }

  lemma AllWords(words: seq<string>)
    requires forall i | 0 <= i < |words| :: IsWord(words[i])
    ensures forall i | 0 <= i < |[CalendarPrefix] + words| :: IsWord(([CalendarPrefix] + words)[i])
  {
    var all := [CalendarPrefix] + words;
    assert IsWord(CalendarPrefix);
    forall i | 0 <= i < |all| ensures IsWord(all[i]) {
      if i > 0 {
        assert all[i] == words[i - 1];
      }
    }
  }

  // ---------------------------------------------------------------------------
  // Replies

  /** The `!カレンダー` response before sending: an event message, nothing, the usage text, or an exception. */
  function CalendarResponse(bot: CalendarBot, command: Command, nowUtc: DateTime): (r: Result<Option<string>, string>)
    reads bot
    requires bot.Valid() && ValidDateTime(nowUtc)
    ensures command.UsageCommand? ==> r == Ok(Some(UsageText))
  {
    match command
    case NextCommand =>
      (match bot.NextEvent(nowUtc, None)
       case Err(message) => Err(message)
       case Ok(event) => CalendarIntegration.FormatEventMessage(event))
    case ByTypeCommand(eventType) =>
      (match bot.EventByType(nowUtc, eventType)
       case Err(message) => Err(message)
       case Ok(event) => CalendarIntegration.FormatEventMessage(event))
    case UsageCommand => Ok(Some(UsageText))
  }

  /** `if response: send(response)`, and the error reply for an exception. */
  function ReplyTo(response: Result<Option<string>, string>): (reply: Reply)
    ensures response.Err? ==> reply == Send(ErrorPrefix + response.error)
    ensures response == Ok(None) ==> reply == NoReply
    ensures response.Ok? && response.value.Some? ==>
              reply == (if response.value.value != "" then Send(response.value.value) else NoReply)
  {
    match response
    case Err(message) => Send(ErrorPrefix + message)
    case Ok(text) => if text.Some? && text.value != "" then Send(text.value) else NoReply
  }

  /** `明日は{summary}の予定があります`. */
  function TomorrowLine(e: TomorrowEvent): string {
    "明日は" + e.summary + "の予定があります"
  }

  /** The `!明日` answer: the header and one line per event, or the "no events" text. */
  function TomorrowReply(events: seq<TomorrowEvent>): (text: string)
    ensures text != ""
  {
    if events != [] then TomorrowHeader + Join(MapLines(events, TomorrowLine), "\n") else NoEventsText
  }

  /** With events, the answer opens with the header and has every event's line. */
  lemma TomorrowReplyListsEvents(events: seq<TomorrowEvent>, i: nat)
    requires i < |events|
    ensures StartsWith(TomorrowReply(events), TomorrowHeader)
    ensures Contains(TomorrowReply(events), TomorrowLine(events[i]))
  {
    var body := Join(MapLines(events, TomorrowLine), "\n");
    JoinContains(MapLines(events, TomorrowLine), "\n", i);
    ContainsWiden(TomorrowHeader, body, "", TomorrowLine(events[i]));
    assert TomorrowHeader + body + "" == TomorrowReply(events);
  }

  /** The loop that builds the `!明日` answer and the `on_ready` summary. */
  method BuildTomorrowReply(events: seq<TomorrowEvent>) returns (text: string)
    requires events != []
    ensures text == TomorrowReply(events)
  {
    var responses: seq<string> := [];
    for i := 0 to |events|
      invariant responses == MapLines(events[..i], TomorrowLine)
    {
      assert events[..i + 1][..i] == events[..i];
      responses := responses + [TomorrowLine(events[i])];
    }
    assert events[..|events|] == events;
    text := TomorrowHeader + Join(responses, "\n");
  }

  // ---------------------------------------------------------------------------
  // on_message

  /**
   * The `!カレンダー` branch: get the shared bot, pick the request by the number
   * of parts, and send the response when there is one, or the exception.
   */
  method CalendarCommandReply(registry: Registry, content: string, auth: AuthOutcome, nowUtc: DateTime)
    returns (reply: Reply)
    requires registry.Valid() && ValidDateTime(nowUtc)
    modifies registry
    ensures registry.Valid()
    ensures registry.calendarBot == null ==> auth.AuthFailed? && reply == Send(ErrorPrefix + auth.message)
    ensures registry.calendarBot != null ==>
              reply == ReplyTo(CalendarResponse(registry.calendarBot, CommandOf(Split(content)), nowUtc))
    ensures old(registry.calendarBot) != null ==> registry.calendarBot == old(registry.calendarBot)
    ensures old(registry.calendarBot) == null && auth.AuthFailed? ==> registry.calendarBot == null
    ensures old(registry.calendarBot) == null && auth.Granted? ==>
              && registry.calendarBot != null && fresh(registry.calendarBot)
              && registry.calendarBot.service == Some(auth.api)
  {
    var got := registry.GetCalendarBot(auth);
    if got.Err? {
      return Send(ErrorPrefix + got.error);
    }
    var bot := got.value;
    var parts := Split(content);
    var response: Result<Option<string>, string>;
    if |parts| == 1 {
      var event := bot.NextEvent(nowUtc, None);
      response := if event.Err? then Err(event.error) else CalendarIntegration.FormatEventMessage(event.value);
    } else if |parts| == 2 {
      var event := bot.EventByType(nowUtc, parts[1]);
      response := if event.Err? then Err(event.error) else CalendarIntegration.FormatEventMessage(event.value);
    } else {
      response := Ok(Some(UsageText));
    }
    match response {
      case Err(error) =>
        return Send(ErrorPrefix + error);
      case Ok(text) =>
        if text.Some? && text.value != "" {
          return Send(text.value);
        }
        return NoReply;
    }
  }

  /**
   * `on_message`. `registry` holds the module-wide `CalendarBot`, which a
   * calendar command creates on first use; `auth` is how authenticating would
   * end, `nowUtc` the naive `utcnow()` and `env` what `get_tomorrow_events` reads.
   */
  method OnMessage(registry: Registry, message: Message, auth: AuthOutcome, nowUtc: DateTime, env: Environment)
    returns (reply: Reply)
    requires registry.Valid() && ValidDateTime(nowUtc) && ValidEnvironment(env)
    modifies registry
    ensures registry.Valid()
    ensures RouteOf(message) != CalendarCommand ==> registry.calendarBot == old(registry.calendarBot)
    ensures RouteOf(message) == Ignored || RouteOf(message) == Unhandled ==> reply == NoReply
    ensures RouteOf(message) == Mentioned ==> reply == SendOneOf(Answers)
    ensures RouteOf(message) == TomorrowCommand ==> reply == Send(TomorrowReply(TomorrowEvents(env)))
    ensures RouteOf(message) == CalendarCommand && registry.calendarBot == null ==>
              auth.AuthFailed? && reply == Send(ErrorPrefix + auth.message)
    ensures RouteOf(message) == CalendarCommand && registry.calendarBot != null ==>
              reply == ReplyTo(CalendarResponse(registry.calendarBot, CommandOf(Split(message.content)), nowUtc))
    ensures RouteOf(message) == CalendarCommand && old(registry.calendarBot) == null && auth.AuthFailed? ==>
              registry.calendarBot == null && reply == Send(ErrorPrefix + auth.message)
    ensures RouteOf(message) == CalendarCommand && old(registry.calendarBot) == null && auth.Granted? ==>
              && registry.calendarBot != null && fresh(registry.calendarBot)
              && registry.calendarBot.service == Some(auth.api)
  {
    if message.fromBot {
      return NoReply;
    }
    if StartsWith(message.content, CalendarPrefix) {
      reply := CalendarCommandReply(registry, message.content, auth, nowUtc);
      return;
    } else if StartsWith(message.content, TomorrowPrefix) {
      var events := GetTomorrowEvents(env);
      if events != [] {
        var text := BuildTomorrowReply(events);
        return Send(text);
      }
      return Send(NoEventsText);
    } else if message.mentionsBot {
      return SendOneOf(Answers);
    }
    return NoReply;
  }

  // ---------------------------------------------------------------------------
  // on_ready

  /** `config.NOTIFY_CHANNEL_ID` is set and truthy. */
  predicate Configured(channelId: Option<int>) {
    channelId.Some? && channelId.value != 0
  }

  /**
   * `on_ready`: the messages posted to the configured channel, which is reachable
   * when `channelFound`; tomorrow's summary only when there are events, the
   * start-up notice whenever the channel is configured and reachable.
   */
  method OnReady(env: Environment, channelId: Option<int>, channelFound: bool) returns (sent: seq<string>)
    requires ValidEnvironment(env)
    ensures Configured(channelId) && channelFound && TomorrowEvents(env) != [] ==>
              sent == [TomorrowReply(TomorrowEvents(env)), StartupText]
    ensures Configured(channelId) && channelFound && TomorrowEvents(env) == [] ==> sent == [StartupText]
    ensures !(Configured(channelId) && channelFound) ==> sent == []
  {
    sent := [];
    var tomorrowEvents := GetTomorrowEvents(env);
    if tomorrowEvents != [] && Configured(channelId) {
      if channelFound {
        var text := BuildTomorrowReply(tomorrowEvents);
        sent := sent + [text];
      }
    }
    if Configured(channelId) {
      if channelFound {
        sent := sent + [StartupText];
      }
    }
  }
}
