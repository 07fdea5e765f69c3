/**
 * The date and time strings the bot reads and writes: Python's
 * `datetime.fromisoformat` for the RFC 3339 section 5.6 date-time shapes the
 * calendar API sends, `datetime.isoformat()`, `datetime.strptime(s, '%Y-%m-%d')`,
 * `s.replace('Z', '+00:00')`, and conversion of an instant to its calendar date
 * in Asia/Tokyo (a fixed UTC+09:00).
 */
module IsoFormat {
  import opened Wrappers
  import opened Text
  import opened Dates

  const MinutesPerDay := 1440

  /** Asia/Tokyo's offset east of UTC, in minutes: +09:00 (no daylight saving since 1951). */
  const TokyoOffset := 540

  /**
   * A Python `datetime`. `offset` is `utcoffset()` in minutes east of UTC for an
   * aware value and `None` for a naive one.
   */
  datatype DateTime = DateTime(date: Date, hour: int, minute: int, second: int, microsecond: int,
                               offset: Option<int>)

  /** What `timezone(timedelta(...))` accepts: strictly less than a day either way. */
  predicate ValidOffset(o: int) {
    -MinutesPerDay < o < MinutesPerDay
  }

  /** The values the `datetime` constructor accepts without raising `ValueError`. */
  predicate ValidDateTime(t: DateTime) {
    && ValidDate(t.date)
    && 0 <= t.hour < 24 && 0 <= t.minute < 60 && 0 <= t.second < 60
    && 0 <= t.microsecond < 1000000
    && (t.offset.Some? ==> ValidOffset(t.offset.value))
  }

  // ---------------------------------------------------------------------------
  // isoformat()

  /** `date.isoformat()`: `YYYY-MM-DD`, zero-padded. */
  function RenderDate(d: Date): (s: string)
    requires ValidDate(d)
    ensures |s| == 10
  {
    Digits(d.year, 4) + "-" + Digits(d.month, 2) + "-" + Digits(d.day, 2)
  }

  /** The `HH:MM:SS[.ffffff]` part of `isoformat()`: microseconds only when non-zero. */
  function RenderClock(t: DateTime): string
    requires ValidDateTime(t)
  {
    Digits(t.hour, 2) + ":" + Digits(t.minute, 2) + ":" + Digits(t.second, 2)
    + (if t.microsecond != 0 then "." + Digits(t.microsecond, 6) else "")
  }

  /** The `+HH:MM` / `-HH:MM` suffix `isoformat()` writes for an aware value. */
  function RenderOffset(o: int): (s: string)
    requires ValidOffset(o)
    ensures |s| == 6
  {
    var m := if o < 0 then -o else o;
    (if o < 0 then "-" else "+") + Digits(m / 60, 2) + ":" + Digits(m % 60, 2)
  }

  /** `datetime.isoformat()` with the default `'T'` separator. */
  function Render(t: DateTime): string
    requires ValidDateTime(t)
  {
    RenderDate(t.date) + "T" + RenderClock(t)
    + (if t.offset.Some? then RenderOffset(t.offset.value) else "")
  }

  // ---------------------------------------------------------------------------
  // fromisoformat()

  /** The `YYYY-MM-DD` head of a `fromisoformat` string; `None` where Python raises `ValueError`. */
  function ParseIsoDate(s: string): (r: Option<Date>)
    ensures r.Some? ==> ValidDate(r.value)
  {
    if |s| == 10 && AllDigits(s[0..4]) && s[4] == '-' && AllDigits(s[5..7]) && s[7] == '-'
       && AllDigits(s[8..10])
    then
      var d := Date(DigitsValue(s[0..4]), DigitsValue(s[5..7]), DigitsValue(s[8..10]));
      if ValidDate(d) then Some(d) else None
    else None
  }

  /** A time of day as written, before the `datetime` constructor checks its ranges. */
  datatype Clock = Clock(hour: int, minute: int, second: int, microsecond: int)

  /** `HH`, `HH:MM`, `HH:MM:SS`, `HH:MM:SS.fff` or `HH:MM:SS.ffffff`. */
  function ParseClock(s: string): Option<Clock> {
    if |s| != 2 && |s| != 5 && |s| != 8 && |s| != 12 && |s| != 15 then None
    else if !AllDigits(s[0..2]) then None
    else if |s| >= 5 && !(s[2] == ':' && AllDigits(s[3..5])) then None
    else if |s| >= 8 && !(s[5] == ':' && AllDigits(s[6..8])) then None
    else if |s| >= 12 && !(s[8] == '.' && AllDigits(s[9..])) then None
    else
      Some(Clock(DigitsValue(s[0..2]),
                 if |s| >= 5 then DigitsValue(s[3..5]) else 0,
                 if |s| >= 8 then DigitsValue(s[6..8]) else 0,
                 if |s| == 12 then DigitsValue(s[9..]) * 1000
                 else if |s| == 15 then DigitsValue(s[9..]) else 0))
  }

  /** `+HH:MM` or `-HH:MM`; the minutes are not range-checked, only the total is. */
  function ParseOffset(s: string): (r: Option<int>)
    ensures r.Some? ==> ValidOffset(r.value)
  {
    if |s| == 6 && (s[0] == '+' || s[0] == '-') && AllDigits(s[1..3]) && s[3] == ':'
       && AllDigits(s[4..6])
    then
      var m := DigitsValue(s[1..3]) * 60 + DigitsValue(s[4..6]);
      if m < MinutesPerDay then Some(if s[0] == '-' then 0 - m else m) else None
    else None
  }

  predicate IsSign(c: char) {
    c == '+' || c == '-'
  }

  /** Where the UTC offset starts: the first sign character, or the end. */
  function SignIndex(s: string): (i: nat)
    ensures i <= |s| && (i < |s| ==> IsSign(s[i]))
    ensures forall j :: 0 <= j < i ==> !IsSign(s[j])
  {
    if s == [] || IsSign(s[0]) then 0 else 1 + SignIndex(s[1..])
  }

  /**
   * `datetime.fromisoformat(s)`: `YYYY-MM-DD`, optionally followed by any one
   * separator character, a time of day and a `±HH:MM` offset. `None` stands for
   * the `ValueError` it raises.
   */
  function ParseIsoDateTime(s: string): (r: Option<DateTime>)
    ensures r.Some? ==> ValidDateTime(r.value)
  {
    if |s| < 10 then None
    else
      match ParseIsoDate(s[..10])
      case None => None
      case Some(d) =>
        if |s| == 10 then Some(DateTime(d, 0, 0, 0, 0, None))
        else ParseTimeOfDay(d, s[11..])
  }

  /** The part after the separator: a time of day up to the first sign, then the offset if there is one. */
  function ParseTimeOfDay(d: Date, rest: string): (r: Option<DateTime>)
    ensures r.Some? ==> ValidDateTime(r.value) && r.value.date == d
  {
    var i := SignIndex(rest);
    match ParseClock(rest[..i])
    case None => None
    case Some(c) =>
      var offset := if i == |rest| then Some(None) else
        match ParseOffset(rest[i..])
        case None => None
        case Some(o) => Some(Some(o));
      if offset.None? then None
      else
        var t := DateTime(d, c.hour, c.minute, c.second, c.microsecond, offset.value);
        if ValidDateTime(t) then Some(t) else None
  }

  // ---------------------------------------------------------------------------
  // Round trip: fromisoformat(isoformat(t)) == t

  lemma {:induction false} DigitsAreNotSigns(n: nat, w: nat)
    ensures forall j :: 0 <= j < |Digits(n, w)| ==> !IsSign(Digits(n, w)[j])
  {
  }

  lemma ParseIsoDateRender(d: Date)
    requires ValidDate(d)
    ensures ParseIsoDate(RenderDate(d)) == Some(d)
  {
    var s := RenderDate(d);
    assert s[0..4] == Digits(d.year, 4);
    assert s[5..7] == Digits(d.month, 2);
    assert s[8..10] == Digits(d.day, 2);
    DigitsRoundTrip(d.year, 4);
    DigitsRoundTrip(d.month, 2);
    DigitsRoundTrip(d.day, 2);
  }

  lemma ParseClockRender(t: DateTime)
    requires ValidDateTime(t)
    ensures ParseClock(RenderClock(t)) == Some(Clock(t.hour, t.minute, t.second, t.microsecond))
  {
    var s := RenderClock(t);
    assert s[0..2] == Digits(t.hour, 2);
    assert s[3..5] == Digits(t.minute, 2);
    assert s[6..8] == Digits(t.second, 2);
    DigitsRoundTrip(t.hour, 2);
    DigitsRoundTrip(t.minute, 2);
    DigitsRoundTrip(t.second, 2);
    if t.microsecond != 0 {
      assert s[9..] == Digits(t.microsecond, 6);
      DigitsRoundTrip(t.microsecond, 6);
    }
  }

  /** A sign, two hour digits, a colon and two minute digits read back as minutes. */
  lemma ParseOffsetOfParts(sign: string, q: nat, r: nat)
    requires sign == "-" || sign == "+"
    requires q < 24 && r < 60
    ensures ParseOffset(sign + Digits(q, 2) + ":" + Digits(r, 2)).Some?
    ensures ParseOffset(sign + Digits(q, 2) + ":" + Digits(r, 2)).value
            == (if sign == "-" then 0 - (q * 60 + r) else q * 60 + r)
  {
    var s := sign + Digits(q, 2) + ":" + Digits(r, 2);
    assert s[1..3] == Digits(q, 2);
    assert s[4..6] == Digits(r, 2);
    DigitsRoundTrip(q, 2);
    DigitsRoundTrip(r, 2);
    assert s[0] == sign[0] && s[3] == ':';
  }

  lemma ParseOffsetRender(o: int)
    requires ValidOffset(o)
    ensures ParseOffset(RenderOffset(o)) == Some(o)
  {
    var m := if o < 0 then -o else o;
    var q, r := m / 60, m % 60;
    assert m == q * 60 + r && q < 24 && r < 60;
    ParseOffsetOfParts(if o < 0 then "-" else "+", q, r);
  }

  lemma {:induction false} SignIndexOfConcat(a: string, b: string)
    requires forall j :: 0 <= j < |a| ==> !IsSign(a[j])
    requires b == [] || IsSign(b[0])
    ensures SignIndex(a + b) == |a|
    decreases |a|
  {
    if a != [] {
      assert (a + b)[1..] == a[1..] + b;
      SignIndexOfConcat(a[1..], b);
    }
  }

  lemma ClockHasNoSign(t: DateTime)
    requires ValidDateTime(t)
    ensures forall j :: 0 <= j < |RenderClock(t)| ==> !IsSign(RenderClock(t)[j])
  {
    DigitsAreNotSigns(t.hour, 2);
    DigitsAreNotSigns(t.minute, 2);
    DigitsAreNotSigns(t.second, 2);
    DigitsAreNotSigns(t.microsecond, 6);
  }

  /** The rendered time of day and offset read back as `t`'s. */
  lemma ParseTimeOfDayRender(t: DateTime)
    requires ValidDateTime(t)
    ensures var tail := if t.offset.Some? then RenderOffset(t.offset.value) else "";
            ParseTimeOfDay(t.date, RenderClock(t) + tail) == Some(t)
  {
    var clock := RenderClock(t);
    var tail := if t.offset.Some? then RenderOffset(t.offset.value) else "";
    var rest := clock + tail;
    ClockHasNoSign(t);
    SignIndexOfConcat(clock, tail);
    assert rest[..|clock|] == clock;
    ParseClockRender(t);
    if t.offset.Some? {
      assert rest[|clock|..] == tail;
      ParseOffsetRender(t.offset.value);
    }
  }

  /** `datetime.fromisoformat(t.isoformat()) == t` for every valid `t`, naive or aware. */
  lemma ParseRender(t: DateTime)
    requires ValidDateTime(t)
    ensures ParseIsoDateTime(Render(t)) == Some(t)
  {
    var s := Render(t);
    var tail := if t.offset.Some? then RenderOffset(t.offset.value) else "";
    assert s == RenderDate(t.date) + "T" + (RenderClock(t) + tail);
    assert s[..10] == RenderDate(t.date);
    assert s[11..] == RenderClock(t) + tail;
    ParseIsoDateRender(t.date);
    ParseTimeOfDayRender(t);
  }

  /** A bare `YYYY-MM-DD` reads as a naive midnight. */
  lemma ParseDateOnly(d: Date)
    requires ValidDate(d)
    ensures ParseIsoDateTime(RenderDate(d)) == Some(DateTime(d, 0, 0, 0, 0, None))
  {
    ParseIsoDateRender(d);
    assert RenderDate(d)[..10] == RenderDate(d);
  }

  // ---------------------------------------------------------------------------
  // s.replace('Z', '+00:00')

  /** Python's `s.replace('Z', '+00:00')`: every `Z`, wherever it stands, becomes `+00:00`. */
  function ReplaceZ(s: string): string {
    if s == [] then []
    else (if s[0] == 'Z' then "+00:00" else [s[0]]) + ReplaceZ(s[1..])
  }

  lemma {:induction false} ReplaceZAppend(a: string, b: string)
    ensures ReplaceZ(a + b) == ReplaceZ(a) + ReplaceZ(b)
    decreases |a|
  {
    if a != [] {
      var head := if a[0] == 'Z' then "+00:00" else [a[0]];
      assert (a + b)[0] == a[0];
      assert (a + b)[1..] == a[1..] + b;
      ReplaceZAppend(a[1..], b);
      assert ReplaceZ(a + b) == head + ReplaceZ(a[1..] + b);
      assert ReplaceZ(a + b) == head + (ReplaceZ(a[1..]) + ReplaceZ(b));
    } else {
      assert a + b == b;
    }
  }

  lemma {:induction false} ReplaceZWithoutZ(s: string)
    requires 'Z' !in s
    ensures ReplaceZ(s) == s
    decreases |s|
  {
    if s != [] {
      assert s[0] != 'Z';
      assert forall c :: c in s[1..] ==> c in s;
      ReplaceZWithoutZ(s[1..]);
    }
  }

  /** A trailing `Z` is read as `+00:00`, and nothing else in a `Z`-free string changes. */
  lemma TrailingZ(s: string)
    requires 'Z' !in s
    ensures ReplaceZ(s + "Z") == s + "+00:00"
  {
    ReplaceZAppend(s, "Z");
    ReplaceZWithoutZ(s);
  }

  lemma RenderHasNoZ(t: DateTime)
    requires ValidDateTime(t)
    ensures 'Z' !in Render(t)
  {
    assert 'Z' !in RenderDate(t.date);
    assert 'Z' !in RenderClock(t);
  }

  /**
   * The API's UTC form `...Z` parses, after the replacement, as the same wall
   * clock with offset zero.
   */
  lemma ParseZuluRender(t: DateTime)
    requires ValidDateTime(t) && t.offset.None?
    ensures ParseIsoDateTime(ReplaceZ(Render(t) + "Z")) == Some(t.(offset := Some(0)))
  {
    var u := t.(offset := Some(0));
    RenderHasNoZ(t);
    TrailingZ(Render(t));
    assert Render(u) == Render(t) + RenderOffset(0);
    assert RenderOffset(0) == "+00:00";
    ParseRender(u);
  }

  // ---------------------------------------------------------------------------
  // strptime(s, '%Y-%m-%d')

  /**
   * The `%m-` part: `1[0-2]|0[1-9]|[1-9]` tried in that order, then `-`. The
   * result holds the month and how many characters it used up with the `-`.
   */
  function StrptimeMonth(r: string): Option<(int, nat)> {
    if |r| >= 3 && ((r[0] == '1' && '0' <= r[1] <= '2') || (r[0] == '0' && '1' <= r[1] <= '9'))
       && r[2] == '-'
    then Some((DigitsValue(r[0..2]), 3))
    else if |r| >= 2 && '1' <= r[0] <= '9' && r[1] == '-' then Some((DigitsValue(r[0..1]), 2))
    else None
  }

  /**
   * The `%d` part, `3[01]|[12]\d|0[1-9]|[1-9]| [1-9]`: the first alternative that
   * matches is taken, and it must reach the end of the string (otherwise
   * "unconverted data remains").
   */
  function StrptimeDay(r: string): Option<int> {
    if |r| >= 2 && ((r[0] == '3' && (r[1] == '0' || r[1] == '1'))
                   || ((r[0] == '1' || r[0] == '2') && IsDigit(r[1]))
                   || (r[0] == '0' && '1' <= r[1] <= '9'))
    then (if |r| == 2 then Some(DigitsValue(r[0..2])) else None)
    else if |r| >= 1 && '1' <= r[0] <= '9' then (if |r| == 1 then Some(DigitsValue(r[0..1])) else None)
    else if |r| == 2 && r[0] == ' ' && '1' <= r[1] <= '9' then Some(DigitsValue(r[1..2]))
    else None
  }

  /**
   * `datetime.strptime(s, '%Y-%m-%d').date()`: four digits, `-`, a month of one or
   * two digits, `-`, a day of one or two digits (or a space and one digit).
   * `None` stands for the `ValueError` it raises, also for a date the calendar lacks.
   */
  function StrptimeDate(s: string): (r: Option<Date>)
    ensures r.Some? ==> ValidDate(r.value)
  {
    if |s| < 5 || !AllDigits(s[..4]) || s[4] != '-' then None
    else
      var rest := s[5..];
      match StrptimeMonth(rest)
      case None => None
      case Some(mn) =>
        match StrptimeDay(rest[mn.1..])
        case None => None
        case Some(day) =>
          var d := Date(DigitsValue(s[..4]), mn.0, day);
          if ValidDate(d) then Some(d) else None
  }

  /** Two digits followed by `-` read as a month, using up three characters. */
  lemma StrptimeMonthOfDigits(m: int, tail: string)
    requires 1 <= m <= 12
    ensures StrptimeMonth(Digits(m, 2) + "-" + tail) == Some((m, 3))
  {
    var r := Digits(m, 2) + "-" + tail;
    assert r[0..2] == Digits(m, 2);
    DigitsRoundTrip(m, 2);
    assert r[0] == DigitChar(m / 10) && r[1] == DigitChar(m % 10) && r[2] == '-';
  }

  /** Two digits of a day of the month read as that day. */
  lemma StrptimeDayOfDigits(d: int)
    requires 1 <= d <= 31
    ensures StrptimeDay(Digits(d, 2)) == Some(d)
  {
    var r := Digits(d, 2);
    assert r[0..2] == r;
    DigitsRoundTrip(d, 2);
    assert r[0] == DigitChar(d / 10) && r[1] == DigitChar(d % 10);
  }

  /** `strptime` reads back every date `isoformat()` writes. */
  lemma StrptimeRender(d: Date)
    requires ValidDate(d)
    ensures StrptimeDate(RenderDate(d)) == Some(d)
  {
    var s := RenderDate(d);
    var day := Digits(d.day, 2);
    assert s[..4] == Digits(d.year, 4);
    DigitsRoundTrip(d.year, 4);
    var rest := s[5..];
    assert rest == Digits(d.month, 2) + "-" + day;
    StrptimeMonthOfDigits(d.month, day);
    assert rest[3..] == day;
    StrptimeDayOfDigits(d.day);
  }

  /**
   * `strptime` also takes a one-digit month and day, which `fromisoformat`
   * refuses: the two parsers the program uses for a `date` value differ.
   */
  lemma StrptimeIsLenient()
    ensures StrptimeDate("2024-3-2") == Some(Date(2024, 3, 2))
    ensures ParseIsoDateTime("2024-3-2") == None
  {
    var s := "2024-3-2";
    assert s[..4] == "2024";
    assert "2024"[..3] == "202" && "202"[..2] == "20" && "20"[..1] == "2" && "2"[..0] == "";
    assert DigitsValue("2024") == 2024;
    assert StrptimeMonth("3-2") == Some((3, 2));
    assert StrptimeDay("2") == Some(2);
    assert s[5..] == "3-2";
    assert "3-2"[0..1] == "3";
    assert "3-2"[2..] == "2";
    assert "2"[0..1] == "2";
  }

  // ---------------------------------------------------------------------------
  // astimezone(Asia/Tokyo).date()

  /**
   * The instant an aware (or, with `offset`, naive) wall-clock time denotes,
   * counted in whole UTC minutes so that day `n` (`toordinal() == n`) starts
   * at minute `n * 1440`. Seconds are left out: offsets are whole minutes, so
   * they never move an instant across midnight.
   */
  function UtcMinute(t: DateTime, offset: int): int
    requires ValidDate(t.date)
  {
    Ordinal(t.date) * MinutesPerDay + t.hour * 60 + t.minute - offset
  }

  /** The minutes that lie on a date Python can represent. */
  predicate Representable(u: int) {
    1 <= u / MinutesPerDay <= MaxOrdinal
  }

  /**
   * `t.astimezone(tokyo).date()`. A naive `t` is read in the host's zone, whose
   * offset is `hostOffset`. Python first subtracts the offset (the UTC value) and
   * then adds +09:00; either step raises `OverflowError` when it leaves
   * 0001-01-01..9999-12-31, which is `None` here.
   */
  function TokyoDate(t: DateTime, hostOffset: int): (r: Option<Date>)
    requires ValidDateTime(t) && ValidOffset(hostOffset)
    ensures var u := UtcMinute(t, t.offset.GetOr(hostOffset));
            r.Some? <==> Representable(u) && Representable(u + TokyoOffset)
    ensures r.Some? ==> ValidDate(r.value)
    ensures r.Some? ==>
              Ordinal(r.value) == (UtcMinute(t, t.offset.GetOr(hostOffset)) + TokyoOffset) / MinutesPerDay
  {
    var wall := t.hour * 60 + t.minute - t.offset.GetOr(hostOffset);
    var u := UtcMinute(t, t.offset.GetOr(hostOffset));
    assert u / MinutesPerDay == Ordinal(t.date) + wall / MinutesPerDay;
    match AddDays(t.date, wall / MinutesPerDay)
    case None => None
    case Some(utcDate) =>
      var shift := (wall % MinutesPerDay + TokyoOffset) / MinutesPerDay;
      assert (u + TokyoOffset) / MinutesPerDay == Ordinal(utcDate) + shift;
      AddDays(utcDate, shift)
  }

  /** The Tokyo day numbered `n` (from 0001-01-02 on) in UTC minutes, by arithmetic alone. */
  lemma TokyoDayWindow(u: int, n: int)
    requires 2 <= n <= MaxOrdinal
    ensures n * MinutesPerDay - TokyoOffset <= u < n * MinutesPerDay - TokyoOffset + MinutesPerDay
            <==> Representable(u) && Representable(u + TokyoOffset) && (u + TokyoOffset) / MinutesPerDay == n
  {
  }

  /**
   * An instant lies on Tokyo date `d` exactly when it falls in `d`'s Tokyo day.
   * 0001-01-01 is left out: its Tokyo day begins before the first UTC minute
   * Python can represent.
   */
  lemma TokyoDateIff(t: DateTime, hostOffset: int, d: Date)
    requires ValidDateTime(t) && ValidOffset(hostOffset) && ValidDate(d) && d != FirstDate
    ensures var u := UtcMinute(t, t.offset.GetOr(hostOffset));
            TokyoDate(t, hostOffset) == Some(d)
            <==> Ordinal(d) * MinutesPerDay - TokyoOffset <= u < Ordinal(d) * MinutesPerDay - TokyoOffset + MinutesPerDay
  {
    var u := UtcMinute(t, t.offset.GetOr(hostOffset));
    var r := TokyoDate(t, hostOffset);
    OrdinalRange(d);
    if Ordinal(d) == 1 {
      assert Ordinal(FirstDate) == 1;
      OrdinalInjective(d, FirstDate);
    }
    TokyoDayWindow(u, Ordinal(d));
    if r.Some? && r.value != d && Ordinal(r.value) == Ordinal(d) {
      OrdinalInjective(r.value, d);
    }
  }

  /** The example `2024-03-01T23:30:00Z`: 23:30 UTC is 08:30 the next morning in Tokyo. */
  lemma LateUtcEveningIsNextTokyoDay(hostOffset: int)
    requires ValidOffset(hostOffset)
    ensures TokyoDate(DateTime(Date(2024, 3, 1), 23, 30, 0, 0, Some(0)), hostOffset) == Some(Date(2024, 3, 2))
  {
    var d := Date(2024, 3, 1);
    NextDayOrdinal(d);
    TokyoDateIff(DateTime(d, 23, 30, 0, 0, Some(0)), hostOffset, Date(2024, 3, 2));
  }
}
