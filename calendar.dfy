/**
 * Dates, instants and times of day as the services store and compare them, and
 * the normalisation of user-supplied dates and times (`_normalize_date`, shared
 * by the work-order and production-management services, and `_normalize_time`).
 */
module Calendar {
  import opened Wrappers
  import opened Text
  import opened Parsing

  /** Seconds since the epoch, UTC: a stored timezone-aware `datetime`. */
  type Instant = int

  /** Days since the epoch: a calendar `date`. */
  type Day = int

  const SecondsPerDay: int := 86400

  /** `datetime.combine(d, time.min, tzinfo=timezone.utc)`. */
  function DayStart(d: Day): Instant { d * SecondsPerDay }

  /** `dt.date()` of a UTC instant. */
  function DayOf(t: Instant): Day { t / SecondsPerDay }

  /** The window [start of `d`, start of `d` + 1 day) holds exactly the instants whose date is `d`. */
  lemma DayWindow(t: Instant, d: Day)
    ensures DayStart(d) <= t < DayStart(d) + SecondsPerDay <==> DayOf(t) == d
  {
    var q, m := t / SecondsPerDay, t % SecondsPerDay;
    assert t == q * SecondsPerDay + m && 0 <= m < SecondsPerDay;
    if q < d {
      assert q * SecondsPerDay + SecondsPerDay <= d * SecondsPerDay;
    } else if q > d {
      assert d * SecondsPerDay + SecondsPerDay <= q * SecondsPerDay;
    }
  }

  /** Reading a stored date back gives the day that was stored. */
  lemma DayStartRoundTrip(d: Day)
    ensures DayOf(DayStart(d)) == d
  {
    assert DayStart(d) == d * SecondsPerDay;
  }

  /** Storing keeps the order of days. */
  lemma DayStartMonotone(a: Day, b: Day)
    ensures a <= b <==> DayStart(a) <= DayStart(b)
  {
    if a <= b {
      assert a * SecondsPerDay <= b * SecondsPerDay;
    } else {
      assert b * SecondsPerDay < a * SecondsPerDay;
    }
  }

  /** Formats tried, in this order, on date text (the ISO one also accepts a trailing `Z`). */
  datatype DateFormat = IsoDateTime | YearMonthDayDash | DayMonthYearDash | DayMonthYearSlash | YearMonthDaySlash

  const DateFormats: seq<DateFormat> :=
    [IsoDateTime, YearMonthDayDash, DayMonthYearDash, DayMonthYearSlash, YearMonthDaySlash]

  /** A value handed to `_normalize_date`; `at` of a datetime is its wall-clock instant. */
  datatype DateIn = NoDate | DateValue(day: Day) | DateTimeValue(at: Instant) | DateText(text: string) | OtherDate

  datatype DateError = Required | FormatInvalid

  /**
   * `_normalize_date`: None and blank text are "required" errors; a date is kept, a
   * datetime gives its date; text is parsed by the first format that accepts it.
   */
  function NormalizeDate(v: DateIn, parse: (DateFormat, string) -> Option<Day>): (r: Result<Day, DateError>)
    ensures r == Err(Required) <==> v.NoDate? || (v.DateText? && Strip(v.text) == [])
    ensures v.DateValue? ==> r == Ok(v.day)
    ensures v.DateTimeValue? ==> r == Ok(DayOf(v.at))
    ensures v.DateText? && r.Ok? ==>
      exists i :: 0 <= i < |DateFormats| && parse(DateFormats[i], Strip(v.text)) == Some(r.value)
                  && forall j :: 0 <= j < i ==> parse(DateFormats[j], Strip(v.text)).None?
    ensures v.DateText? && Strip(v.text) != [] ==>
      (r.Ok? <==> exists i :: 0 <= i < |DateFormats| && parse(DateFormats[i], Strip(v.text)).Some?)
  {
    match v
    case NoDate => Err(Required)
    case DateValue(d) => Ok(d)
    case DateTimeValue(t) => Ok(DayOf(t))
    case DateText(s) =>
      var text := Strip(s);
      if text == [] then Err(Required)
      else
        var p := FirstParse(parse, DateFormats, text);
        if p.Some? then Ok(p.value) else Err(FormatInvalid)
    case OtherDate => Err(FormatInvalid)
  }

  datatype TimeOfDay = TimeOfDay(hour: int, minute: int, second: int)

  predicate ValidTime(t: TimeOfDay) { 0 <= t.hour < 24 && 0 <= t.minute < 60 && 0 <= t.second < 60 }

  /** A `time` value: always a valid time of day. */
  type Clock = t: TimeOfDay | ValidTime(t) witness TimeOfDay(0, 0, 0)

  /** Formats tried, in this order, on time text: `%H:%M:%S`, then `%H:%M`. */
  datatype TimeFormat = HourMinuteSecond | HourMinute

  const TimeFormats: seq<TimeFormat> := [HourMinuteSecond, HourMinute]

  datatype TimeIn = NoTime | TimeValue(time: Clock) | TimeText(text: string) | OtherTime

  /** `_normalize_time`: the same shape as `NormalizeDate`, over the two time formats. */
  function NormalizeTime(v: TimeIn, parse: (TimeFormat, string) -> Option<Clock>): (r: Result<Clock, DateError>)
    ensures r == Err(Required) <==> v.NoTime? || (v.TimeText? && Strip(v.text) == [])
    ensures v.TimeValue? ==> r == Ok(v.time)
    ensures v.TimeText? && r.Ok? ==>
      exists i :: 0 <= i < |TimeFormats| && parse(TimeFormats[i], Strip(v.text)) == Some(r.value)
                  && forall j :: 0 <= j < i ==> parse(TimeFormats[j], Strip(v.text)).None?
  {
    match v
    case NoTime => Err(Required)
    case TimeValue(t) => Ok(t)
    case TimeText(s) =>
      var text := Strip(s);
      if text == [] then Err(Required)
      else
        var p := FirstParse(parse, TimeFormats, text);
        if p.Some? then Ok(p.value) else Err(FormatInvalid)
    case OtherTime => Err(FormatInvalid)
  }

  function TwoDigits(n: int): string
    requires 0 <= n < 100
  {
    [DigitChar(n / 10), DigitChar(n % 10)]
  }

  /** `t.strftime("%H:%M")`: the stored form of a delivery time; seconds are dropped. */
  function FormatHourMinute(t: TimeOfDay): (r: string)
    requires ValidTime(t)
    ensures |r| == 5 && r[2] == ':' && AllDigits(r[..2]) && AllDigits(r[3..])
  {
    TwoDigits(t.hour) + ":" + TwoDigits(t.minute)
  }

  lemma TwoDigitsValue(n: int)
    requires 0 <= n < 100
    ensures AllDigits(TwoDigits(n)) && DigitsValue(TwoDigits(n)) == n
  {
    var s := TwoDigits(n);
    assert s[..1] == [DigitChar(n / 10)];
    assert s[..1][..0] == [];
    assert DigitsValue(s[..1]) == n / 10;
  }

  /** The stored "HH:MM" text reads back as the same hour and minute. */
  lemma HourMinuteRoundTrip(t: TimeOfDay)
    requires ValidTime(t)
    ensures DigitsValue(FormatHourMinute(t)[..2]) == t.hour
    ensures DigitsValue(FormatHourMinute(t)[3..]) == t.minute
  {
    var r := FormatHourMinute(t);
    assert r[..2] == TwoDigits(t.hour);
    assert r[3..] == TwoDigits(t.minute);
    TwoDigitsValue(t.hour);
    TwoDigitsValue(t.minute);
  }
}
