/**
 * `formatDate(date, options?)`: renders a calendar date as
 * `[Weekday, ]DD Mon YYYY, H:MM[am|pm]`.
 *
 * The date carries the fields a JavaScript `Date` exposes in local time:
 * the full year, the month counted from 0, the day of the month, the hour,
 * the minute and the weekday counted from 0 for Sunday.
 */
module DateFormat {
  import opened Wrappers
  import opened Decimal

  type MonthIndex = m: nat | m < 12
  type DayOfMonth = d: nat | 1 <= d <= 31 witness 1
  type HourOfDay = h: nat | h < 24
  type MinuteOfHour = m: nat | m < 60
  type Weekday = w: nat | w < 7

  datatype Date = Date(
    year: nat,
    month: MonthIndex,
    day: DayOfMonth,
    hour: HourOfDay,
    minute: MinuteOfHour,
    weekday: Weekday)

  /** The recognised options; an absent option is false. */
  datatype FormatOptions = FormatOptions(includeDay: bool, compact: bool, twentyFourHour: bool)

  const DefaultOptions := FormatOptions(false, false, false)

  const MonthNames: seq<string> :=
    ["Jan", "Feb", "Mar", "Apr", "May", "Jun", "Jul", "Aug", "Sep", "Oct", "Nov", "Dec"]

  const DayNames: seq<string> :=
    ["Sunday", "Monday", "Tuesday", "Wednesday", "Thursday", "Friday", "Saturday"]

  /** Short weekday names: a fixed table, not a truncation to three letters. */
  const ShortDayNames: seq<string> :=
    ["Sun", "Mon", "Tues", "Wed", "Thurs", "Fri", "Sat"]

  function DayName(w: Weekday, compact: bool): string {
    if compact then ShortDayNames[w] else DayNames[w]
  }

  /** The hour on a 12-hour clock face. */
  function Hour12(h: HourOfDay): (r: nat)
    ensures 1 <= r <= 12 && r % 12 == h % 12
  {
    if h % 12 == 0 then 12 else h % 12
  }

  function Meridiem(h: HourOfDay): string {
    if h < 12 then "am" else "pm"
  }

  /** The hour of the day shown by a 12-hour clock face and its am/pm suffix. */
  function To24(h12: nat, pm: bool): nat
    requires 1 <= h12 <= 12
  {
    h12 % 12 + (if pm then 12 else 0)
  }

  lemma To24OfHour12(h: HourOfDay)
    ensures To24(Hour12(h), Meridiem(h) == "pm") == h
  {
  }

  /** `H:MM` with the hour of the day, or with the 12-hour hour followed by am/pm. */
  function Clock(h: HourOfDay, m: MinuteOfHour, twentyFourHour: bool): string {
    if twentyFourHour then NatToString(h) + ":" + Pad2(m)
    else NatToString(Hour12(h)) + ":" + Pad2(m) + Meridiem(h)
  }

  function WeekdayPrefix(d: Date, options: FormatOptions): string {
    if options.includeDay then DayName(d.weekday, options.compact) + ", " else ""
  }

  function DatePart(d: Date): string {
    Pad2(d.day) + " " + MonthNames[d.month] + " " + NatToString(d.year)
  }

  /** Everything after the weekday prefix: `DD Mon YYYY, ` and the time. */
  function Body(d: Date, twentyFourHour: bool): string {
    DatePart(d) + (", " + Clock(d.hour, d.minute, twentyFourHour))
  }

  function FormatDate(d: Date, options: FormatOptions): string {
    WeekdayPrefix(d, options) + Body(d, options.twentyFourHour)
  }

  // ---------------------------------------------------------------------
  // Reading a formatted date back.

  /** The fields a formatted date shows: the weekday only when it is included. */
  datatype Fields = Fields(
    weekday: Option<Weekday>,
    day: nat,
    month: MonthIndex,
    year: nat,
    hour: nat,
    minute: nat)

  function Shown(d: Date, options: FormatOptions): Fields {
    Fields(if options.includeDay then Some(d.weekday) else None,
           d.day, d.month, d.year, d.hour, d.minute)
  }

  function MonthOf(name: string): Option<MonthIndex> {
    if name == MonthNames[0] then Some(0)
    else if name == MonthNames[1] then Some(1)
    else if name == MonthNames[2] then Some(2)
    else if name == MonthNames[3] then Some(3)
    else if name == MonthNames[4] then Some(4)
    else if name == MonthNames[5] then Some(5)
    else if name == MonthNames[6] then Some(6)
    else if name == MonthNames[7] then Some(7)
    else if name == MonthNames[8] then Some(8)
    else if name == MonthNames[9] then Some(9)
    else if name == MonthNames[10] then Some(10)
    else if name == MonthNames[11] then Some(11)
    else None
  }

  function WeekdayOf(name: string, compact: bool): Option<Weekday> {
    if name == DayName(0, compact) then Some(0)
    else if name == DayName(1, compact) then Some(1)
    else if name == DayName(2, compact) then Some(2)
    else if name == DayName(3, compact) then Some(3)
    else if name == DayName(4, compact) then Some(4)
    else if name == DayName(5, compact) then Some(5)
    else if name == DayName(6, compact) then Some(6)
    else None
  }

  lemma MonthOfMonthName(m: MonthIndex)
    ensures MonthOf(MonthNames[m]) == Some(m)
  {
  }

  lemma WeekdayOfDayName(w: Weekday, compact: bool)
    ensures WeekdayOf(DayName(w, compact), compact) == Some(w)
  {
  }

  /** The length of the longest prefix of `s` without a comma. */
  function CommaSpan(s: string): (k: nat)
    ensures k <= |s|
    ensures forall i :: 0 <= i < k ==> s[i] != ','
    ensures k < |s| ==> s[k] == ','
  {
    if s == [] || s[0] == ',' then 0 else 1 + CommaSpan(s[1..])
  }

  lemma {:induction false} CommaSpanOfWord(a: string, b: string)
    requires forall i :: 0 <= i < |a| ==> a[i] != ','
    ensures CommaSpan(a + ", " + b) == |a|
  {
    if a == [] {
      assert a + ", " + b == ", " + b;
    } else {
      assert (a + ", " + b)[1..] == a[1..] + ", " + b;
      CommaSpanOfWord(a[1..], b);
    }
  }

  function ReadWeekdayPrefix(s: string, options: FormatOptions): Option<(Option<Weekday>, string)> {
    if !options.includeDay then Some((None, s))
    else
      var k := CommaSpan(s);
      var w :- WeekdayOf(s[..k], options.compact);
      var rest :- Consume(s[k..], ", ");
      Some((Some(w), rest))
  }

  function ReadMonth(s: string): Option<(MonthIndex, string)> {
    if |s| < 3 then None
    else
      var m :- MonthOf(s[..3]);
      Some((m, s[3..]))
  }

  /** Reads `DD Mon YYYY` and returns the day, month, year and what follows. */
  function ReadDatePart(s: string): Option<(nat, MonthIndex, nat, string)> {
    var dd :- Read2(s);
    var s1 :- Consume(dd.1, " ");
    var mon :- ReadMonth(s1);
    var s2 :- Consume(mon.1, " ");
    var yyyy :- ReadNat(s2);
    Some((dd.0, mon.0, yyyy.0, yyyy.1))
  }

  /** Reads `H:MM`, then `am`/`pm` unless the clock is a 24-hour one; returns the hour of the day and the minute. */
  function ParseClock(s: string, twentyFourHour: bool): Option<(nat, nat)> {
    var hh :- ReadNat(s);
    var s1 :- Consume(hh.1, ":");
    var mm :- Read2(s1);
    if twentyFourHour then
      if mm.1 == [] then Some((hh.0, mm.0)) else None
    else if 1 <= hh.0 <= 12 && (mm.1 == "am" || mm.1 == "pm") then
      Some((To24(hh.0, mm.1 == "pm"), mm.0))
    else None
  }

  function ParseDate(s: string, options: FormatOptions): Option<Fields> {
    var wd :- ReadWeekdayPrefix(s, options);
    var date :- ReadDatePart(wd.1);
    var s1 :- Consume(date.3, ", ");
    var clock :- ParseClock(s1, options.twentyFourHour);
    Some(Fields(wd.0, date.0, date.1, date.2, clock.0, clock.1))
  }

  lemma ClockRoundTrip(h: HourOfDay, m: MinuteOfHour, twentyFourHour: bool)
    ensures ParseClock(Clock(h, m, twentyFourHour), twentyFourHour) == Some((h, m))
  {
    var hour := if twentyFourHour then h else Hour12(h);
    var tail := if twentyFourHour then [] else Meridiem(h);
    assert Clock(h, m, twentyFourHour) == NatToString(hour) + (":" + (Pad2(m) + tail));
    ReadNatOfNumeral(hour, ":" + (Pad2(m) + tail));
    ConsumeLiteral(":", Pad2(m) + tail);
    Read2OfPad2(m, tail);
    if !twentyFourHour {
      To24OfHour12(h);
    }
  }

  lemma DatePartRoundTrip(d: Date, rest: string)
    requires rest == [] || !IsDigit(rest[0])
    ensures ReadDatePart(DatePart(d) + rest) == Some((d.day, d.month, d.year, rest))
  {
    var mon := MonthNames[d.month];
    var year := NatToString(d.year);
    assert DatePart(d) + rest == Pad2(d.day) + (" " + (mon + (" " + (year + rest))));
    Read2OfPad2(d.day, " " + (mon + (" " + (year + rest))));
    ConsumeLiteral(" ", mon + (" " + (year + rest)));
    var s1 := mon + (" " + (year + rest));
    assert s1[..3] == mon && s1[3..] == " " + (year + rest);
    MonthOfMonthName(d.month);
    ConsumeLiteral(" ", year + rest);
    ReadNatOfNumeral(d.year, rest);
  }

  lemma WeekdayPrefixRoundTrip(d: Date, options: FormatOptions, rest: string)
    ensures ReadWeekdayPrefix(WeekdayPrefix(d, options) + rest, options)
         == Some((Shown(d, options).weekday, rest))
  {
    if options.includeDay {
      var name := DayName(d.weekday, options.compact);
      assert forall i :: 0 <= i < |name| ==> name[i] != ',';
      var s := WeekdayPrefix(d, options) + rest;
      assert s == name + ", " + rest;
      CommaSpanOfWord(name, rest);
      assert s[..|name|] == name;
      assert s[|name|..] == ", " + rest;
      WeekdayOfDayName(d.weekday, options.compact);
      ConsumeLiteral(", ", rest);
    } else {
      assert WeekdayPrefix(d, options) + rest == rest;
    }
  }

  /** A formatted date loses none of the fields it shows: they are all read back. */
  lemma FormatDateRoundTrip(d: Date, options: FormatOptions)
    ensures ParseDate(FormatDate(d, options), options) == Some(Shown(d, options))
  {
    var clock := Clock(d.hour, d.minute, options.twentyFourHour);
    var afterDate := ", " + clock;
    WeekdayPrefixRoundTrip(d, options, DatePart(d) + afterDate);
    DatePartRoundTrip(d, afterDate);
    ConsumeLiteral(", ", clock);
    ClockRoundTrip(d.hour, d.minute, options.twentyFourHour);
  }

  /** Two dates with the same rendering agree on every field the rendering shows. */
  lemma FormatDateDeterminesFields(d: Date, e: Date, options: FormatOptions)
    requires FormatDate(d, options) == FormatDate(e, options)
    ensures Shown(d, options) == Shown(e, options)
  {
    FormatDateRoundTrip(d, options);
    FormatDateRoundTrip(e, options);
  }

  // ---------------------------------------------------------------------
  // How the options change the rendering.

  /** `includeDay` puts the weekday name and ", " in front and leaves the rest as it was. */
  lemma IncludeDayPrefixes(d: Date, options: FormatOptions)
    ensures FormatDate(d, options.(includeDay := true))
         == DayName(d.weekday, options.compact) + ", " + FormatDate(d, options.(includeDay := false))
  {
    assert WeekdayPrefix(d, options.(includeDay := false)) + Body(d, options.twentyFourHour)
        == Body(d, options.twentyFourHour);
  }

  /** `compact` only shortens the weekday name, so without `includeDay` it changes nothing. */
  lemma CompactOnlyShortensWeekday(d: Date, options: FormatOptions)
    requires !options.includeDay
    ensures FormatDate(d, options.(compact := true)) == FormatDate(d, options.(compact := false))
  {
  }

  /** In the short-name table chosen here ("Tues" is the one pinned), every short weekday name is the start of the full name. */
  lemma ShortDayNameIsPrefix(w: Weekday)
    ensures DayName(w, true) <= DayName(w, false)
  {
  }

  /** With `twentyFourHour` the time is the unpadded hour of the day, a colon and the two-digit minute, with no suffix. */
  lemma TwentyFourHourClock(d: Date, options: FormatOptions)
    requires options.twentyFourHour
    ensures var r := FormatDate(d, options);
      var t := NatToString(d.hour) + ":" + Pad2(d.minute);
      |t| <= |r| && r[|r| - |t|..] == t && r[..|r| - |t|] == WeekdayPrefix(d, options) + DatePart(d) + ", "
  {
    EndsWithClock(d, options);
  }

  /** A morning hour other than midnight is shown as itself with the "am" suffix. */
  lemma MorningClock(d: Date, options: FormatOptions)
    requires !options.twentyFourHour && 1 <= d.hour < 12
    ensures var r := FormatDate(d, options);
      var t := NatToString(d.hour) + ":" + Pad2(d.minute) + "am";
      |t| <= |r| && r[|r| - |t|..] == t
  {
    assert Hour12(d.hour) == d.hour && Meridiem(d.hour) == "am";
    assert Clock(d.hour, d.minute, false) == NatToString(d.hour) + ":" + Pad2(d.minute) + "am";
    EndsWithClock(d, options);
  }

  /** A formatted date is the weekday prefix, the date, ", " and the clock, in that order. */
  lemma EndsWithClock(d: Date, options: FormatOptions)
    ensures var r := FormatDate(d, options);
      var c := Clock(d.hour, d.minute, options.twentyFourHour);
      |c| <= |r| && r[|r| - |c|..] == c && r[..|r| - |c|] == WeekdayPrefix(d, options) + DatePart(d) + ", "
  {
    var c := Clock(d.hour, d.minute, options.twentyFourHour);
    var front := WeekdayPrefix(d, options) + DatePart(d) + ", ";
    assert FormatDate(d, options) == front + c;
  }
}
