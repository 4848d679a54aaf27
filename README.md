# react-timestamp utilities, modelled in Dafny

This project models three pure helpers of the react-timestamp utility
module (`src/util`), as its test suite `tests/util.spec.ts` pins them down:

- `plural(word, count, plural?)` picks the singular or plural form of a word.
  For a count of one it returns the word itself. For any other count it
  returns the explicit plural verbatim, or the word with "s" appended when no
  plural is given.
- `distanceOfTimeInWords(seconds, compareWithNow, compact?)` renders a duration
  as an approximate phrase. The unit is the coarsest one the duration has
  reached; a week is 7 days, a month 30 days and a year 365 days. The
  magnitude is the duration in that unit rounded to the nearest whole number;
  a duration exactly half-way between two magnitudes is rounded up. The long form is
  "17 minutes", with the unit name pluralised through `plural`. The compact
  form is "17m", with the suffixes s, m, h, d, w, mo, y.
- `formatDate(date, options?)` renders `[Weekday, ]DD Mon YYYY, H:MM[am|pm]`.
  The options are `includeDay`, `compact` and `twentyFourHour`. The date is
  a record of the fields a JavaScript `Date` exposes: year, month from 0, day,
  hour, minute, and weekday from 0 for Sunday.

The implementation file itself is not part of this model: every definition
here is reconstructed from the test suite's expected values. Where the tests
leave a choice open the model takes the conventional one and says so below.

Modules, one file each:

- `Wrappers` (wrappers.dfy): an `Option` type usable with `:-`.
- `Decimal` (decimal.dfy): how a whole number is written (`${n}`), two-digit
  zero padding, and readers that take numerals and literals back off a string.
- `Pluralize` (pluralize.dfy): `Plural` and its inverse `Singular`.
- `Distance` (distance.dfy): units, unit selection, rounding, the two
  renderings and a parser `ParsePhrase` for them.
- `DateFormat` (date_format.dfy): the name tables, the clock, `FormatDate`, and
  a parser `ParseDate` that reads every shown field back.
- `Cases` (cases.dfy): every expected value of the three test classes, proved.

Each operation has a partner with an all-inputs lemma:

- `Plural` has `Singular`.
- `NatToString` has `ParseNat`.
- `Hour12` has `To24`.
- `Render` and `DistanceOfTimeInWords` have `ParsePhrase`.
- `FormatDate` has `ParseDate`.

The round-trip lemmas show that no rendering loses what it shows.

Unit selection uses thresholds. Under 60 s the unit is seconds, under an hour
minutes, under a day hours, under 7 days days, under 30 days weeks, under 365
days months, and otherwise years. The magnitude is rounded only after the
unit has been chosen. Choosing "the coarsest unit whose rounded magnitude is
at least one" instead would give "1 week" for 6 days, which contradicts the
test at tests/util.spec.ts:82, so the model does not do that.

## Model

| member | source | states |
|---|---|---|
| Pluralize.Plural | tests/util.spec.ts:5-17 | the definition is the rule: the word for a count of one, else the explicit plural, else the word with "s"; its properties are the four lemmas below |
| Pluralize.PluralOfOne | tests/util.spec.ts:6 | a count of one yields the word unchanged, with or without an explicit plural |
| Pluralize.ExplicitPluralVerbatim | tests/util.spec.ts:12-16 | any count other than one with an explicit plural yields that plural verbatim |
| Pluralize.AutoPluralAppendsS | tests/util.spec.ts:7-9 | any count other than one without an explicit plural keeps the word and adds exactly one trailing "s" |
| Pluralize.SingularOfPlural | tests/util.spec.ts:5-10 | automatic pluralisation is invertible: the word is recovered from the form and the count |
| Decimal.NatToString | tests/util.spec.ts:79-85 | a number is written as a non-empty digit string with no leading zero |
| Decimal.ParseNatToString | tests/util.spec.ts:79-85 | reading the written numeral gives back the number |
| Decimal.NatToStringInjective | tests/util.spec.ts:79-85 | different numbers are written differently |
| Decimal.Pad2 | tests/util.spec.ts:59-61 | minutes are written with exactly two digits ("00"); the model pads days the same way, a choice listed below |
| Decimal.ParseNatPad2 | tests/util.spec.ts:59-61 | the padded two digits still read as the number |
| Distance.SelectUnit | tests/util.spec.ts:79-85 | the unit is one the duration has reached (seconds when none), and no coarser unit has been reached |
| Distance.RoundDiv | tests/util.spec.ts:80 | the magnitude times the unit lies within half a unit of the duration, halves rounding up, so 1000 s is 17 minutes |
| Distance.PhraseOf | tests/util.spec.ts:79-85 | the phrase's unit is the one `SelectUnit` picks, and its magnitude times that unit lies within half a unit of the duration |
| Distance.Render | tests/util.spec.ts:77-100 | the definition is the rule: the numeral of the magnitude, then either the compact suffix or a space and the unit name through `Plural`; `RenderRoundTrip` shows it loses nothing |
| Distance.DistanceOfTimeInWords | tests/util.spec.ts:77-100 | the definition is the rule: `Render` of `PhraseOf(seconds)`; `CompactAgreesWithLong` shows both forms read back as that phrase |
| Distance.PhraseBounds | tests/util.spec.ts:79-85 | the magnitude equals the duration in seconds, is at least one for any positive duration, and is at most 60 min, 24 h, 7 d, 4 w or 12 mo |
| Distance.PhraseMonotone | tests/util.spec.ts:79-85 | a longer duration never gets a finer unit, nor a smaller magnitude in the same unit |
| Distance.RenderRoundTrip | tests/util.spec.ts:77-100 | the long and the compact rendering of any phrase both parse back to exactly that magnitude and unit |
| Distance.CompactAgreesWithLong | tests/util.spec.ts:90-99 | the compact and the long form of a duration state the same magnitude in the same unit |
| DateFormat.Hour12 | tests/util.spec.ts:40 | the 12-hour clock shows an hour from 1 to 12 congruent to the hour of the day modulo 12 |
| DateFormat.To24OfHour12 | tests/util.spec.ts:40 | the 12-hour hour and the am/pm suffix together determine the hour of the day |
| DateFormat.MonthOfMonthName | tests/util.spec.ts:40 | the three-letter month names are distinct, so the month name determines the 0-based month |
| DateFormat.WeekdayOfDayName | tests/util.spec.ts:46-54 | full and short weekday names are each distinct, so the name determines the weekday |
| DateFormat.Clock | tests/util.spec.ts:38-64 | the definition is the rule: the hour of the day, ":" and the two-digit minute on a 24-hour clock; otherwise the 12-hour hour, ":", the two-digit minute and am/pm; `ClockRoundTrip` shows it loses nothing |
| DateFormat.DatePart | tests/util.spec.ts:40 | the definition is the rule: the two-digit day, a space, the three-letter month name, a space and the year; `DatePartRoundTrip` shows it loses nothing |
| DateFormat.WeekdayPrefix | tests/util.spec.ts:45-55 | the definition is the rule: the full or short weekday name and ", " when `includeDay` is set, nothing otherwise |
| DateFormat.FormatDate | tests/util.spec.ts:38-64 | the definition is the rule: the weekday prefix, the date part, ", " and the clock; `FormatDateRoundTrip` shows every shown field is read back |
| DateFormat.ClockRoundTrip | tests/util.spec.ts:57-63 | the time part, in either clock, reads back as the hour of the day and the minute |
| DateFormat.DatePartRoundTrip | tests/util.spec.ts:40 | `DD Mon YYYY` reads back as the day, the month and the year |
| DateFormat.WeekdayPrefixRoundTrip | tests/util.spec.ts:45-55 | the weekday prefix reads back as the weekday when `includeDay` is set and is absent otherwise |
| DateFormat.FormatDateRoundTrip | tests/util.spec.ts:38-64 | every field a formatted date shows is read back from it, for every combination of options |
| DateFormat.FormatDateDeterminesFields | tests/util.spec.ts:38-64 | two dates formatted alike agree on every shown field |
| DateFormat.IncludeDayPrefixes | tests/util.spec.ts:45-55 | `includeDay` prefixes the weekday name and ", " and leaves the rest of the string unchanged |
| DateFormat.CompactOnlyShortensWeekday | tests/util.spec.ts:51-55 | without `includeDay`, `compact` changes nothing |
| DateFormat.ShortDayNameIsPrefix | tests/util.spec.ts:46-52 | each short weekday name ("Tues") begins its full name ("Tuesday") |
| DateFormat.TwentyFourHourClock | tests/util.spec.ts:57-63 | with `twentyFourHour` the string ends in the unpadded hour, ":" and the two-digit minute, with no suffix |
| DateFormat.EndsWithClock | tests/util.spec.ts:38-64 | a formatted date is exactly the weekday prefix, the date part and ", ", followed by the clock |
| DateFormat.MorningClock | tests/util.spec.ts:40 | in 12-hour mode an hour from 1 to 11 is shown as itself followed by "am" |
| Cases.AutoPluralCases | tests/util.spec.ts:5-10 | "shark" for 1 and "sharks" for 2 |
| Cases.ManualPluralCases | tests/util.spec.ts:12-17 | "sheep" with explicit plural "sheep" for 1 and for 2 |
| Cases.March26DatePart | tests/util.spec.ts:40 | 26 March 2019 is written "26 Mar 2019" |
| Cases.DefaultFormatCase | tests/util.spec.ts:39-43 | "26 Mar 2019, 10:30am" with the default options |
| Cases.IncludeDayCase | tests/util.spec.ts:45-49 | "Tuesday, 26 Mar 2019, 10:30am" with `includeDay` |
| Cases.IncludeDayCompactCase | tests/util.spec.ts:51-55 | "Tues, 26 Mar 2019, 10:30am" with `includeDay` and `compact` |
| Cases.TwentyFourHourCase | tests/util.spec.ts:57-63 | with `twentyFourHour`, 26 March 2019 renders as "26 Mar 2019, " then the unpadded hour, ":" and the two-digit minute |
| Cases.TwentyFourHourCases | tests/util.spec.ts:57-64 | "10:30", "12:00", "18:30" and "0:00" with `twentyFourHour` |
| Cases.DistanceUnitCases | tests/util.spec.ts:79-85 | the seven test durations select seconds, minutes, hours, days, weeks, months and years with magnitudes 10, 17, 10, 6, 2, 2, 3 |
| Cases.NumeralCases | tests/util.spec.ts:79-85 | the magnitudes of the test cases are written 2, 3, 6, 10, 17 |
| Cases.DistanceLongCases | tests/util.spec.ts:78-88 | the seven long-form expected phrases, from "10 seconds" to "3 years" |
| Cases.DistanceCompactCases | tests/util.spec.ts:90-100 | the seven compact expected phrases, from "10s" to "3y" |

## Left out

- `toDate` (tests/util.spec.ts:20-36) is not modelled. It depends on JavaScript `Date` construction and string parsing in the local time zone.
- `secondsBetweenDates` (tests/util.spec.ts:67-75) is not modelled. Its results come from `Date` instants in local time, including daylight-saving and time-zone offsets, which calendar arithmetic alone does not reproduce.
- The `compareWithNow` argument of `distanceOfTimeInWords` is not modelled. The tests always pass `false`, so no behaviour depends on it.
- Durations are whole non-negative numbers of seconds. Negative and fractional inputs are outside what the tests show.
- NatToString: numbers are unbounded and always written in plain decimal. JavaScript writes numbers from 10^21 up in exponent notation and is exact only up to 2^53; no realistic duration or year reaches either limit.
- Pad2: days 1 to 9 are zero-padded ("05 Mar"). This is the conventional `DD` reading; every test date is the 26th, so the tests show only a two-digit day and do not fix how a one-digit day is written.
- Clock: the 12-hour hour is written without a leading zero ("9:05am"). This is the conventional choice; the only 12-hour test uses hour 10 ("10:30am"), which does not show it.
- Factor: a month is 30 days and a year 365 days. These are the conventional lengths; the tests only require a month of roughly 24 to 40 days ("2 months" for 60 days) and a year of roughly 331 to 463 days ("3 years" for 100000000 s).
- RoundDiv: an exact half rounds up. This is a choice, because no test duration falls exactly half-way between two magnitudes; the tests only rule out rounding down (1000 s is 17 minutes) and rounding up (100000000 s is 3 years).
- The weekday is a field of the date, not derived from year, month and day.
- Day-of-month values are limited to 1..31 without per-month lengths, because formatting does not depend on them.
- Years are non-negative and written in plain decimal without padding. The tests only show four-digit years.
- The 12-hour clock for afternoon, noon and midnight follows the conventional rules: 12 for noon and midnight, h - 12 after noon, and "pm" from noon on. The tests only show a morning hour ("10:30am").
- The short weekday names other than "Tues" (Sun, Mon, Wed, Thurs, Fri, Sat) are a choice; the tests only show Tuesday.
- An empty explicit plural is taken verbatim. The tests do not show whether the implementation treats it as absent.
- The test harness (decorators, `Expect`) is not modelled.
