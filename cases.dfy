/** The expected values of the utility test suite, proved of the model. */
module Cases {
  import opened Wrappers
  import opened Decimal
  import opened Pluralize
  import opened Distance
  import opened DateFormat

  lemma AutoPluralCases()
    ensures Plural("shark", 1, None) == "shark"
    ensures Plural("shark", 2, None) == "sharks"
  {
  }

  lemma ManualPluralCases()
    ensures Plural("sheep", 1, Some("sheep")) == "sheep"
    ensures Plural("sheep", 2, Some("sheep")) == "sheep"
  {
  }

  /** 26 March 2019, a Tuesday, at the given time. */
  function March26(hour: HourOfDay, minute: MinuteOfHour): Date {
    Date(2019, 2, 26, hour, minute, 2)
  }

  lemma March26DatePart()
    ensures DatePart(March26(0, 0)) == "26 Mar 2019"
  {
    assert Pad2(26) == "26";
    assert NatToString(2019) == "2019";
  }

  lemma DefaultFormatCase()
    ensures FormatDate(March26(10, 30), DefaultOptions) == "26 Mar 2019, 10:30am"
  {
    March26DatePart();
    assert NatToString(10) == "10" && Pad2(30) == "30";
  }

  lemma IncludeDayCase()
    ensures FormatDate(March26(10, 30), DefaultOptions.(includeDay := true))
         == "Tuesday, 26 Mar 2019, 10:30am"
  {
    DefaultFormatCase();
    IncludeDayPrefixes(March26(10, 30), DefaultOptions);
  }

  lemma IncludeDayCompactCase()
    ensures FormatDate(March26(10, 30), DefaultOptions.(includeDay := true, compact := true))
         == "Tues, 26 Mar 2019, 10:30am"
  {
    DefaultFormatCase();
    CompactOnlyShortensWeekday(March26(10, 30), DefaultOptions);
    IncludeDayPrefixes(March26(10, 30), DefaultOptions.(compact := true));
  }

  lemma TwentyFourHourCase(hour: HourOfDay, minute: MinuteOfHour)
    ensures FormatDate(March26(hour, minute), DefaultOptions.(twentyFourHour := true))
         == "26 Mar 2019, " + NatToString(hour) + ":" + Pad2(minute)
  {
    March26DatePart();
  }

  lemma TwentyFourHourCases()
    ensures FormatDate(March26(10, 30), DefaultOptions.(twentyFourHour := true)) == "26 Mar 2019, 10:30"
    ensures FormatDate(March26(12, 0), DefaultOptions.(twentyFourHour := true)) == "26 Mar 2019, 12:00"
    ensures FormatDate(March26(18, 30), DefaultOptions.(twentyFourHour := true)) == "26 Mar 2019, 18:30"
    ensures FormatDate(March26(0, 0), DefaultOptions.(twentyFourHour := true)) == "26 Mar 2019, 0:00"
  {
    TwentyFourHourCase(10, 30);
    TwentyFourHourCase(12, 0);
    TwentyFourHourCase(18, 30);
    TwentyFourHourCase(0, 0);
    assert NatToString(10) == "10" && NatToString(12) == "12" && NatToString(18) == "18";
    assert NatToString(0) == "0" && Pad2(30) == "30" && Pad2(0) == "00";
  }

  lemma DistanceUnitCases()
    ensures PhraseOf(10) == Phrase(10, Second)
    ensures PhraseOf(1000) == Phrase(17, Minute)
    ensures PhraseOf(10 * 60 * 60) == Phrase(10, Hour)
    ensures PhraseOf(6 * 60 * 60 * 24) == Phrase(6, Day)
    ensures PhraseOf(14 * 60 * 60 * 24) == Phrase(2, Week)
    ensures PhraseOf(2 * 30 * 60 * 60 * 24) == Phrase(2, Month)
    ensures PhraseOf(100000000) == Phrase(3, Year)
  {
  }

  lemma NumeralCases()
    ensures NatToString(2) == "2" && NatToString(3) == "3" && NatToString(6) == "6"
    ensures NatToString(10) == "10" && NatToString(17) == "17"
  {
  }

  lemma DistanceLongCases()
    ensures DistanceOfTimeInWords(10, false) == "10 seconds"
    ensures DistanceOfTimeInWords(1000, false) == "17 minutes"
    ensures DistanceOfTimeInWords(10 * 60 * 60, false) == "10 hours"
    ensures DistanceOfTimeInWords(6 * 60 * 60 * 24, false) == "6 days"
    ensures DistanceOfTimeInWords(14 * 60 * 60 * 24, false) == "2 weeks"
    ensures DistanceOfTimeInWords(2 * 30 * 60 * 60 * 24, false) == "2 months"
    ensures DistanceOfTimeInWords(100000000, false) == "3 years"
  {
    DistanceUnitCases();
    NumeralCases();
  }

  lemma DistanceCompactCases()
    ensures DistanceOfTimeInWords(10, true) == "10s"
    ensures DistanceOfTimeInWords(1000, true) == "17m"
    ensures DistanceOfTimeInWords(10 * 60 * 60, true) == "10h"
    ensures DistanceOfTimeInWords(6 * 60 * 60 * 24, true) == "6d"
    ensures DistanceOfTimeInWords(14 * 60 * 60 * 24, true) == "2w"
    ensures DistanceOfTimeInWords(2 * 30 * 60 * 60 * 24, true) == "2mo"
    ensures DistanceOfTimeInWords(100000000, true) == "3y"
  {
    DistanceUnitCases();
    NumeralCases();
  }
}
