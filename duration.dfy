/**
 * `format_duration` of the battery applet: the time left on battery as text.
 * Up to 60 seconds it is a number of seconds, up to 60 minutes a number of
 * minutes, and beyond that hours and minutes as `H:MM`. The localised unit
 * words are parameters.
 */
module DurationFormat {
  import opened Options
  import opened Decimal

  /** `format_duration`: `secs` is `Duration::as_secs`, `minutes` and `seconds`
      are the localised unit words appended after the number. */
  function FormatDuration(secs: nat, minutes: string, seconds: string): (r: string)
    ensures |r| >= 1 && IsDigit(r[0])
    ensures secs <= 60 ==> |r| > |seconds| && r[|r| - |seconds|..] == seconds
    ensures 60 < secs < 3660 ==> |r| > |minutes| && r[|r| - |minutes|..] == minutes
  {
    if secs > 60 then
      var min := secs / 60;
      if min > 60 then Show(min / 60) + ":" + ShowPadded(min % 60, 2)
      else Show(min) + minutes
    else Show(secs) + seconds
  }

  /** A unit word that cannot be mistaken for part of the number before it. */
  predicate IsUnitWord(unit: string) {
    unit == [] || !IsDigit(unit[0])
  }

  /** Reads `H:MM` text: hours of one or more digits, a colon and exactly two
      digits of minutes. */
  function ReadClock(text: string): Option<(nat, nat)>
  {
    if |text| >= 4 && text[|text| - 3] == ':'
       && AllDigits(text[..|text| - 3]) && AllDigits(text[|text| - 2..])
    then Some((Value(text[..|text| - 3]), Value(text[|text| - 2..])))
    else None
  }

  /** Up to 60 seconds (60 included) the text is the number of seconds,
      written without a leading zero, and the seconds unit. */
  lemma FormatSecondsReadsBack(secs: nat, minutes: string, seconds: string)
    requires secs <= 60 && IsUnitWord(seconds)
    ensures var text := FormatDuration(secs, minutes, seconds);
      var number := LeadingDigits(text);
      && text == number + seconds && Value(number) == secs
      && (|number| > 1 ==> number[0] != '0')
  {
    ValueOfShow(secs);
    ShowLength(secs);
    LeadingDigitsOfConcat(Show(secs), seconds);
  }

  /** From 61 seconds to 60 minutes (3659 seconds) the text is the number of
      whole minutes, between 1 and 60 and written without a leading zero, and
      the minutes unit. */
  lemma FormatMinutesReadsBack(secs: nat, minutes: string, seconds: string)
    requires 60 < secs < 61 * 60 && IsUnitWord(minutes)
    ensures var text := FormatDuration(secs, minutes, seconds);
      var number := LeadingDigits(text);
      && text == number + minutes && Value(number) == secs / 60 && 1 <= Value(number) <= 60
      && |number| >= 1 && number[0] != '0'
  {
    ValueOfShow(secs / 60);
    LeadingDigitsOfConcat(Show(secs / 60), minutes);
  }

  /** Hours, a colon and two digits of minutes read back as themselves. */
  lemma ReadClockOf(hours: string, mins: string)
    requires |hours| >= 1 && AllDigits(hours) && |mins| == 2 && AllDigits(mins)
    ensures ReadClock(hours + ":" + mins) == Some((Value(hours), Value(mins)))
  {
    var text := hours + ":" + mins;
    assert text[..|text| - 3] == hours;
    assert text[|text| - 2..] == mins;
  }

  /** From 61 minutes on the text is `H:MM`: hours without a leading zero,
      minutes below 60 written with exactly two digits, and `H * 60 + MM` the
      number of whole minutes. */
  lemma FormatClockReadsBack(secs: nat, minutes: string, seconds: string)
    requires secs >= 61 * 60
    ensures FormatDuration(secs, minutes, seconds)[0] != '0'
    ensures match ReadClock(FormatDuration(secs, minutes, seconds))
      case Some((h, mm)) => h >= 1 && mm < 60 && h * 60 + mm == secs / 60
      case None => false
  {
    var min := secs / 60;
    ShowLength(min % 60);
    ReadClockOf(Show(min / 60), ShowPadded(min % 60, 2));
    ValueOfShow(min / 60);
    ValueOfShowPadded(min % 60, 2);
  }

  /** The worked examples: 30 s, 60 s, 90 s, 3600 s and 3661 s. */
  lemma FormatDurationExamples(minutes: string, seconds: string)
    ensures FormatDuration(30, minutes, seconds) == "30" + seconds
    ensures FormatDuration(60, minutes, seconds) == "60" + seconds
    ensures FormatDuration(90, minutes, seconds) == "1" + minutes
    ensures FormatDuration(3600, minutes, seconds) == "60" + minutes
    ensures FormatDuration(3661, minutes, seconds) == "1:01"
  {
    assert Show(3) == "3" && Show(6) == "6" && Show(0) == "0";
    assert Show(30) == "30";
    assert Show(60) == "60";
    assert Show(1) == "1";
    assert ShowPadded(1, 2) == "01";
  }
}
