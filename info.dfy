/** `get_current_time`: the wall-clock time as `strftime("%I:%M %p")`,
    taken here as a function of the 24-hour (hour, minute) of `now()`. */
module Info {
  import opened Wrappers
  import opened Strings

  /** The `%I` hour: 12 for midnight and noon, otherwise the hour modulo 12. */
  function Hour12(hour: nat): (h: nat)
    requires hour < 24
    ensures 1 <= h <= 12
    ensures h % 12 == hour % 12
  {
    if hour % 12 == 0 then 12 else hour % 12
  }

  /** A number below 100, zero-padded to two digits. */
  function TwoDigits(n: nat): (r: string)
    requires n < 100
    ensures |r| == 2 && IsDigit(r[0]) && IsDigit(r[1])
    ensures DigitValue(r[0]) * 10 + DigitValue(r[1]) == n
  {
    [DigitChar(n / 10), DigitChar(n % 10)]
  }

  /** `"%I:%M %p"`: eight characters "HH:MM XM", the hour in 01..12, the
      minute in 00..59, and "AM" exactly for the hours before noon. */
  function FormatTime(hour: nat, minute: nat): (r: string)
    requires hour < 24 && minute < 60
    ensures |r| == 8 && r[2] == ':' && r[5] == ' ' && r[7] == 'M'
    ensures IsDigit(r[0]) && IsDigit(r[1]) && IsDigit(r[3]) && IsDigit(r[4])
    ensures 1 <= DigitValue(r[0]) * 10 + DigitValue(r[1]) <= 12
    ensures DigitValue(r[3]) * 10 + DigitValue(r[4]) == minute
    ensures r[6] == 'A' <==> hour < 12
    ensures r[6] == 'A' || r[6] == 'P'
  {
    TwoDigits(Hour12(hour)) + ":" + TwoDigits(minute) + " " + (if hour < 12 then "AM" else "PM")
  }

  /** Reads "HH:MM XM" back into a 24-hour (hour, minute). */
  function ParseTime(r: string): Option<(nat, nat)>
  {
    if |r| == 8 && IsDigit(r[0]) && IsDigit(r[1]) && r[2] == ':' && IsDigit(r[3]) && IsDigit(r[4])
       && r[5] == ' ' && (r[6] == 'A' || r[6] == 'P') && r[7] == 'M'
    then
      var h12 := DigitValue(r[0]) * 10 + DigitValue(r[1]);
      var minute := DigitValue(r[3]) * 10 + DigitValue(r[4]);
      if h12 < 1 || h12 > 12 || minute > 59 then None
      else if r[6] == 'A' then Some((if h12 == 12 then 0 else h12, minute))
      else Some((if h12 == 12 then 12 else h12 + 12, minute))
    else None
  }

  /** The 12-hour rendering loses nothing: the 24-hour time can be read back. */
  lemma FormatTimeRoundTrip(hour: nat, minute: nat)
    requires hour < 24 && minute < 60
    ensures ParseTime(FormatTime(hour, minute)) == Some((hour, minute))
  {
  }

  /** Midnight is "12 AM", noon "12 PM", and 13h "01 PM". */
  lemma FormatTimeBoundaries(minute: nat)
    requires minute < 60
    ensures FormatTime(0, minute)[..2] == "12" && FormatTime(0, minute)[6..] == "AM"
    ensures FormatTime(12, minute)[..2] == "12" && FormatTime(12, minute)[6..] == "PM"
    ensures FormatTime(13, minute)[..2] == "01" && FormatTime(13, minute)[6..] == "PM"
  {
  }

  /** 21:30 reads "09:30 PM". */
  lemma FormatTimeEvening()
    ensures FormatTime(21, 30) == "09:30 PM"
  {
    assert Hour12(21) == 9;
    assert TwoDigits(9) == "09" && TwoDigits(30) == "30";
  }
}
