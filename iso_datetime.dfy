/** Naive `datetime` values and the ISO 8601 text the history file stores
    them as: `isoformat()` writes "YYYY-MM-DDTHH:MM:SS", followed by
    ".ffffff" only when the microseconds are not zero, and
    `fromisoformat()` reads that text back. */
module IsoDateTime {
  import opened Wrappers
  import opened PyText

  datatype DateTime = DateTime(
    year: int, month: int, day: int,
    hour: int, minute: int, second: int, microsecond: int)

  predicate IsLeapYear(y: int) {
    y % 4 == 0 && (y % 100 != 0 || y % 400 == 0)
  }

  function DaysInMonth(y: int, m: int): int {
    if m == 2 then (if IsLeapYear(y) then 29 else 28)
    else if m == 4 || m == 6 || m == 9 || m == 11 then 30
    else 31
  }

  /** The ranges Python's `datetime` constructor enforces. */
  predicate Valid(d: DateTime) {
    && 1 <= d.year <= 9999
    && 1 <= d.month <= 12
    && 1 <= d.day <= DaysInMonth(d.year, d.month)
    && 0 <= d.hour < 24
    && 0 <= d.minute < 60
    && 0 <= d.second < 60
    && 0 <= d.microsecond < 1000000
  }

  /** A `datetime` object: Python cannot build one outside these ranges. */
  type Timestamp = d: DateTime | Valid(d) witness DateTime(1, 1, 1, 0, 0, 0, 0)

  /** The "YYYY-MM-DDTHH:MM:SS" part `isoformat` always writes. */
  function DateAndTime(d: Timestamp): (s: string)
    ensures |s| == 19
  {
    Fixed(d.year, 4) + "-" + Fixed(d.month, 2) + "-" + Fixed(d.day, 2) + "T"
    + Fixed(d.hour, 2) + ":" + Fixed(d.minute, 2) + ":" + Fixed(d.second, 2)
  }

  /** `d.isoformat()` for a naive datetime. */
  function IsoFormat(d: Timestamp): (s: string)
    ensures |s| == 19 || |s| == 26
  {
    DateAndTime(d) + (if d.microsecond != 0 then "." + Fixed(d.microsecond, 6) else "")
  }

  /** `d.strftime("%Y-%m-%d %H:%M")`, the history table's date cells. */
  function MinuteStamp(d: Timestamp): (s: string)
    ensures |s| == 16
  {
    Fixed(d.year, 4) + "-" + Fixed(d.month, 2) + "-" + Fixed(d.day, 2) + " "
    + Fixed(d.hour, 2) + ":" + Fixed(d.minute, 2)
  }

  /** The minute stamp is the ISO text cut after the minutes, with a space
      in place of the "T": the date and the time agree with what the history
      file stores, and only the seconds are dropped. */
  lemma MinuteStampIsIsoPrefix(d: Timestamp)
    ensures var s := MinuteStamp(d); var iso := IsoFormat(d);
      && s[..10] == iso[..10] && s[10] == ' ' && iso[10] == 'T' && s[11..] == iso[11..16]
  {
    var s := MinuteStamp(d);
    var iso := IsoFormat(d);
    assert iso[..19] == DateAndTime(d);
    DateAndTimeLayout(d, iso);
    assert s[0..4] == Fixed(d.year, 4) && s[5..7] == Fixed(d.month, 2) && s[8..10] == Fixed(d.day, 2);
    assert s[11..13] == Fixed(d.hour, 2) && s[14..16] == Fixed(d.minute, 2);
    assert s[..10] == s[0..4] + "-" + s[5..7] + "-" + s[8..10];
    assert iso[..10] == iso[0..4] + "-" + iso[5..7] + "-" + iso[8..10];
    assert s[11..] == s[11..13] + ":" + s[14..16];
    assert iso[11..16] == iso[11..13] + ":" + iso[14..16];
  }

  /** The number in `s[lo..hi]` when that slice is all digits. */
  function FieldAt(s: string, lo: nat, hi: nat): Option<nat>
    requires lo <= hi <= |s|
  {
    if AllDigits(s[lo..hi]) then Some(DigitsValue(s[lo..hi])) else None
  }

  /** `datetime.fromisoformat(s)` restricted to the two shapes `isoformat`
      produces; a malformed or out-of-range text raises ValueError (None). */
  function FromIsoFormat(s: string): (r: Option<Timestamp>)
    ensures r.Some? ==> |s| == 19 || |s| == 26
  {
    if !(|s| == 19 || (|s| == 26 && s[19] == '.')) then None
    else if s[4] != '-' || s[7] != '-' || s[10] != 'T' || s[13] != ':' || s[16] != ':' then None
    else
      var year := FieldAt(s, 0, 4);
      var month := FieldAt(s, 5, 7);
      var day := FieldAt(s, 8, 10);
      var hour := FieldAt(s, 11, 13);
      var minute := FieldAt(s, 14, 16);
      var second := FieldAt(s, 17, 19);
      var micro := if |s| == 26 then FieldAt(s, 20, 26) else Some(0);
      if year.None? || month.None? || day.None? || hour.None? || minute.None? || second.None? || micro.None? then None
      else
        var d := DateTime(year.value, month.value, day.value, hour.value, minute.value, second.value, micro.value);
        if Valid(d) then Some(d) else None
  }

  lemma FixedFieldRoundTrip(s: string, lo: nat, n: nat, width: nat)
    requires n < Pow10(width) && lo + width <= |s|
    requires s[lo..lo + width] == Fixed(n, width)
    ensures FieldAt(s, lo, lo + width) == Some(n)
  {
    FixedRoundTrip(n, width);
  }

  /** Where each field of the date-and-time part sits. */
  lemma DateAndTimeLayout(d: Timestamp, s: string)
    requires |s| >= 19 && s[..19] == DateAndTime(d)
    ensures s[0..4] == Fixed(d.year, 4) && s[5..7] == Fixed(d.month, 2)
    ensures s[8..10] == Fixed(d.day, 2) && s[11..13] == Fixed(d.hour, 2)
    ensures s[14..16] == Fixed(d.minute, 2) && s[17..19] == Fixed(d.second, 2)
    ensures s[4] == '-' && s[7] == '-' && s[10] == 'T' && s[13] == ':' && s[16] == ':'
  {
    var p := DateAndTime(d);
    assert s[0..4] == p[0..4] && s[5..7] == p[5..7] && s[8..10] == p[8..10];
    assert s[11..13] == p[11..13] && s[14..16] == p[14..16] && s[17..19] == p[17..19];
  }

  /** Reading back what `isoformat` wrote gives the same datetime. */
  lemma IsoRoundTrip(d: Timestamp)
    ensures FromIsoFormat(IsoFormat(d)) == Some(d)
  {
    var s := IsoFormat(d);
    assert s[..19] == DateAndTime(d);
    DateAndTimeLayout(d, s);
    assert Pow10(2) == 100 && Pow10(4) == 10000 && Pow10(6) == 1000000;
    FixedFieldRoundTrip(s, 0, d.year, 4);
    FixedFieldRoundTrip(s, 5, d.month, 2);
    FixedFieldRoundTrip(s, 8, d.day, 2);
    FixedFieldRoundTrip(s, 11, d.hour, 2);
    FixedFieldRoundTrip(s, 14, d.minute, 2);
    FixedFieldRoundTrip(s, 17, d.second, 2);
    if d.microsecond != 0 {
      assert s[19] == '.' && s[20..26] == Fixed(d.microsecond, 6);
      FixedFieldRoundTrip(s, 20, d.microsecond, 6);
    }
  }

  /** Two datetimes with the same ISO text are equal: `isoformat` is
      injective, so the file keeps every timestamp apart. */
  lemma IsoFormatInjective(d1: Timestamp, d2: Timestamp)
    requires IsoFormat(d1) == IsoFormat(d2)
    ensures d1 == d2
  {
    IsoRoundTrip(d1);
    IsoRoundTrip(d2);
  }
}
