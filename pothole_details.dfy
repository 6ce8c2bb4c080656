/** The details panel of a report: its creation date as DD/MM/YYYY and a
    link that opens the report's position in a maps service. Decoding the
    timestamp into calendar fields depends on the browser's time zone, so
    the fields are inputs here; so are the decimal renderings of latitude
    and longitude. */
module PotholeDetails {
  import opened Common

  /** The calendar fields the panel reads off the timestamp: the day of the
      month, the month index as `getMonth()` returns it (0 to 11) and the
      full year. */
  datatype CalendarDate = CalendarDate(day: nat, monthIndex: nat, year: int)

  predicate ValidFields(d: CalendarDate)
  {
    1 <= d.day <= 31 && d.monthIndex < 12
  }

  /** Where the three fields sit in a line laid out as `dd/mm/year`. */
  lemma LayoutParts(dd: string, mm: string, ys: string)
    requires |dd| == 2 && |mm| == 2
    ensures var r := dd + "/" + mm + "/" + ys;
            && |r| == 6 + |ys| && r[..2] == dd && r[2] == '/' && r[3..5] == mm && r[5] == '/' && r[6..] == ys
  {
  }

  /** `formattedDate`: zero-padded day, zero-padded 1-based month and the
      year as it is, separated by '/'. */
  function FormattedDate(d: CalendarDate): (r: string)
    requires ValidFields(d)
    ensures |r| == 6 + |IntToString(d.year)| && r[2] == '/' && r[5] == '/'
    ensures AllDigits(r[..2]) && DecimalValue(r[..2]) == d.day
    ensures AllDigits(r[3..5]) && DecimalValue(r[3..5]) == d.monthIndex + 1
    ensures r[6..] == IntToString(d.year)
  {
    var dd := TwoDigits(d.day);
    var mm := TwoDigits(d.monthIndex + 1);
    LayoutParts(dd, mm, IntToString(d.year));
    dd + "/" + mm + "/" + IntToString(d.year)
  }

  /** Reads a whole number written with an optional leading '-'. */
  function ParseYear(s: string): Option<int>
  {
    if s != [] && AllDigits(s) then Some(DecimalValue(s))
    else if |s| >= 2 && s[0] == '-' && AllDigits(s[1..]) then Some(0 - DecimalValue(s[1..]) as int)
    else None
  }

  /** The year's rendering reads back as the year, sign included. */
  lemma YearRoundTrip(year: int)
    ensures ParseYear(IntToString(year)) == Some(year)
  {
    var s := IntToString(year);
    if year < 0 {
      assert !IsDigit(s[0]);
    }
  }

  /** Reads a `DD/MM/Y…` line back into its calendar fields; None when the
      text does not have that shape. */
  function ParseDate(s: string): Option<CalendarDate>
  {
    if |s| < 7 || s[2] != '/' || s[5] != '/' || !AllDigits(s[..2]) || !AllDigits(s[3..5]) then None
    else if DecimalValue(s[3..5]) < 1 || ParseYear(s[6..]).None? then None
    else Some(CalendarDate(DecimalValue(s[..2]), DecimalValue(s[3..5]) - 1, ParseYear(s[6..]).value))
  }

  /** The line names the date it was made from: day, 1-based month and the
      whole year, none of them lost or shifted. */
  lemma DateRoundTrip(d: CalendarDate)
    requires ValidFields(d)
    ensures ParseDate(FormattedDate(d)) == Some(d)
  {
    YearRoundTrip(d.year);
  }

  /** A two-digit string whose value is below 10 starts with '0'. */
  lemma LeadingZeroOfSmall(s: string)
    requires |s| == 2 && AllDigits(s) && DecimalValue(s) < 10
    ensures s[0] == '0'
  {
    assert s[..1][..0] == [];
    assert DecimalValue(s[..1]) == s[0] as int - '0' as int;
  }

  /** Day and month always take two digits, zero-padded; the year is not
      padded: a year from 0 to 999 takes fewer than four digits. */
  lemma DatePadding(d: CalendarDate)
    requires ValidFields(d)
    ensures d.day < 10 ==> FormattedDate(d)[0] == '0'
    ensures d.monthIndex < 9 ==> FormattedDate(d)[3] == '0'
    ensures 0 <= d.year < 1000 ==> |FormattedDate(d)| < 10
  {
    var r := FormattedDate(d);
    if d.day < 10 {
      LeadingZeroOfSmall(r[..2]);
    }
    if d.monthIndex < 9 {
      LeadingZeroOfSmall(r[3..5]);
    }
    if 0 <= d.year < 1000 {
      ShortYear(d.year);
    }
  }

  /** A year below 1000 renders in at most three digits. */
  lemma {:induction false} ShortYear(year: nat)
    requires year < 1000
    ensures |NatToString(year)| <= 3
  {
    if year >= 10 {
      NatToStringLength(year / 10);
    }
  }

  const MapsPrefix: string := "https://www.google.com/maps?q="
  const MapsSuffix: string := "&z=19"

  /** The maps link: `q=` carries latitude then longitude, separated by a
      comma, and the zoom is 19. */
  function MapsLink(latText: string, lonText: string): (url: string)
    ensures |url| == |MapsPrefix| + |latText| + 1 + |lonText| + |MapsSuffix|
    ensures url[..|MapsPrefix|] == MapsPrefix && url[|url| - |MapsSuffix|..] == MapsSuffix
    ensures url[|MapsPrefix| + |latText|] == ','
  {
    MapsPrefix + latText + "," + lonText + MapsSuffix
  }

  /** Reads the query of a maps link back into its two coordinate texts. */
  function ParseMapsLink(url: string): Option<(string, string)>
  {
    if |url| < |MapsPrefix| + |MapsSuffix| || url[..|MapsPrefix|] != MapsPrefix
       || url[|url| - |MapsSuffix|..] != MapsSuffix then None
    else
      var parts := Split(url[|MapsPrefix|..|url| - |MapsSuffix|], ',');
      if |parts| == 2 then Some((parts[0], parts[1])) else None
  }

  /** A link made from two renderings without commas (decimal renderings of
      numbers have none) reads back as latitude first, longitude second. */
  lemma MapsLinkRoundTrip(latText: string, lonText: string)
    requires ',' !in latText && ',' !in lonText
    ensures ParseMapsLink(MapsLink(latText, lonText)) == Some((latText, lonText))
  {
    var url := MapsLink(latText, lonText);
    assert url[..|MapsPrefix|] == MapsPrefix;
    assert url[|url| - |MapsSuffix|..] == MapsSuffix;
    var query := url[|MapsPrefix|..|url| - |MapsSuffix|];
    assert query == latText + [','] + lonText;
    SplitAfterFirst(latText, lonText, ',');
    SplitWithoutSeparator(lonText, ',');
  }
}
