/** Calendar dates as the pages and the ranking read them.

    The pages turn the text of a date field into a local `Date` with
    `toDate` ("YYYY-MM-DD" split on '-', each part through `Number`, then
    `new Date(year, month - 1, day)`), and back with `fromDate`. The ranking
    and the activity form instead call `new Date(text)` on the stored text,
    which reads an ISO date and is an invalid date (NaN) otherwise. Both are
    modelled as calendar dates in one time zone. */
module Dates {
  import opened Wrappers
  import opened Text

  datatype CalendarDate = CalendarDate(year: nat, month: nat, day: nat)

  predicate IsLeapYear(y: nat)
  {
    (y % 4 == 0 && y % 100 != 0) || y % 400 == 0
  }

  function DaysInMonth(y: nat, m: nat): (n: nat)
    requires 1 <= m <= 12
    ensures 28 <= n <= 31
  {
    if m == 2 then (if IsLeapYear(y) then 29 else 28)
    else if m == 4 || m == 6 || m == 9 || m == 11 then 30
    else 31
  }

  /** A day that exists in the proleptic Gregorian calendar. */
  predicate ValidDate(d: CalendarDate)
  {
    1 <= d.month <= 12 && 1 <= d.day <= DaysInMonth(d.year, d.month)
  }

  /** `a < b` on two valid dates: `a` is an earlier day. */
  predicate Before(a: CalendarDate, b: CalendarDate)
  {
    a.year < b.year
    || (a.year == b.year && (a.month < b.month || (a.month == b.month && a.day < b.day)))
  }

  /** `Before` is a strict total order, so `a < b`, `a > b` and `a >= b` on
      dates mean what they say. */
  lemma {:induction false} BeforeIsStrictTotalOrder(a: CalendarDate, b: CalendarDate, c: CalendarDate)
    ensures !Before(a, a)
    ensures Before(a, b) && Before(b, c) ==> Before(a, c)
    ensures a == b || Before(a, b) || Before(b, a)
    ensures !(Before(a, b) && Before(b, a))
  {
  }

  /** Moves a day number beyond the end of its month into the following
      months, as `new Date(y, m, d)` does. */
  function CarryDays(y: nat, m: nat, d: nat): (r: CalendarDate)
    requires 1 <= m <= 12 && d >= 1
    ensures ValidDate(r)
    ensures d <= DaysInMonth(y, m) ==> r == CalendarDate(y, m, d)
    ensures r == CalendarDate(y, m, d) || Before(CalendarDate(y, m, d), r)
    decreases d
  {
    var n := DaysInMonth(y, m);
    if d <= n then CalendarDate(y, m, d)
    else if m == 12 then CarryDays(y + 1, 1, d - n)
    else CarryDays(y, m + 1, d - n)
  }

  /** The full year `new Date(year, ...)` uses: 0 to 99 mean 1900 to 1999. */
  function FullYear(year: nat): (y: nat)
    ensures year <= 99 ==> y == 1900 + year
    ensures year > 99 ==> y == year
  {
    if year <= 99 then 1900 + year else year
  }

  /** `new Date(year, month - 1, day)` for positive parts: months past
      December move into later years and days past the end of the month into
      later months. */
  function LocalDate(year: nat, month: nat, day: nat): (r: CalendarDate)
    requires year >= 1 && month >= 1 && day >= 1
    ensures ValidDate(r)
    ensures ValidDate(CalendarDate(FullYear(year), month, day)) ==> r == CalendarDate(FullYear(year), month, day)
  {
    CarryDays(FullYear(year) + (month - 1) / 12, (month - 1) % 12 + 1, day)
  }

  /** `Number(parts[i])`, where a missing part is `undefined` and gives `NaN`. */
  function PartNumber(parts: seq<string>, i: nat): JsNumber
  {
    if i < |parts| then ToNumber(parts[i]) else NaN
  }

  /** The pages' `toDate(value)`: the empty text and any text whose year,
      month or day is missing, 0 or not a number give no date. */
  function ToDate(s: string): (r: Option<CalendarDate>)
    ensures r.Some? ==> ValidDate(r.value)
    ensures s == "" ==> r == None
  {
    if s == "" then None
    else
      var parts := Split(s, '-');
      var year, month, day := PartNumber(parts, 0), PartNumber(parts, 1), PartNumber(parts, 2);
      if year.Truthy() && month.Truthy() && day.Truthy() then Some(LocalDate(year.n, month.n, day.n))
      else None
  }

  /** The pages' `fromDate(value)`: no date gives the empty text, a date gives
      its year, then its month and day padded to two digits. */
  function FromDate(v: Option<CalendarDate>): string
  {
    match v
    case None => ""
    case Some(d) => NatToString(d.year) + "-" + PadStart2(NatToString(d.month)) + "-" + PadStart2(NatToString(d.day))
  }

  /** The text of a month or day from 1 to 99, padded as `fromDate` pads it. */
  lemma {:induction false} PaddedNumber(n: nat)
    requires 1 <= n < 100
    ensures var t := PadStart2(NatToString(n));
      |t| == 2 && AllDigits(t) && ToNumber(t) == Num(n)
  {
    var s := NatToString(n);
    NatToStringLength(n);
    DigitsOfNatToString(n);
    var t := PadStart2(s);
    if |s| < 2 {
      LeadingZero(s);
    }
    TrimDigits(t);
  }

  /** Digits are not white space, so `Number` reads a run of digits whole. */
  lemma {:induction false} TrimDigits(t: string)
    requires t != [] && AllDigits(t)
    ensures ToNumber(t) == Num(DigitsValue(t))
  {
    TrimOfNonSpace(t);
  }

  /** Digits contain no separator. */
  lemma {:induction false} DigitsHaveNoDash(t: string)
    requires AllDigits(t)
    ensures '-' !in t
  {
  }

  /** Splitting three dash-free pieces joined by dashes gives them back. */
  lemma {:induction false} SplitThree(y: string, m: string, d: string)
    requires '-' !in y && '-' !in m && '-' !in d
    ensures Split(y + "-" + m + "-" + d, '-') == [y, m, d]
  {
    assert y + "-" + m + "-" + d == y + ['-'] + (m + ['-'] + d);
    SplitAtFirstSeparator(y, '-', m + ['-'] + d);
    SplitAtFirstSeparator(m, '-', d);
    SplitWithoutSeparator(d, '-');
  }

  /** `toDate` on a text whose three parts read as the given positive numbers. */
  lemma {:induction false} ToDateOfParts(s: string, y: string, m: string, d: string, year: nat, month: nat, day: nat)
    requires s != "" && Split(s, '-') == [y, m, d]
    requires ToNumber(y) == Num(year) && ToNumber(m) == Num(month) && ToNumber(d) == Num(day)
    requires year >= 1 && month >= 1 && day >= 1
    ensures ToDate(s) == Some(LocalDate(year, month, day))
  {
    var parts := Split(s, '-');
    assert PartNumber(parts, 0) == Num(year);
    assert PartNumber(parts, 1) == Num(month);
    assert PartNumber(parts, 2) == Num(day);
  }

  /** `toDate` reads back what `fromDate` wrote, for every real date from the
      year 100 on (earlier years would be read as 1900 and later). */
  lemma {:induction false} ToDateOfFromDate(d: CalendarDate)
    requires ValidDate(d) && d.year >= 100
    ensures ToDate(FromDate(Some(d))) == Some(d)
  {
    var y, m, dd := NatToString(d.year), PadStart2(NatToString(d.month)), PadStart2(NatToString(d.day));
    PaddedNumber(d.month);
    PaddedNumber(d.day);
    DigitsOfNatToString(d.year);
    TrimDigits(y);
    DigitsHaveNoDash(y);
    DigitsHaveNoDash(m);
    DigitsHaveNoDash(dd);
    SplitThree(y, m, dd);
    assert FromDate(Some(d)) == y + "-" + m + "-" + dd;
    ToDateOfParts(FromDate(Some(d)), y, m, dd, d.year, d.month, d.day);
  }

  /** `fromDate(toDate(text))` gives back every text `fromDate` can write. */
  lemma {:induction false} FromDateIsCanonical(d: CalendarDate)
    requires ValidDate(d) && d.year >= 100
    ensures FromDate(ToDate(FromDate(Some(d)))) == FromDate(Some(d))
  {
    ToDateOfFromDate(d);
  }

  /** The value of `new Date(text)`: a day, or the invalid date. */
  datatype Instant = Valid(date: CalendarDate) | Invalid

  /** `new Date(text)` for a date-only ISO text "YYYY-MM-DD"; any other text,
      and a month or day out of range, is the invalid date. */
  function ParseIsoDate(s: string): (r: Instant)
    ensures r.Valid? ==> ValidDate(r.date) && |s| == 10
  {
    if |s| == 10 && s[4] == '-' && s[7] == '-' && AllDigits(s[..4]) && AllDigits(s[5..7]) && AllDigits(s[8..]) then
      var d := CalendarDate(DigitsValue(s[..4]), DigitsValue(s[5..7]), DigitsValue(s[8..]));
      if ValidDate(d) then Valid(d) else Invalid
    else Invalid
  }

  /** A comparison `a < b` between two `Date` values: any comparison with an
      invalid date is false. */
  predicate Earlier(a: Instant, b: Instant)
  {
    a.Valid? && b.Valid? && Before(a.date, b.date)
  }

  /** The day of a `toISOString()` timestamp "YYYY-MM-DDTHH:mm:ss.sssZ". */
  function TimestampDay(ts: string): (r: Instant)
    ensures r.Valid? ==> ValidDate(r.date)
  {
    if |ts| >= 10 && (|ts| == 10 || ts[10] == 'T') then ParseIsoDate(ts[..10]) else Invalid
  }

  /** On the text `fromDate` writes for a four-digit year, `new Date(text)`
      and `toDate(text)` name the same day. */
  lemma {:induction false} IsoAgreesWithToDate(d: CalendarDate)
    requires ValidDate(d) && 1000 <= d.year <= 9999
    ensures ParseIsoDate(FromDate(Some(d))) == Valid(d)
    ensures ToDate(FromDate(Some(d))) == Some(d)
  {
    ToDateOfFromDate(d);
    var y, m, dd := NatToString(d.year), PadStart2(NatToString(d.month)), PadStart2(NatToString(d.day));
    NatToStringLength(d.year);
    DigitsOfNatToString(d.year);
    PaddedNumber(d.month);
    PaddedNumber(d.day);
    TrimDigits(m);
    TrimDigits(dd);
    var s := FromDate(Some(d));
    assert s == y + "-" + m + "-" + dd;
    IsoOfParts(s, y, m, dd);
  }

  /** `new Date(text)` on a four-digit year, a dash, two digits, a dash and two digits. */
  lemma {:induction false} IsoOfParts(s: string, y: string, m: string, d: string)
    requires s == y + "-" + m + "-" + d
    requires |y| == 4 && |m| == 2 && |d| == 2 && AllDigits(y) && AllDigits(m) && AllDigits(d)
    ensures var date := CalendarDate(DigitsValue(y), DigitsValue(m), DigitsValue(d));
      ParseIsoDate(s) == if ValidDate(date) then Valid(date) else Invalid
  {
    IsoLayout(s, y, m, d);
  }

  /** Where the pieces of "YYYY-MM-DD" sit in the text. */
  lemma {:induction false} IsoLayout(s: string, y: string, m: string, d: string)
    requires s == y + "-" + m + "-" + d
    requires |y| == 4 && |m| == 2 && |d| == 2
    ensures |s| == 10 && s[4] == '-' && s[7] == '-'
    ensures s[..4] == y && s[5..7] == m && s[8..] == d
  {
  }
}
