/** The board's queue of proofs awaiting review: each pending submission
    joined with its activity and unit, filtered by unit, activity and the
    day it was sent. */
module PendingReviewsPage {
  import opened Wrappers
  import opened Models
  import opened Seqs
  import opened Dates
  import opened Submissions

  datatype PendingRow = PendingRow(submission: ProofSubmission, activity: Activity, unit: Unit)

  function FindUnit(units: seq<Unit>, id: Id): (r: Option<Unit>)
    ensures r.Some? ==> r.value.id == id && r.value in units
    ensures r.None? <==> forall j :: 0 <= j < |units| ==> units[j].id != id
  {
    Find(units, (u: Unit) => u.id == id)
  }

  /** A pending submission whose activity and unit are both found. */
  predicate Joinable(s: ProofSubmission, activities: seq<Activity>, units: seq<Unit>)
  {
    s.status == PendenteAvaliacao && FindActivity(activities, s.activityId).Some? && FindUnit(units, s.unitId).Some?
  }

  function RowOf(s: ProofSubmission, activities: seq<Activity>, units: seq<Unit>): PendingRow
    requires Joinable(s, activities, units)
  {
    PendingRow(s, FindActivity(activities, s.activityId).value, FindUnit(units, s.unitId).value)
  }

  /** `rows`: the pending submissions, each mapped to its row, and the ones
      whose activity or unit is missing dropped. */
  function Rows(subs: seq<ProofSubmission>, activities: seq<Activity>, units: seq<Unit>): seq<PendingRow>
  {
    if subs == [] then []
    else
      var rest := Rows(subs[1..], activities, units);
      if Joinable(subs[0], activities, units) then [RowOf(subs[0], activities, units)] + rest else rest
  }

  function RowSubmissions(rows: seq<PendingRow>): (r: seq<ProofSubmission>)
    ensures |r| == |rows| && forall i :: 0 <= i < |rows| ==> r[i] == rows[i].submission
  {
    seq(|rows|, i requires 0 <= i < |rows| => rows[i].submission)
  }

  /** The rows are exactly the pending submissions whose activity and unit
      exist, in the submissions' order, each with the activity and unit it
      names. */
  lemma {:induction false} RowsAreTheJoinablePending(subs: seq<ProofSubmission>, activities: seq<Activity>, units: seq<Unit>)
    ensures RowSubmissions(Rows(subs, activities, units)) == Filter(subs, (s: ProofSubmission) => Joinable(s, activities, units))
    ensures forall r :: r in Rows(subs, activities, units) ==>
      Joinable(r.submission, activities, units) && r == RowOf(r.submission, activities, units)
  {
    RowsFollowTheFilter(subs, activities, units);
    RowsAreJoined(subs, activities, units);
  }

  lemma {:induction false} RowsFollowTheFilter(subs: seq<ProofSubmission>, activities: seq<Activity>, units: seq<Unit>)
    ensures RowSubmissions(Rows(subs, activities, units)) == Filter(subs, (s: ProofSubmission) => Joinable(s, activities, units))
  {
    if subs != [] {
      RowsFollowTheFilter(subs[1..], activities, units);
      if Joinable(subs[0], activities, units) {
        RowSubmissionsCons(RowOf(subs[0], activities, units), Rows(subs[1..], activities, units));
      }
    }
  }

  lemma {:induction false} RowSubmissionsCons(row: PendingRow, rest: seq<PendingRow>)
    ensures RowSubmissions([row] + rest) == [row.submission] + RowSubmissions(rest)
  {
  }

  lemma {:induction false} RowsAreJoined(subs: seq<ProofSubmission>, activities: seq<Activity>, units: seq<Unit>)
    ensures forall r :: r in Rows(subs, activities, units) ==>
      Joinable(r.submission, activities, units) && r == RowOf(r.submission, activities, units)
  {
    if subs != [] {
      RowsAreJoined(subs[1..], activities, units);
    }
  }

  /** The row filters; an empty unit or activity filter and no chosen day
      constrain nothing, and a row without a send time passes the day filter. */
  predicate RowMatches(row: PendingRow, unit: string, activity: string, day: Option<CalendarDate>)
  {
    (unit == "" || row.unit.id == unit)
    && (activity == "" || row.activity.id == activity)
    && (day.None? || !Truthy(row.submission.submittedAt) || TimestampDay(row.submission.submittedAt.value) == Valid(day.value))
  }

  /** `filteredRows`. */
  function FilteredRows(rows: seq<PendingRow>, unitFilter: string, activityFilter: string, dateFilter: string): seq<PendingRow>
  {
    var day := ToDate(dateFilter);
    Filter(rows, (r: PendingRow) => RowMatches(r, unitFilter, activityFilter, day))
  }

  /** The filtered rows are the rows every filter keeps, in the same order. */
  lemma {:induction false} FilteredRowsMeaning(rows: seq<PendingRow>, unitFilter: string, activityFilter: string, dateFilter: string)
    ensures var r := FilteredRows(rows, unitFilter, activityFilter, dateFilter);
      Subsequence(r, rows)
      && forall row :: row in r <==> row in rows && RowMatches(row, unitFilter, activityFilter, ToDate(dateFilter))
  {
    FilterKeepsOrder(rows, (r: PendingRow) => RowMatches(r, unitFilter, activityFilter, ToDate(dateFilter)));
  }

  /** With every filter empty the queue shows every row. */
  lemma {:induction false} EmptyFiltersShowAllRows(rows: seq<PendingRow>)
    ensures FilteredRows(rows, "", "", "") == rows
  {
    FilterKeepsAll(rows, (r: PendingRow) => RowMatches(r, "", "", ToDate("")));
  }

  /** A timestamp of a day written as `toISOString()` writes it falls on that day. */
  lemma {:induction false} TimestampOfDay(d: CalendarDate, rest: string)
    requires ValidDate(d) && 1000 <= d.year <= 9999
    ensures TimestampDay(FromDate(Some(d)) + "T" + rest) == Valid(d)
  {
    IsoAgreesWithToDate(d);
    var text := FromDate(Some(d));
    var ts := text + "T" + rest;
    assert |text| == 10;
    assert ts[..10] == text && ts[10] == 'T';
  }

  /** Picking a day in the date field keeps the rows sent on that day and
      drops those sent on another. */
  lemma {:induction false} DayFilterMeaning(row: PendingRow, d: CalendarDate, rest: string)
    requires ValidDate(d) && 1000 <= d.year <= 9999
    ensures var day := ToDate(FromDate(Some(d)));
      var sent := row.submission.submittedAt;
      (sent == Some(FromDate(Some(d)) + "T" + rest) ==> RowMatches(row, "", "", day))
      && (sent.Some? && TimestampDay(sent.value).Valid? && TimestampDay(sent.value).date != d ==> !RowMatches(row, "", "", day))
  {
    IsoAgreesWithToDate(d);
    TimestampOfDay(d, rest);
  }

  /** As written, picking a day does not refresh the list: a row sent on
      another day stays shown although the day filter drops it. */
  lemma {:induction false} StaleDayFilterKeepsOtherDays(row: PendingRow, d: CalendarDate, other: CalendarDate, rest: string)
    requires ValidDate(d) && 1000 <= d.year <= 9999
    requires ValidDate(other) && 1000 <= other.year <= 9999 && other != d
    requires row.submission.submittedAt == Some(FromDate(Some(other)) + "T" + rest)
    ensures FilteredRows([row], "", "", "") == [row]
    ensures FilteredRows([row], "", "", FromDate(Some(d))) == []
  {
    TimestampOfDay(other, rest);
    DayFilterMeaning(row, d, rest);
    assert !RowMatches(row, "", "", ToDate(FromDate(Some(d))));
  }

  /** `PendingReviewsPageComponent`'s filters. `unitFilter` and
      `activityFilter` are signals, so setting either to a new value re-runs
      `filteredRows`; `dateFilter` is a plain field, and
      `appliedDateFilter` is the value `filteredRows` read when it last ran. */
  class PendingReviewsPageComponent {
    var unitFilter: string
    var activityFilter: string
    var dateFilter: string
    var appliedDateFilter: string

    constructor()
      ensures unitFilter == "" && activityFilter == "" && dateFilter == "" && appliedDateFilter == ""
      ensures Current()
    {
      unitFilter, activityFilter, dateFilter, appliedDateFilter := "", "", "", "";
    }

    /** The list shows what all three filters ask for. */
    predicate Current()
      reads this
    {
      appliedDateFilter == dateFilter
    }

    /** The rows on screen: `filteredRows` as it last ran over the current lists. */
    function Shown(subs: seq<ProofSubmission>, activities: seq<Activity>, units: seq<Unit>): seq<PendingRow>
      reads this
    {
      FilteredRows(Rows(subs, activities, units), unitFilter, activityFilter, appliedDateFilter)
    }

    /** `setUnitFilter(value)`: a multiple choice is ignored, and setting the
        value the signal already holds re-runs nothing. */
    method SetUnitFilter(choice: FilterChoice)
      modifies this
      ensures unitFilter == (if choice.Single? then choice.value else old(unitFilter))
      ensures activityFilter == old(activityFilter) && dateFilter == old(dateFilter)
      ensures appliedDateFilter == (if choice.Single? && choice.value != old(unitFilter) then dateFilter else old(appliedDateFilter))
      ensures old(Current()) ==> Current()
    {
      if choice.Single? && choice.value != unitFilter {
        unitFilter := choice.value;
        appliedDateFilter := dateFilter;
      }
    }

    /** `setActivityFilter(value)`, likewise. */
    method SetActivityFilter(choice: FilterChoice)
      modifies this
      ensures activityFilter == (if choice.Single? then choice.value else old(activityFilter))
      ensures unitFilter == old(unitFilter) && dateFilter == old(dateFilter)
      ensures appliedDateFilter == (if choice.Single? && choice.value != old(activityFilter) then dateFilter else old(appliedDateFilter))
      ensures old(Current()) ==> Current()
    {
      if choice.Single? && choice.value != activityFilter {
        activityFilter := choice.value;
        appliedDateFilter := dateFilter;
      }
    }

    /** A change of the submissions, activities or units re-runs `filteredRows`. */
    method ListsChanged()
      modifies this
      ensures unitFilter == old(unitFilter) && activityFilter == old(activityFilter) && dateFilter == old(dateFilter)
      ensures Current()
    {
      appliedDateFilter := dateFilter;
    }

    /** `(dateChange)="dateFilter = fromDate($event)"` as written: the field
        changes and the list on screen does not. */
    method SetDateFilter(value: string)
      modifies this
      ensures dateFilter == value
      ensures unitFilter == old(unitFilter) && activityFilter == old(activityFilter)
      ensures appliedDateFilter == old(appliedDateFilter)
      ensures forall subs, activities, units :: Shown(subs, activities, units) == old(Shown(subs, activities, units))
    {
      dateFilter := value;
    }

    /** The date filter as a signal, as the other two are: the list follows
        the picked day at once. */
    method SetDateFilterApplied(value: string)
      modifies this
      ensures dateFilter == value && Current()
      ensures unitFilter == old(unitFilter) && activityFilter == old(activityFilter)
      ensures forall subs, activities, units :: Shown(subs, activities, units) == FilteredRows(Rows(subs, activities, units), unitFilter, activityFilter, value)
    {
      dateFilter := value;
      appliedDateFilter := value;
    }
  }

  /** As written, on a freshly opened queue, picking a day leaves a row
      sent on another day on screen, although the picked day drops it. */
  method PickedDayLeavesOtherDaysShown(subs: seq<ProofSubmission>, activities: seq<Activity>, units: seq<Unit>,
                                       row: PendingRow, d: CalendarDate, other: CalendarDate, rest: string)
    returns (page: PendingReviewsPageComponent)
    requires row in Rows(subs, activities, units)
    requires ValidDate(d) && 1000 <= d.year <= 9999
    requires ValidDate(other) && 1000 <= other.year <= 9999 && other != d
    requires row.submission.submittedAt == Some(FromDate(Some(other)) + "T" + rest)
    ensures page.dateFilter == FromDate(Some(d))
    ensures row in page.Shown(subs, activities, units)
    ensures !RowMatches(row, page.unitFilter, page.activityFilter, ToDate(page.dateFilter))
  {
    page := new PendingReviewsPageComponent();
    page.SetDateFilter(FromDate(Some(d)));
    EmptyFiltersShowAllRows(Rows(subs, activities, units));
    TimestampOfDay(other, rest);
    DayFilterMeaning(row, d, rest);
  }
}
