/** The ranking board: the ranking for the period chosen in two date
    pickers, and its first three entries as the podium. */
module RankingBoardPage {
  import opened Wrappers
  import opened Models
  import opened Seqs
  import opened Dates
  import opened MockDb
  import opened Ranking

  /** The range the page asks for: an empty field is `undefined`. */
  function RangeFor(periodStart: string, periodEnd: string): PeriodRange
  {
    PeriodRange(if periodStart == "" then None else Some(periodStart),
                if periodEnd == "" then None else Some(periodEnd))
  }

  /** `topThree`: `slice(0, 3)`. */
  function TopThree(ranking: seq<RankingEntry>): seq<RankingEntry>
  {
    Take(ranking, 3)
  }

  /** A blank field is no bound, and any other text is that text read as a
      date. */
  lemma {:induction false} RangeForMeaning(periodStart: string, periodEnd: string)
    ensures var range := Some(RangeFor(periodStart, periodEnd));
      Bound(range, true) == (if periodStart == "" then None else Some(ParseIsoDate(periodStart)))
      && Bound(range, false) == (if periodEnd == "" then None else Some(ParseIsoDate(periodEnd)))
  {
  }

  /** With both pickers blank the board shows the ranking of every activity. */
  lemma {:induction false} BlankPeriodShowsFullRanking(state: DbState)
    ensures ComputeRanking(state, Some(RangeFor("", ""))) == ComputeRanking(state, None)
  {
    NoBoundsKeepAll(state.activities, Some(RangeFor("", "")));
    NoBoundsKeepAll(state.activities, None);
  }

  /** For two days picked in the calendars, the end not before the start,
      the ranking counts an activity with well-formed dates exactly when it
      shares a day with the period. */
  lemma {:induction false} PickedPeriodSelectsOverlapping(activities: seq<Activity>, a: Activity, s: CalendarDate, e: CalendarDate)
    requires ValidDate(s) && 1000 <= s.year <= 9999 && ValidDate(e) && 1000 <= e.year <= 9999
    requires !Before(e, s)
    requires ParseIsoDate(a.dataInicio).Valid? && ParseIsoDate(a.dataFinal).Valid?
    requires !Before(ParseIsoDate(a.dataFinal).date, ParseIsoDate(a.dataInicio).date)
    ensures var range := Some(RangeFor(FromDate(Some(s)), FromDate(Some(e))));
      var ai, af := ParseIsoDate(a.dataInicio).date, ParseIsoDate(a.dataFinal).date;
      a in ValidActivities(activities, range) <==>
        a in activities && exists d :: Within(d, ai, af) && Within(d, s, e)
  {
    PickedBounds(s, e);
    InPeriodIffOverlap(a, s, e);
  }

  /** Two picked days bound the range at those days. */
  lemma {:induction false} PickedBounds(s: CalendarDate, e: CalendarDate)
    requires ValidDate(s) && 1000 <= s.year <= 9999 && ValidDate(e) && 1000 <= e.year <= 9999
    ensures var range := Some(RangeFor(FromDate(Some(s)), FromDate(Some(e))));
      Bound(range, true) == Some(Valid(s)) && Bound(range, false) == Some(Valid(e))
  {
    IsoAgreesWithToDate(s);
    IsoAgreesWithToDate(e);
  }

  /** The podium holds the first three entries of the ranking (fewer when
      there are fewer units), and none of them has a lower total than any
      entry that follows it. */
  lemma {:induction false} TopThreeLead(state: DbState, range: Option<PeriodRange>)
    ensures var r := ComputeRanking(state, range);
      var podium := TopThree(r);
      |podium| == (if |state.units| < 3 then |state.units| else 3)
      && podium == r[..|podium|]
      && forall i, j :: 0 <= i < |podium| && i < j < |r| ==> podium[i].total >= r[j].total
  {
    RankingShape(state, range);
    var r := ComputeRanking(state, range);
    var podium := TopThree(r);
    assert podium == r[..|podium|];
    forall i, j | 0 <= i < |podium| && i < j < |r| ensures podium[i].total >= r[j].total {
      assert podium[i] == r[i];
    }
  }

  /** The position shown beside the entry at index `k` (`$index + 1`). */
  function Position(k: nat): nat
  {
    k + 1
  }

  /** Positions number the entries from 1 in ranking order, so a better
      position never has a lower total. */
  lemma {:induction false} PositionsFollowTotals(state: DbState, range: Option<PeriodRange>)
    ensures var r := ComputeRanking(state, range);
      forall k, l :: 0 <= k < |r| && 0 <= l < |r| && Position(k) < Position(l) ==> r[k].total >= r[l].total
  {
    RankingShape(state, range);
  }

  /** `RankingBoardPageComponent`: the two period fields hold the text
      `fromDate` writes for the picked day. */
  class RankingBoardPageComponent {
    const repo: RankingRepository
    var periodStart: string
    var periodEnd: string

    constructor(repo: RankingRepository)
      ensures this.repo == repo && periodStart == "" && periodEnd == ""
    {
      this.repo := repo;
      periodStart, periodEnd := "", "";
    }

    /** `(dateChange)` on the start picker. */
    method PickStart(d: Option<CalendarDate>)
      modifies this
      ensures periodStart == FromDate(d) && periodEnd == old(periodEnd)
    {
      periodStart := FromDate(d);
    }

    /** `(dateChange)` on the end picker. */
    method PickEnd(d: Option<CalendarDate>)
      modifies this
      ensures periodEnd == FromDate(d) && periodStart == old(periodStart)
    {
      periodEnd := FromDate(d);
    }

    /** `ranking`: the repository's ranking for the fields' period. */
    method CurrentRanking() returns (r: seq<RankingEntry>)
      ensures r == ComputeRanking(repo.db.State(), Some(RangeFor(periodStart, periodEnd)))
    {
      r := repo.GetRankingSnapshotForPeriod(Some(RangeFor(periodStart, periodEnd)));
    }

    /** `topThree`. */
    method Podium() returns (r: seq<RankingEntry>)
      ensures r == TopThree(ComputeRanking(repo.db.State(), Some(RangeFor(periodStart, periodEnd))))
    {
      var ranking := CurrentRanking();
      r := TopThree(ranking);
    }
  }
}
