/** The unit ranking: for each unit, the points of its concluded submissions
    for the activities of a period, with counts of concluded and pending
    submissions, ordered by total from highest to lowest. */
module Ranking {
  import opened Wrappers
  import opened Models
  import opened Seqs
  import opened Dates
  import opened MockDb
  import opened Submissions

  /** `{ start?: string; end?: string }`. */
  datatype PeriodRange = PeriodRange(start: Option<string>, end: Option<string>)

  datatype RankingEntry = RankingEntry(unit: Unit, total: int, concluidas: nat, pendentes: nat)

  /** `range?.start ? new Date(range.start) : null`: a missing or empty bound
      is no bound; any other text is a date, possibly the invalid one. */
  function Bound(range: Option<PeriodRange>, start: bool): (r: Option<Instant>)
    ensures r.None? <==> range.None? || (if start then range.value.start else range.value.end) in {None, Some("")}
  {
    if range.None? then None
    else
      var text := if start then range.value.start else range.value.end;
      if text.Some? && text.value != "" then Some(ParseIsoDate(text.value)) else None
  }

  /** The period filter of `computeRanking`: without bounds every activity
      counts; otherwise one that ends before the start, or starts after the
      end, is left out. A comparison with an invalid date is false, so an
      activity or bound whose date does not parse excludes nothing. */
  predicate InPeriod(a: Activity, start: Option<Instant>, end: Option<Instant>)
  {
    if start.None? && end.None? then true
    else
      var activityStart, activityEnd := ParseIsoDate(a.dataInicio), ParseIsoDate(a.dataFinal);
      !(start.Some? && Earlier(activityEnd, start.value)) && !(end.Some? && Earlier(end.value, activityStart))
  }

  function ValidActivities(activities: seq<Activity>, range: Option<PeriodRange>): seq<Activity>
  {
    var start, end := Bound(range, true), Bound(range, false);
    Filter(activities, (a: Activity) => InPeriod(a, start, end))
  }

  /** The submission is the unit's and its activity is in the period. */
  predicate CountsToward(s: ProofSubmission, unitId: Id, valid: seq<Activity>)
  {
    s.unitId == unitId && Exists(valid, (a: Activity) => a.id == s.activityId)
  }

  /** `pontuacaoAprovada ?? activity?.pontuacao ?? 0` plus
      `pontuacaoBonusAprovada ?? activity?.pontuacaoBonus ?? 0`. */
  function Points(s: ProofSubmission, valid: seq<Activity>): int
  {
    var activity := FindActivity(valid, s.activityId);
    var base := if s.pontuacaoAprovada.Some? then s.pontuacaoAprovada.value
      else if activity.Some? then activity.value.pontuacao else 0;
    var bonus := if s.pontuacaoBonusAprovada.Some? then s.pontuacaoBonusAprovada.value
      else if activity.Some? && activity.value.pontuacaoBonus.Some? then activity.value.pontuacaoBonus.value else 0;
    base + bonus
  }

  predicate ConcludedFor(s: ProofSubmission, unitId: Id, valid: seq<Activity>)
  {
    CountsToward(s, unitId, valid) && s.status == Concluida
  }

  predicate PendingFor(s: ProofSubmission, unitId: Id, valid: seq<Activity>)
  {
    CountsToward(s, unitId, valid) && s.status == PendenteAvaliacao
  }

  /** One unit's entry, computed as the source chains its filters and its reduce. */
  function EntryFor(unit: Unit, subs: seq<ProofSubmission>, valid: seq<Activity>): RankingEntry
  {
    var unitSubs := Filter(subs, (s: ProofSubmission) => CountsToward(s, unit.id, valid));
    var concluidas := Filter(unitSubs, (s: ProofSubmission) => s.status == Concluida);
    var pendentes := Filter(unitSubs, (s: ProofSubmission) => s.status == PendenteAvaliacao);
    var total := FoldSum(concluidas, 0, (s: ProofSubmission) => Points(s, valid));
    RankingEntry(unit, total, |concluidas|, |pendentes|)
  }

  /** A unit's total is the sum of the points of its concluded submissions in
      the period, and its counts are the numbers of its concluded and pending
      submissions there. */
  lemma {:induction false} EntryMeaning(unit: Unit, subs: seq<ProofSubmission>, valid: seq<Activity>)
    ensures var e := EntryFor(unit, subs, valid);
      e.unit == unit
      && e.total == SumWhere(subs, (s: ProofSubmission) => ConcludedFor(s, unit.id, valid), (s: ProofSubmission) => Points(s, valid))
      && e.concluidas == |Positions(subs, (s: ProofSubmission) => ConcludedFor(s, unit.id, valid))|
      && e.pendentes == |Positions(subs, (s: ProofSubmission) => PendingFor(s, unit.id, valid))|
  {
    var counts := (s: ProofSubmission) => CountsToward(s, unit.id, valid);
    var concluded := (s: ProofSubmission) => s.status == Concluida;
    var pending := (s: ProofSubmission) => s.status == PendenteAvaliacao;
    var both := (s: ProofSubmission) => ConcludedFor(s, unit.id, valid);
    var bothPending := (s: ProofSubmission) => PendingFor(s, unit.id, valid);
    var points := (s: ProofSubmission) => Points(s, valid);
    FilterFilter(subs, counts, concluded, both);
    FilterFilter(subs, counts, pending, bothPending);
    FoldSumIsSum(Filter(Filter(subs, counts), concluded), 0, points);
    SumOfFilter(subs, both, points);
    FilterLength(subs, both);
    FilterLength(subs, bothPending);
  }

  /** A counted submission always finds its activity, so a missing approved
      value falls back to the activity's own points. */
  lemma {:induction false} PointsOfCountedSubmission(s: ProofSubmission, unitId: Id, valid: seq<Activity>)
    requires CountsToward(s, unitId, valid)
    ensures var a := FindActivity(valid, s.activityId);
      a.Some?
      && Points(s, valid) == s.pontuacaoAprovada.GetOr(a.value.pontuacao) + s.pontuacaoBonusAprovada.GetOr(a.value.pontuacaoBonus.GetOr(0))
  {
    var i :| 0 <= i < |valid| && valid[i].id == s.activityId;
    assert valid[i].id == s.activityId;
  }

  /** `units.map(...)`: one entry per unit, in the units' order. */
  function Entries(units: seq<Unit>, subs: seq<ProofSubmission>, valid: seq<Activity>): (r: seq<RankingEntry>)
    ensures |r| == |units|
    ensures forall i :: 0 <= i < |units| ==> r[i] == EntryFor(units[i], subs, valid)
  {
    seq(|units|, i requires 0 <= i < |units| => EntryFor(units[i], subs, valid))
  }

  /** Inserts `x` before the first entry whose total is not higher. */
  function InsertByTotal(x: RankingEntry, sorted: seq<RankingEntry>): seq<RankingEntry>
  {
    if sorted == [] then [x]
    else if sorted[0].total > x.total then [sorted[0]] + InsertByTotal(x, sorted[1..])
    else [x] + sorted
  }

  /** `entries.sort((a, b) => b.total - a.total)`: a stable sort by total,
      highest first. */
  function SortByTotal(es: seq<RankingEntry>): seq<RankingEntry>
  {
    if es == [] then [] else InsertByTotal(es[0], SortByTotal(es[1..]))
  }

  ghost predicate SortedByTotal(r: seq<RankingEntry>)
  {
    forall i, j :: 0 <= i < j < |r| ==> r[i].total >= r[j].total
  }

  function WithTotal(t: int): RankingEntry -> bool
  {
    (e: RankingEntry) => e.total == t
  }

  lemma {:induction false} InsertKeepsEntries(x: RankingEntry, r: seq<RankingEntry>)
    ensures multiset(InsertByTotal(x, r)) == multiset(r) + multiset{x}
  {
    if r != [] && r[0].total > x.total {
      InsertKeepsEntries(x, r[1..]);
      assert r == [r[0]] + r[1..];
    }
  }

  /** Inserting below a bound stays below it. */
  lemma {:induction false} InsertStaysBelow(x: RankingEntry, r: seq<RankingEntry>, bound: int)
    requires x.total <= bound
    requires forall k :: 0 <= k < |r| ==> r[k].total <= bound
    ensures forall k :: 0 <= k < |InsertByTotal(x, r)| ==> InsertByTotal(x, r)[k].total <= bound
  {
    if r != [] && r[0].total > x.total {
      InsertStaysBelow(x, r[1..], bound);
    }
  }

  lemma {:induction false} ConsKeepsSorted(head: RankingEntry, r: seq<RankingEntry>)
    requires SortedByTotal(r)
    requires forall k :: 0 <= k < |r| ==> r[k].total <= head.total
    ensures SortedByTotal([head] + r)
  {
    var res := [head] + r;
    forall i, j | 0 <= i < j < |res| ensures res[i].total >= res[j].total {
      assert res[j] == r[j - 1];
      if i > 0 {
        assert res[i] == r[i - 1];
      }
    }
  }

  lemma {:induction false} InsertKeepsSorted(x: RankingEntry, r: seq<RankingEntry>)
    requires SortedByTotal(r)
    ensures SortedByTotal(InsertByTotal(x, r))
  {
    if r == [] {
    } else if r[0].total > x.total {
      var head, tail := r[0], r[1..];
      assert SortedByTotal(tail) by {
        forall i, j | 0 <= i < j < |tail| ensures tail[i].total >= tail[j].total {
          assert tail[i] == r[i + 1] && tail[j] == r[j + 1];
        }
      }
      assert forall k :: 0 <= k < |tail| ==> tail[k].total <= head.total by {
        forall k | 0 <= k < |tail| ensures tail[k].total <= head.total {
          assert tail[k] == r[k + 1];
        }
      }
      InsertKeepsSorted(x, tail);
      InsertStaysBelow(x, tail, head.total);
      ConsKeepsSorted(head, InsertByTotal(x, tail));
    } else {
      ConsKeepsSorted(x, r);
    }
  }

  lemma {:induction false} InsertIsStable(x: RankingEntry, r: seq<RankingEntry>, t: int)
    ensures Filter(InsertByTotal(x, r), WithTotal(t)) == (if x.total == t then [x] else []) + Filter(r, WithTotal(t))
  {
    var w := WithTotal(t);
    if r == [] {
      FilterCons(x, [], w);
    } else if r[0].total > x.total {
      var head, tail := r[0], r[1..];
      assert r == [head] + tail;
      InsertIsStable(x, tail, t);
      FilterCons(head, InsertByTotal(x, tail), w);
      FilterCons(head, tail, w);
      if x.total == t {
        assert !w(head);
      } else if w(head) {
        assert Filter(r, w) == [head] + Filter(tail, w);
      }
    } else {
      FilterCons(x, r, w);
    }
  }

  /** The sort gives the entries back, each as often as before. */
  lemma {:induction false} SortKeepsEntries(es: seq<RankingEntry>)
    ensures multiset(SortByTotal(es)) == multiset(es)
  {
    if es != [] {
      SortKeepsEntries(es[1..]);
      InsertKeepsEntries(es[0], SortByTotal(es[1..]));
      assert es == [es[0]] + es[1..];
    }
  }

  /** The sort puts the highest total first. */
  lemma {:induction false} SortIsSorted(es: seq<RankingEntry>)
    ensures SortedByTotal(SortByTotal(es))
  {
    if es != [] {
      SortIsSorted(es[1..]);
      InsertKeepsSorted(es[0], SortByTotal(es[1..]));
    }
  }

  /** Entries with the same total keep their relative order. */
  lemma {:induction false} SortIsStable(es: seq<RankingEntry>, t: int)
    ensures Filter(SortByTotal(es), WithTotal(t)) == Filter(es, WithTotal(t))
  {
    if es != [] {
      var head, tail := es[0], es[1..];
      assert es == [head] + tail;
      SortIsStable(tail, t);
      InsertIsStable(head, SortByTotal(tail), t);
      FilterCons(head, tail, WithTotal(t));
    }
  }

  /** `computeRanking(range)` on the database state. */
  function ComputeRanking(state: DbState, range: Option<PeriodRange>): seq<RankingEntry>
  {
    var valid := ValidActivities(state.activities, range);
    SortByTotal(Entries(state.units, state.submissions, valid))
  }

  /** The ranking has exactly one entry per unit, the unit's own, ordered by
      total from highest to lowest, and units with equal totals appear in the
      units' order. */
  lemma {:induction false} RankingLaws(state: DbState, range: Option<PeriodRange>, t: int)
    ensures var valid := ValidActivities(state.activities, range);
      var r := ComputeRanking(state, range);
      multiset(r) == multiset(Entries(state.units, state.submissions, valid))
      && |r| == |state.units|
      && SortedByTotal(r)
      && (forall e :: e in r ==> e.unit in state.units && e == EntryFor(e.unit, state.submissions, valid))
      && (forall u :: u in state.units ==> EntryFor(u, state.submissions, valid) in r)
      && Filter(r, WithTotal(t)) == Filter(Entries(state.units, state.submissions, valid), WithTotal(t))
  {
    var valid := ValidActivities(state.activities, range);
    RankingShape(state, range);
    RankingMembers(state, range);
    SortIsStable(Entries(state.units, state.submissions, valid), t);
  }

  /** The ranking is the units' entries, one each, sorted by total. */
  lemma {:induction false} RankingShape(state: DbState, range: Option<PeriodRange>)
    ensures var r := ComputeRanking(state, range);
      multiset(r) == multiset(Entries(state.units, state.submissions, ValidActivities(state.activities, range)))
      && |r| == |state.units| && SortedByTotal(r)
  {
    var es := Entries(state.units, state.submissions, ValidActivities(state.activities, range));
    var r := ComputeRanking(state, range);
    SortKeepsEntries(es);
    SortIsSorted(es);
    assert |r| == |multiset(r)| == |multiset(es)| == |es|;
  }

  /** Every entry of the ranking is a unit's own entry, and every unit has one. */
  lemma {:induction false} RankingMembers(state: DbState, range: Option<PeriodRange>)
    ensures var valid := ValidActivities(state.activities, range);
      var r := ComputeRanking(state, range);
      (forall e :: e in r ==> e.unit in state.units && e == EntryFor(e.unit, state.submissions, valid))
      && (forall u :: u in state.units ==> EntryFor(u, state.submissions, valid) in r)
  {
    var valid := ValidActivities(state.activities, range);
    var es := Entries(state.units, state.submissions, valid);
    var r := ComputeRanking(state, range);
    SortKeepsEntries(es);
    forall e | e in r ensures e.unit in state.units && e == EntryFor(e.unit, state.submissions, valid) {
      assert e in multiset(es);
      var k :| 0 <= k < |es| && es[k] == e;
    }
    forall u | u in state.units ensures EntryFor(u, state.submissions, valid) in r {
      var k :| 0 <= k < |state.units| && state.units[k] == u;
      assert es[k] in multiset(r);
    }
  }

  /** Without a range, or with empty bounds, every activity is in the period. */
  lemma {:induction false} NoBoundsKeepAll(activities: seq<Activity>, range: Option<PeriodRange>)
    requires range.None? || (range.value.start in {None, Some("")} && range.value.end in {None, Some("")})
    ensures ValidActivities(activities, range) == activities
  {
    var start, end := Bound(range, true), Bound(range, false);
    FilterKeepsAll(activities, (a: Activity) => InPeriod(a, start, end));
  }

  /** A day between two others, both ends included. */
  predicate Within(d: CalendarDate, lo: CalendarDate, hi: CalendarDate)
  {
    !Before(d, lo) && !Before(hi, d)
  }

  /** With valid dates on both sides, an activity is in a period exactly when
      some day lies both in the activity and in the period. */
  lemma {:induction false} InPeriodIffOverlap(a: Activity, s: CalendarDate, e: CalendarDate)
    requires ParseIsoDate(a.dataInicio).Valid? && ParseIsoDate(a.dataFinal).Valid?
    requires !Before(ParseIsoDate(a.dataFinal).date, ParseIsoDate(a.dataInicio).date)
    requires !Before(e, s)
    ensures var ai, af := ParseIsoDate(a.dataInicio).date, ParseIsoDate(a.dataFinal).date;
      InPeriod(a, Some(Valid(s)), Some(Valid(e))) <==> exists d :: Within(d, ai, af) && Within(d, s, e)
  {
    var ai, af := ParseIsoDate(a.dataInicio).date, ParseIsoDate(a.dataFinal).date;
    BeforeIsStrictTotalOrder(ai, s, af);
    BeforeIsStrictTotalOrder(s, e, ai);
    BeforeIsStrictTotalOrder(af, s, e);
    if InPeriod(a, Some(Valid(s)), Some(Valid(e))) {
      var d := if Before(ai, s) then s else ai;
      BeforeIsStrictTotalOrder(d, af, e);
      assert Within(d, ai, af) && Within(d, s, e);
    } else {
      forall d | Within(d, ai, af) ensures !Within(d, s, e) {
        BeforeIsStrictTotalOrder(d, af, s);
        BeforeIsStrictTotalOrder(e, ai, d);
      }
    }
  }

  /** An activity whose dates do not parse is in every period, and so is
      every activity when a bound does not parse. */
  lemma {:induction false} InvalidDatesExcludeNothing(a: Activity, start: Option<Instant>, end: Option<Instant>)
    requires (ParseIsoDate(a.dataInicio) == Invalid && ParseIsoDate(a.dataFinal) == Invalid)
      || (start in {None, Some(Invalid)} && end in {None, Some(Invalid)})
    ensures InPeriod(a, start, end)
  {
  }

  class RankingRepository {
    const db: MockDbService

    constructor(db: MockDbService)
      ensures this.db == db
    {
      this.db := db;
    }

    /** `getRankingSnapshot()`: the ranking of all activities for the current state. */
    method GetRankingSnapshot() returns (r: seq<RankingEntry>)
      ensures r == ComputeRanking(db.State(), None)
    {
      r := ComputeRanking(db.State(), None);
    }

    /** `getRankingSnapshotForPeriod(range)`. */
    method GetRankingSnapshotForPeriod(range: Option<PeriodRange>) returns (r: seq<RankingEntry>)
      ensures r == ComputeRanking(db.State(), range)
    {
      r := ComputeRanking(db.State(), range);
    }
  }
}
