/** The seeded board worked through: the standing it starts with, a review
    that moves a unit up, and a period that leaves an activity out. */
module Scenarios {
  import opened Wrappers
  import opened Models
  import opened Seqs
  import opened Text
  import opened Dates
  import opened MockDb
  import opened Submissions
  import opened Ranking

  /** A filter that only one position passes keeps just that element. */
  lemma {:induction false} FilterOnly<T(!new)>(s: seq<T>, p: T -> bool, k: int)
    requires 0 <= k < |s| && p(s[k])
    requires forall i :: 0 <= i < |s| && i != k ==> !p(s[i])
    ensures Filter(s, p) == [s[k]]
  {
    if k == 0 {
      FilterNone(s[1..], p);
    } else {
      FilterOnly(s[1..], p, k - 1);
    }
  }

  /** A filter no element passes keeps nothing. */
  lemma {:induction false} FilterNone<T(!new)>(s: seq<T>, p: T -> bool)
    requires forall i :: 0 <= i < |s| ==> !p(s[i])
    ensures Filter(s, p) == []
  {
    if s != [] {
      FilterNone(s[1..], p);
    }
  }

  /** The seeded camp gives Águia Dourada its 200 points and 40 bonus. */
  lemma {:induction false} SeedStanding()
    ensures EntryFor(UnitsSeed[0], SubmissionsSeed, ActivitiesSeed) == RankingEntry(UnitsSeed[0], 240, 1, 0)
  {
    var subs := SubmissionsSeed;
    var counts := (s: ProofSubmission) => CountsToward(s, UnitsSeed[0].id, ActivitiesSeed);
    assert counts(subs[0]) by { assert ActivitiesSeed[0].id == subs[0].activityId; }
    OnlyTheCampIsAguias();
    FilterOnly(subs, counts, 0);
    OneCountedEntry(UnitsSeed[0], subs, ActivitiesSeed, subs[0]);
  }

  /** Only the first seeded submission is Águia Dourada's. */
  lemma {:induction false} OnlyTheCampIsAguias()
    ensures forall i :: 0 <= i < |SubmissionsSeed| && i != 0 ==> SubmissionsSeed[i].unitId != UnitsSeed[0].id
  {
    forall i | 0 <= i < |SubmissionsSeed| && i != 0 ensures SubmissionsSeed[i].unitId != UnitsSeed[0].id {
      assert i == 1 || i == 2 || i == 3 || i == 4;
    }
  }

  /** The seeded service project is found under its id. */
  lemma {:induction false} ServiceProjectFound()
    ensures FindActivity(ActivitiesSeed, "act-2") == Some(ActivitiesSeed[1])
  {
    assert ActivitiesSeed[0].id != "act-2";
  }

  /** `sub-2` is the second seeded submission. */
  lemma {:induction false} Sub2IsSecond()
    ensures IndexOfId(SubmissionsSeed, "sub-2") == 1
  {
    assert SubmissionsSeed[0].id != "sub-2";
  }

  /** A review of the seeded `sub-2` finds it and its activity and writes it
      back in place. */
  lemma {:induction false} SeedReviewOfSub2(decision: ReviewDecision)
    ensures var d := Decided(SubmissionsSeed[1], decision, ActivitiesSeed[1]);
      ReviewSpec(SubmissionsSeed, ActivitiesSeed, "sub-2", decision) == Success(Written(d, SubmissionsSeed[1 := d]))
  {
    Sub2IsSecond();
    assert SubmissionsSeed[1].activityId == "act-2";
    ServiceProjectFound();
  }

  /** A unit with exactly one counted submission gets that submission's
      points when it is concluded, and counts it as concluded or pending. */
  lemma {:induction false} OneCountedEntry(unit: Unit, subs: seq<ProofSubmission>, valid: seq<Activity>, only: ProofSubmission)
    requires Filter(subs, (s: ProofSubmission) => CountsToward(s, unit.id, valid)) == [only]
    ensures EntryFor(unit, subs, valid) ==
      RankingEntry(unit, if only.status == Concluida then Points(only, valid) else 0,
        if only.status == Concluida then 1 else 0, if only.status == PendenteAvaliacao then 1 else 0)
  {
    assert [only][1..] == [];
    var concluidas := Filter([only], (s: ProofSubmission) => s.status == Concluida);
    assert concluidas == if only.status == Concluida then [only] else [];
    assert FoldSum(concluidas, 0, (s: ProofSubmission) => Points(s, valid)) == if only.status == Concluida then Points(only, valid) else 0;
  }

  /** Pantera's entry when its only submission, for the service project, is `s`. */
  lemma {:induction false} PanteraEntry(s: ProofSubmission)
    requires s.unitId == "pantera" && s.activityId == "act-2"
    ensures var subs := SubmissionsSeed[1 := s];
      EntryFor(UnitsSeed[5], subs, ActivitiesSeed) ==
        RankingEntry(UnitsSeed[5], if s.status == Concluida then Points(s, ActivitiesSeed) else 0,
          if s.status == Concluida then 1 else 0, if s.status == PendenteAvaliacao then 1 else 0)
  {
    var subs := SubmissionsSeed[1 := s];
    var counts := (x: ProofSubmission) => CountsToward(x, UnitsSeed[5].id, ActivitiesSeed);
    assert counts(subs[1]) by { assert ActivitiesSeed[1].id == subs[1].activityId; }
    forall i | 0 <= i < |subs| && i != 1 ensures !counts(subs[i]) {
      assert subs[i] == SubmissionsSeed[i];
      assert SubmissionsSeed[i].unitId != UnitsSeed[5].id by { assert i == 0 || i == 2 || i == 3 || i == 4; }
    }
    FilterOnly(subs, counts, 1);
    OneCountedEntry(UnitsSeed[5], subs, ActivitiesSeed, s);
  }

  /** Approving Pantera's pending service project as sent gives it the
      project's 150 points. */
  lemma {:induction false} SeedApprovalOfPantera(now: Timestamp)
    ensures var approve := ReviewDecision("diretoria", Aprovado, None, None, None, None, now);
      var r := ReviewSpec(SubmissionsSeed, ActivitiesSeed, "sub-2", approve);
      r.Success? && EntryFor(UnitsSeed[5], r.value.submissions, ActivitiesSeed) == RankingEntry(UnitsSeed[5], 150, 1, 0)
  {
    var approve := ReviewDecision("diretoria", Aprovado, None, None, None, None, now);
    SeedReviewOfSub2(approve);
    var d := Decided(SubmissionsSeed[1], approve, ActivitiesSeed[1]);
    ApprovedServicePoints(SubmissionsSeed[1], approve);
    PanteraEntry(d);
  }

  /** Approved as sent, a proof for the service project is worth its 150 points. */
  lemma {:induction false} ApprovedServicePoints(s: ProofSubmission, approve: ReviewDecision)
    requires s.activityId == "act-2"
    requires approve.outcome == Aprovado && approve.pontuacaoAjustada.None? && approve.pontuacaoBonusAjustada.None?
    ensures Points(Decided(s, approve, ActivitiesSeed[1]), ActivitiesSeed) == 150
  {
    ServiceProjectFound();
  }

  /** Rejecting it instead leaves Pantera with nothing. */
  lemma {:induction false} SeedRejectionOfPantera(now: Timestamp, justification: string)
    ensures var reject := ReviewDecision("diretoria", Reprovado, None, None, None, Some(justification), now);
      var r := ReviewSpec(SubmissionsSeed, ActivitiesSeed, "sub-2", reject);
      r.Success? && EntryFor(UnitsSeed[5], r.value.submissions, ActivitiesSeed) == RankingEntry(UnitsSeed[5], 0, 0, 0)
  {
    var reject := ReviewDecision("diretoria", Reprovado, None, None, None, Some(justification), now);
    SeedReviewOfSub2(reject);
    PanteraEntry(Decided(SubmissionsSeed[1], reject, ActivitiesSeed[1]));
  }

  /** `new Date(text)` on a date of 2026 written as "2026-MM-DD". */
  lemma {:induction false} Iso2026(text: string, m: string, d: string, month: nat, day: nat)
    requires text == "2026-" + m + "-" + d
    requires |m| == 2 && |d| == 2 && AllDigits(m) && AllDigits(d)
    requires DigitsValue(m) == month && DigitsValue(d) == day
    requires ValidDate(CalendarDate(2026, month, day))
    ensures ParseIsoDate(text) == Valid(CalendarDate(2026, month, day))
  {
    assert text == "2026" + "-" + m + "-" + d;
    Year2026();
    IsoOfParts(text, "2026", m, d);
  }

  lemma {:induction false} Year2026()
    ensures AllDigits("2026") && DigitsValue("2026") == 2026
  {
    assert "2026"[..3] == "202" && "202"[..2] == "20" && "20"[..1] == "2" && "2"[..0] == "";
  }

  const March1 := CalendarDate(2026, 3, 1)
  const March31 := CalendarDate(2026, 3, 31)

  /** The February camp ends before March begins. */
  lemma {:induction false} CampBeforeMarch()
    ensures !InPeriod(ActivitiesSeed[0], Some(Valid(March1)), Some(Valid(March31)))
  {
    Iso2026(ActivitiesSeed[0].dataFinal, "02", "12", 2, 12);
  }

  /** The service project runs through March. */
  lemma {:induction false} ServiceInMarch()
    ensures InPeriod(ActivitiesSeed[1], Some(Valid(March1)), Some(Valid(March31)))
  {
    Iso2026(ActivitiesSeed[1].dataInicio, "03", "01", 3, 1);
    Iso2026(ActivitiesSeed[1].dataFinal, "03", "31", 3, 31);
  }

  /** A period of March 2026 leaves out the February camp and keeps the
      March service project. */
  lemma {:induction false} SeedMarchPeriod()
    ensures var range := Some(PeriodRange(Some("2026-03-01"), Some("2026-03-31")));
      ActivitiesSeed[0] !in ValidActivities(ActivitiesSeed, range)
      && ActivitiesSeed[1] in ValidActivities(ActivitiesSeed, range)
  {
    MarchBounds();
    CampBeforeMarch();
    ServiceInMarch();
  }

  /** The ranking reads the March period's bounds as its first and last day. */
  lemma {:induction false} MarchBounds()
    ensures var range := Some(PeriodRange(Some("2026-03-01"), Some("2026-03-31")));
      Bound(range, true) == Some(Valid(March1)) && Bound(range, false) == Some(Valid(March31))
  {
    Iso2026("2026-03-01", "03", "01", 3, 1);
    Iso2026("2026-03-31", "03", "31", 3, 31);
  }
}
