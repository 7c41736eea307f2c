/** The dashboard: the pending count (board-wide for the board, the unit's
    own otherwise), the unit's pending and concluded counts, and the unit at
    the top of the ranking. */
module DashboardPage {
  import opened Wrappers
  import opened Models
  import opened Seqs
  import opened MockDb
  import opened Submissions
  import opened Ranking

  /** `currentUnit`: the unit the session names; none without one. */
  function CurrentUnit(units: seq<Unit>, unitId: Option<Id>): (r: Option<Unit>)
    ensures r.Some? ==> unitId.Some? && r.value.id == unitId.value && r.value in units
    ensures r.None? <==> unitId.None? || forall j :: 0 <= j < |units| ==> units[j].id != unitId.value
  {
    Find(units, (u: Unit) => unitId.Some? && u.id == unitId.value)
  }

  /** `pendentesDiretoria`: every submission awaiting review. */
  function PendentesDiretoria(subs: seq<ProofSubmission>): nat
  {
    |Filter(subs, (s: ProofSubmission) => s.status == PendenteAvaliacao)|
  }

  /** `pendentesDaUnidade`: 0 without a unit. */
  function PendentesDaUnidade(subs: seq<ProofSubmission>, unitId: Option<Id>): nat
  {
    if !Truthy(unitId) then 0
    else |Filter(subs, (s: ProofSubmission) => s.unitId == unitId.value && s.status == PendenteAvaliacao)|
  }

  /** `concluidasDaUnidade`: 0 without a unit. */
  function ConcluidasDaUnidade(subs: seq<ProofSubmission>, unitId: Option<Id>): nat
  {
    if !Truthy(unitId) then 0
    else |Filter(subs, (s: ProofSubmission) => s.unitId == unitId.value && s.status == Concluida)|
  }

  /** `pendingCount`. */
  function PendingCount(profile: UserProfile, subs: seq<ProofSubmission>, unitId: Option<Id>): nat
  {
    if profile == Diretoria then PendentesDiretoria(subs) else PendentesDaUnidade(subs, unitId)
  }

  /** The entry shown when the ranking is empty. */
  const NoData := RankingEntry(Unit("sem-dados", "Sem dados"), 0, 0, 0)

  /** `topUnit`: the first ranking entry, or the placeholder. */
  function TopUnit(ranking: seq<RankingEntry>): RankingEntry
  {
    if ranking == [] then NoData else ranking[0]
  }

  /** The counts are the numbers of submissions in each state: all pending
      ones for the board, the unit's own pending and concluded ones
      otherwise, and none without a unit. */
  lemma {:induction false} DashboardCountsMeaning(profile: UserProfile, subs: seq<ProofSubmission>, unitId: Option<Id>)
    ensures PendentesDiretoria(subs) == |Positions(subs, (s: ProofSubmission) => s.status == PendenteAvaliacao)|
    ensures !Truthy(unitId) ==> PendentesDaUnidade(subs, unitId) == 0 && ConcluidasDaUnidade(subs, unitId) == 0
    ensures Truthy(unitId) ==>
      PendentesDaUnidade(subs, unitId) == |Positions(subs, (s: ProofSubmission) => s.unitId == unitId.value && s.status == PendenteAvaliacao)|
      && ConcluidasDaUnidade(subs, unitId) == |Positions(subs, (s: ProofSubmission) => s.unitId == unitId.value && s.status == Concluida)|
    ensures PendingCount(profile, subs, unitId) ==
      if profile == Diretoria then |Positions(subs, (s: ProofSubmission) => s.status == PendenteAvaliacao)|
      else if Truthy(unitId) then |Positions(subs, (s: ProofSubmission) => s.unitId == unitId.value && s.status == PendenteAvaliacao)|
      else 0
  {
    FilterLength(subs, (s: ProofSubmission) => s.status == PendenteAvaliacao);
    if Truthy(unitId) {
      FilterLength(subs, (s: ProofSubmission) => s.unitId == unitId.value && s.status == PendenteAvaliacao);
      FilterLength(subs, (s: ProofSubmission) => s.unitId == unitId.value && s.status == Concluida);
    }
  }

  /** When each of a unit's submissions names an activity that exists, the
      dashboard's counts for the unit are the ones its ranking entry shows. */
  lemma {:induction false} UnitCountsMatchRanking(state: DbState, u: Unit)
    requires u.id != ""
    requires forall i :: 0 <= i < |state.submissions| && state.submissions[i].unitId == u.id ==>
      Exists(state.activities, (a: Activity) => a.id == state.submissions[i].activityId)
    ensures var e := EntryFor(u, state.submissions, ValidActivities(state.activities, None));
      e.pendentes == PendentesDaUnidade(state.submissions, Some(u.id))
      && e.concluidas == ConcluidasDaUnidade(state.submissions, Some(u.id))
  {
    var subs := state.submissions;
    NoBoundsKeepAll(state.activities, None);
    var valid := ValidActivities(state.activities, None);
    EntryMeaning(u, subs, valid);
    var pending := (s: ProofSubmission) => PendingFor(s, u.id, valid);
    var concluded := (s: ProofSubmission) => ConcludedFor(s, u.id, valid);
    var unitPending := (s: ProofSubmission) => s.unitId == u.id && s.status == PendenteAvaliacao;
    var unitConcluded := (s: ProofSubmission) => s.unitId == u.id && s.status == Concluida;
    FilterSamePredicate(subs, unitPending, pending);
    FilterSamePredicate(subs, unitConcluded, concluded);
    FilterLength(subs, pending);
    FilterLength(subs, concluded);
  }

  /** With no unit the dashboard shows the placeholder; otherwise it shows a
      unit's own entry whose total no other unit exceeds. */
  lemma {:induction false} TopUnitMeaning(state: DbState)
    ensures var valid := ValidActivities(state.activities, None);
      var top := TopUnit(ComputeRanking(state, None));
      (state.units == [] ==> top == NoData)
      && (state.units != [] ==>
        top.unit in state.units && top == EntryFor(top.unit, state.submissions, valid)
        && forall u :: u in state.units ==> EntryFor(u, state.submissions, valid).total <= top.total)
  {
    var r := ComputeRanking(state, None);
    RankingLaws(state, None, 0);
    if state.units != [] {
      assert r[0] in r;
      var valid := ValidActivities(state.activities, None);
      forall u | u in state.units ensures EntryFor(u, state.submissions, valid).total <= r[0].total {
        var k :| 0 <= k < |r| && r[k] == EntryFor(u, state.submissions, valid);
      }
    }
  }
}
