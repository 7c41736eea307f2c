/** The in-browser database: three lists (activities, submissions, units)
    held in memory and mirrored to three local-storage keys, seeded with
    sample data on first use. */
module MockDb {
  import opened Wrappers
  import opened Models

  datatype DbState = DbState(activities: seq<Activity>, submissions: seq<ProofSubmission>, units: seq<Unit>)

  /** `Partial<DbState>`: the lists an update replaces. */
  datatype DbPartial = DbPartial(
    activities: Option<seq<Activity>>,
    submissions: Option<seq<ProofSubmission>>,
    units: Option<seq<Unit>>)

  /** `{ ...state, ...partial }`. */
  function Merge(state: DbState, partial: DbPartial): DbState
  {
    DbState(
      partial.activities.GetOr(state.activities),
      partial.submissions.GetOr(state.submissions),
      partial.units.GetOr(state.units))
  }

  /** A merge replaces exactly the lists the partial names. */
  lemma {:induction false} MergeReplacesNamedLists(state: DbState, partial: DbPartial)
    ensures var r := Merge(state, partial);
      (r.activities == if partial.activities.Some? then partial.activities.value else state.activities)
      && (r.submissions == if partial.submissions.Some? then partial.submissions.value else state.submissions)
      && (r.units == if partial.units.Some? then partial.units.value else state.units)
    ensures Merge(state, DbPartial(None, None, None)) == state
    ensures Merge(Merge(state, partial), partial) == Merge(state, partial)
  {
  }

  const UnitsSeed: seq<Unit> := [
    Unit("aguia-dourada", "Águia Dourada"),
    Unit("morcegos", "Morcegos"),
    Unit("harpia", "Hárpia"),
    Unit("panda", "Panda"),
    Unit("dente-de-sabre", "Dente de Sabre"),
    Unit("pantera", "Pantera")
  ]

  const ActivitiesSeed: seq<Activity> := [
    Activity("act-1", "Acampamento de Integração",
      "Participacao no acampamento anual com foco em trabalho em equipe.",
      "2026-02-10", "2026-02-12", 200, Some(40), "2026-01-05T10:00:00.000Z", "2026-01-05T10:00:00.000Z"),
    Activity("act-2", "Projeto de Service Comunitario",
      "Execucao de uma acao social registrada pela unidade.",
      "2026-03-01", "2026-03-31", 150, None, "2026-01-12T09:00:00.000Z", "2026-01-12T09:00:00.000Z"),
    Activity("act-3", "Especialidade em Primeiros Socorros",
      "Conclusao da especialidade com registro fotográfico.",
      "2026-01-20", "2026-02-20", 120, Some(30), "2026-01-08T13:30:00.000Z", "2026-01-08T13:30:00.000Z"),
    Activity("act-4", "Trilha Noturna",
      "Trilha guiada com checklist de segurança.",
      "2026-04-05", "2026-04-06", 90, None, "2026-01-15T16:45:00.000Z", "2026-01-15T16:45:00.000Z"),
    Activity("act-5", "Campanha de Arrecadacao",
      "Mobilizacao para arrecadar alimentos e agasalhos.",
      "2026-05-01", "2026-05-20", 180, Some(20), "2026-01-18T11:00:00.000Z", "2026-01-18T11:00:00.000Z"),
    Activity("act-6", "Jornada de Lideranca",
      "Capacitacao em lideranca para conselheiros.",
      "2026-02-15", "2026-02-16", 160, None, "2026-01-20T08:20:00.000Z", "2026-01-20T08:20:00.000Z")
  ]

  const SubmissionsSeed: seq<ProofSubmission> := [
    ProofSubmission("sub-1", "act-1", "aguia-dourada", Concluida,
      Some("Participamos com 12 desbravadores, fotos anexas."), None,
      Some("2026-02-13T18:00:00.000Z"), Some("2026-02-14T10:30:00.000Z"), Some(200), Some(40),
      Some(ReviewDecision("diretoria", Aprovado, Some(200), Some(40), None, None, "2026-02-14T10:30:00.000Z"))),
    ProofSubmission("sub-2", "act-2", "pantera", PendenteAvaliacao,
      Some("Entrega realizada no bairro Jardim Azul."), None,
      Some("2026-03-20T21:10:00.000Z"), None, None, None, None),
    ProofSubmission("sub-3", "act-3", "morcegos", Concluida,
      Some("Equipe concluiu a especialidade com instrutor."), None,
      Some("2026-02-19T15:00:00.000Z"), Some("2026-02-20T09:00:00.000Z"), Some(120), Some(30),
      Some(ReviewDecision("diretoria", Aprovado, Some(120), Some(30), None, None, "2026-02-20T09:00:00.000Z"))),
    ProofSubmission("sub-4", "act-4", "panda", SemComprovacao,
      None, None, None, None, None, None,
      Some(ReviewDecision("diretoria", Reprovado, None, None, None,
        Some("Precisa enviar o checklist de seguranca preenchido."), "2026-04-07T10:00:00.000Z"))),
    ProofSubmission("sub-5", "act-5", "harpia", PendenteAvaliacao,
      Some("Relatorio com fotos do ponto de coleta."), None,
      Some("2026-05-18T12:30:00.000Z"), None, None, None, None)
  ]

  function SeedState(): DbState
  {
    DbState(ActivitiesSeed, SubmissionsSeed, UnitsSeed)
  }

  predicate AllEmpty(stored: DbState)
  {
    |stored.activities| == 0 && |stored.submissions| == 0 && |stored.units| == 0
  }

  /** `loadInitialState()` over the three stored lists (a missing or
      unreadable key reads as the empty list): nothing stored at all gives
      the seeds; otherwise each empty list falls back to its own seed. */
  function LoadInitialState(stored: DbState): (r: DbState)
    ensures AllEmpty(stored) ==> r == SeedState()
    ensures |stored.activities| > 0 ==> r.activities == stored.activities
    ensures |stored.submissions| > 0 ==> r.submissions == stored.submissions
    ensures |stored.units| > 0 ==> r.units == stored.units
    ensures |stored.activities| == 0 ==> r.activities == ActivitiesSeed
    ensures |stored.submissions| == 0 ==> r.submissions == SubmissionsSeed
    ensures |stored.units| == 0 ==> r.units == UnitsSeed
  {
    if AllEmpty(stored) then SeedState()
    else
      DbState(
        if |stored.activities| > 0 then stored.activities else ActivitiesSeed,
        if |stored.submissions| > 0 then stored.submissions else SubmissionsSeed,
        if |stored.units| > 0 then stored.units else UnitsSeed)
  }

  /** What local storage holds after `loadInitialState()`: only the
      first-use branch writes the seeds back. */
  function StorageAfterLoad(stored: DbState): DbState
  {
    if AllEmpty(stored) then SeedState() else stored
  }

  /** Loading never yields an empty list, and loading what was loaded changes nothing. */
  lemma {:induction false} LoadIsIdempotent(stored: DbState)
    ensures var r := LoadInitialState(stored);
      |r.activities| > 0 && |r.submissions| > 0 && |r.units| > 0 && LoadInitialState(r) == r
  {
  }

  /** A state survives a reload exactly when none of its lists is empty: a
      list emptied by the user (every submission deleted, say) comes back as
      its seed on the next start. */
  lemma {:induction false} ReloadKeepsStateIffNoListEmpty(state: DbState)
    ensures LoadInitialState(state) == state <==> (|state.activities| > 0 && |state.submissions| > 0 && |state.units| > 0)
  {
    if LoadInitialState(state) == state {
      assert |SeedState().activities| > 0;
    }
  }

  class MockDbService {
    var activities: seq<Activity>
    var submissions: seq<ProofSubmission>
    var units: seq<Unit>
    /** The three local-storage keys `cd.activities`, `cd.submissions`, `cd.units`. */
    var storage: DbState

    function State(): DbState
      reads this
    {
      DbState(activities, submissions, units)
    }

    /** Starts from what local storage holds. */
    constructor(stored: DbState)
      ensures State() == LoadInitialState(stored)
      ensures storage == StorageAfterLoad(stored)
    {
      var initial := LoadInitialState(stored);
      activities, submissions, units := initial.activities, initial.submissions, initial.units;
      storage := StorageAfterLoad(stored);
    }

    /** `updateState(partial)`: replaces the named lists and persists all three. */
    method UpdateState(partial: DbPartial)
      modifies this
      ensures State() == Merge(old(State()), partial)
      ensures storage == State()
    {
      var next := Merge(State(), partial);
      activities, submissions, units := next.activities, next.submissions, next.units;
      storage := next;
    }

    method UpdateActivities(next: seq<Activity>)
      modifies this
      ensures activities == next
      ensures submissions == old(submissions) && units == old(units)
      ensures storage == State()
    {
      UpdateState(DbPartial(Some(next), None, None));
    }

    method UpdateSubmissions(next: seq<ProofSubmission>)
      modifies this
      ensures submissions == next
      ensures activities == old(activities) && units == old(units)
      ensures storage == State()
    {
      UpdateState(DbPartial(None, Some(next), None));
    }

    method UpdateUnits(next: seq<Unit>)
      modifies this
      ensures units == next
      ensures activities == old(activities) && submissions == old(submissions)
      ensures storage == State()
    {
      UpdateState(DbPartial(None, None, Some(next)));
    }

    /** `reset()`: writes the seeds to storage and to the state. */
    method Reset()
      modifies this
      ensures State() == SeedState() && storage == SeedState()
    {
      activities, submissions, units := ActivitiesSeed, SubmissionsSeed, UnitsSeed;
      storage := SeedState();
    }
  }
}
