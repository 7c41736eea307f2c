/** The records the ranking feature stores: activities, units, proof
    submissions with their review decisions, and the signed-in user's
    context. Optional fields are `Option`s; points are modelled as
    integers. */
module Models {
  import opened Wrappers

  type Id = string

  /** An ISO timestamp as `new Date().toISOString()` writes it. */
  type Timestamp = string

  /** An activity a unit can prove it took part in. `dataInicio` and
      `dataFinal` hold the date text as the form wrote it ("YYYY-MM-DD"). */
  datatype Activity = Activity(
    id: Id,
    nome: string,
    descricao: string,
    dataInicio: string,
    dataFinal: string,
    pontuacao: int,
    pontuacaoBonus: Option<int>,
    createdAt: Timestamp,
    updatedAt: Timestamp)

  datatype Unit = Unit(id: Id, name: string)

  datatype SubmissionStatus = SemComprovacao | PendenteAvaliacao | Concluida

  datatype ReviewOutcome = Aprovado | Reprovado

  datatype ReviewDecision = ReviewDecision(
    reviewerId: string,
    outcome: ReviewOutcome,
    pontuacaoAjustada: Option<int>,
    pontuacaoBonusAjustada: Option<int>,
    justificativaAjuste: Option<string>,
    justificativaReprovacao: Option<string>,
    reviewedAt: Timestamp)

  /** The proof one unit sent for one activity, and its review. */
  datatype ProofSubmission = ProofSubmission(
    id: Id,
    activityId: Id,
    unitId: Id,
    status: SubmissionStatus,
    descricaoComprovacao: Option<string>,
    imageId: Option<Id>,
    submittedAt: Option<Timestamp>,
    reviewedAt: Option<Timestamp>,
    pontuacaoAprovada: Option<int>,
    pontuacaoBonusAprovada: Option<int>,
    review: Option<ReviewDecision>)

  datatype UserProfile = Diretoria | Conselheiro | Desbravador

  datatype UserContext = UserContext(profile: UserProfile, unitId: Option<Id>, displayName: string)

  /** The value a select control reports: one option, or several. */
  datatype FilterChoice = Single(value: string) | Multiple(values: seq<string>)

  /** An uploaded file: only its MIME type matters to the core. */
  datatype ImageFile = ImageFile(mimeType: string)
}
