/** The board's review dialog: it opens on one submission with the
    activity's points and bonus filled in, and turns "approve" or "reject"
    into a review decision for the submission repository. */
module ReviewDialog {
  import opened Wrappers
  import opened Models
  import opened Text
  import opened Submissions

  /** The dialog's form; a cleared number field is `None`. */
  datatype ReviewForm = ReviewForm(
    pontuacao: Option<int>,
    pontuacaoBonus: Option<int>,
    justificativaAjuste: string,
    justificativaReprovacao: string)

  /** What a click leads to: the form is invalid (its errors are shown), the
      click is refused with a message, or a decision is sent. */
  datatype DialogAction = Invalid | Refused(message: string) | Send(decision: ReviewDecision)

  const ReviewerId: Id := "diretoria"
  const AdjustmentRequired: string := "Justificativa obrigatoria para ajuste."
  const RejectionRequired: string := "Justificativa obrigatoria para reprovar."

  /** The form as the dialog opens: the activity's points, its bonus or 0,
      and empty justifications. */
  function InitialForm(a: Activity): ReviewForm
  {
    ReviewForm(Some(a.pontuacao), Some(a.pontuacaoBonus.GetOr(0)), "", "")
  }

  /** Points are required and neither number may be negative. */
  predicate FormValid(f: ReviewForm)
  {
    f.pontuacao.Some? && f.pontuacao.value >= 0 && (f.pontuacaoBonus.None? || f.pontuacaoBonus.value >= 0)
  }

  /** `Number(value ?? 0)` of the two number fields. */
  function PointsOf(f: ReviewForm): int { f.pontuacao.GetOr(0) }
  function BonusOf(f: ReviewForm): int { f.pontuacaoBonus.GetOr(0) }

  /** The reviewer changed the points or the bonus the activity gives. */
  predicate Ajustou(f: ReviewForm, a: Activity)
  {
    PointsOf(f) != a.pontuacao || BonusOf(f) != a.pontuacaoBonus.GetOr(0)
  }

  /** `aprovar()` as written: a bonus of 0 is sent as no bonus at all
      (`pontuacaoBonus || undefined`). */
  function AprovarAsWritten(f: ReviewForm, a: Activity, now: Timestamp): DialogAction
  {
    if !FormValid(f) then Invalid
    else if Ajustou(f, a) && Trim(f.justificativaAjuste) == "" then Refused(AdjustmentRequired)
    else
      var bonus := BonusOf(f);
      Send(ReviewDecision(ReviewerId, Aprovado, Some(PointsOf(f)), if bonus != 0 then Some(bonus) else None,
        if Ajustou(f, a) then Some(f.justificativaAjuste) else None, None, now))
  }

  /** `aprovar()` with the bonus the reviewer entered always sent, so that a
      bonus lowered to 0 is not replaced by the activity's. */
  function Aprovar(f: ReviewForm, a: Activity, now: Timestamp): DialogAction
  {
    if !FormValid(f) then Invalid
    else if Ajustou(f, a) && Trim(f.justificativaAjuste) == "" then Refused(AdjustmentRequired)
    else
      Send(ReviewDecision(ReviewerId, Aprovado, Some(PointsOf(f)), Some(BonusOf(f)),
        if Ajustou(f, a) then Some(f.justificativaAjuste) else None, None, now))
  }

  /** `reprovar()`: only the rejection justification is checked. */
  function Reprovar(f: ReviewForm, now: Timestamp): DialogAction
  {
    if Trim(f.justificativaReprovacao) == "" then Refused(RejectionRequired)
    else Send(ReviewDecision(ReviewerId, Reprovado, None, None, None, Some(f.justificativaReprovacao), now))
  }

  /** Approval is sent exactly when the form is valid and any change to the
      points or bonus is justified; the decision approves with the entered
      points and carries the justification exactly when something changed. */
  lemma {:induction false} AprovarContract(f: ReviewForm, a: Activity, now: Timestamp)
    ensures var r := Aprovar(f, a, now);
      (r == Invalid <==> !FormValid(f))
      && (r == Refused(AdjustmentRequired) <==> FormValid(f) && Ajustou(f, a) && AllSpace(f.justificativaAjuste))
      && (r.Send? <==> FormValid(f) && (!Ajustou(f, a) || !AllSpace(f.justificativaAjuste)))
      && (r.Send? ==>
            r.decision.outcome == Aprovado && r.decision.reviewerId == ReviewerId && r.decision.reviewedAt == now
            && r.decision.pontuacaoAjustada == f.pontuacao && f.pontuacao.value >= 0
            && r.decision.pontuacaoBonusAjustada == Some(BonusOf(f))
            && (r.decision.justificativaAjuste.Some? <==> Ajustou(f, a))
            && r.decision.justificativaReprovacao.None?)
  {
    TrimIsEmptyIffAllSpace(f.justificativaAjuste);
  }

  /** The dialog as written sends approval under the same conditions, with
      the entered points, and with the entered bonus only when it is not 0. */
  lemma {:induction false} AprovarAsWrittenContract(f: ReviewForm, a: Activity, now: Timestamp)
    ensures var r := AprovarAsWritten(f, a, now);
      (r == Invalid <==> !FormValid(f))
      && (r == Refused(AdjustmentRequired) <==> FormValid(f) && Ajustou(f, a) && AllSpace(f.justificativaAjuste))
      && (r.Send? <==> FormValid(f) && (!Ajustou(f, a) || !AllSpace(f.justificativaAjuste)))
      && (r.Send? ==>
            r.decision.outcome == Aprovado && r.decision.reviewerId == ReviewerId && r.decision.reviewedAt == now
            && r.decision.pontuacaoAjustada == f.pontuacao && f.pontuacao.value >= 0
            && r.decision.pontuacaoBonusAjustada == (if BonusOf(f) != 0 then Some(BonusOf(f)) else None)
            && (r.decision.justificativaAjuste.Some? <==> Ajustou(f, a))
            && r.decision.justificativaReprovacao.None?)
  {
    TrimIsEmptyIffAllSpace(f.justificativaAjuste);
  }

  /** Rejection is sent exactly when its justification has a non-space
      character, and it carries that justification and no points. */
  lemma {:induction false} ReprovarContract(f: ReviewForm, now: Timestamp)
    ensures var r := Reprovar(f, now);
      (r.Send? <==> !AllSpace(f.justificativaReprovacao))
      && (r.Refused? <==> AllSpace(f.justificativaReprovacao))
      && (r.Send? ==>
            r.decision.outcome == Reprovado && r.decision.justificativaReprovacao == Some(f.justificativaReprovacao)
            && r.decision.pontuacaoAjustada.None? && r.decision.pontuacaoBonusAjustada.None?)
  {
    TrimIsEmptyIffAllSpace(f.justificativaReprovacao);
  }

  /** The approved submission records exactly the points and bonus the
      reviewer left in the form. */
  lemma {:induction false} ApprovalRecordsTheForm(s: ProofSubmission, f: ReviewForm, a: Activity, now: Timestamp)
    requires Aprovar(f, a, now).Send?
    ensures var approved := Approved(s, Aprovar(f, a, now).decision, a);
      approved.status == Concluida
      && approved.pontuacaoAprovada == Some(PointsOf(f))
      && approved.pontuacaoBonusAprovada == Some(BonusOf(f))
  {
  }

  /** Approving the untouched form needs no justification and gives the
      activity's own points and bonus. */
  lemma {:induction false} UntouchedFormApprovesAsIs(s: ProofSubmission, a: Activity, now: Timestamp)
    requires a.pontuacao >= 0 && a.pontuacaoBonus.GetOr(0) >= 0
    ensures var r := Aprovar(InitialForm(a), a, now);
      r.Send? && r.decision.justificativaAjuste.None?
      && Approved(s, r.decision, a).pontuacaoAprovada == Some(a.pontuacao)
      && Approved(s, r.decision, a).pontuacaoBonusAprovada == Some(a.pontuacaoBonus.GetOr(0))
  {
  }

  /** As written, approving the untouched form needs no justification and
      gives the activity's own points and its own bonus, an absent bonus
      staying absent: the 0 the form shows for it is sent as no bonus. */
  lemma {:induction false} UntouchedFormApprovesAsWritten(s: ProofSubmission, a: Activity, now: Timestamp)
    requires a.pontuacao >= 0 && a.pontuacaoBonus.GetOr(0) >= 0
    ensures var r := AprovarAsWritten(InitialForm(a), a, now);
      r.Send? && r.decision.justificativaAjuste.None?
      && (a.pontuacaoBonus.None? ==> r.decision.pontuacaoBonusAjustada.None?)
      && Approved(s, r.decision, a).pontuacaoAprovada == Some(a.pontuacao)
      && Approved(s, r.decision, a).pontuacaoBonusAprovada == a.pontuacaoBonus
  {
  }

  /** Both versions send the same decision whenever the bonus is not 0. */
  lemma {:induction false} AsWrittenAgreesOnNonZeroBonus(f: ReviewForm, a: Activity, now: Timestamp)
    requires BonusOf(f) != 0
    ensures AprovarAsWritten(f, a, now) == Aprovar(f, a, now)
  {
  }

  /** As written, a reviewer who lowers an activity's bonus to 0, with a
      justification, still approves the activity's full bonus; the corrected
      dialog approves 0. */
  lemma {:induction false} AsWrittenKeepsBonusSetToZero(s: ProofSubmission, f: ReviewForm, a: Activity, now: Timestamp)
    requires FormValid(f) && BonusOf(f) == 0 && !AllSpace(f.justificativaAjuste)
    requires a.pontuacaoBonus.Some? && a.pontuacaoBonus.value > 0
    ensures var r := AprovarAsWritten(f, a, now);
      Ajustou(f, a) && r.Send?
      && Approved(s, r.decision, a).pontuacaoBonusAprovada == a.pontuacaoBonus
      && Approved(s, r.decision, a).pontuacaoBonusAprovada != Some(0)
      && Approved(s, Aprovar(f, a, now).decision, a).pontuacaoBonusAprovada == Some(0)
  {
    TrimIsEmptyIffAllSpace(f.justificativaAjuste);
  }

  /** A toast the dialog shows. */
  datatype Toast = ToastSuccess(text: string) | ToastError(text: string)

  const ApprovedMessage: string := "Comprovacao aprovada."
  const RejectedMessage: string := "Comprovacao reprovada."

  /** `ReviewDialogComponent`, opened on one submission of one activity. */
  class ReviewDialogComponent {
    const repository: SubmissionRepository
    const submission: ProofSubmission
    const activity: Activity
    var form: ReviewForm
    var loading: bool
    var touched: bool
    var closed: bool
    var toast: Option<Toast>

    constructor(repository: SubmissionRepository, submission: ProofSubmission, activity: Activity)
      ensures this.repository == repository && this.submission == submission && this.activity == activity
      ensures form == InitialForm(activity) && !loading && !touched && !closed && toast.None?
    {
      this.repository := repository;
      this.submission := submission;
      this.activity := activity;
      form := InitialForm(activity);
      loading, touched, closed := false, false, false;
      toast := None;
    }

    /** What the reviewer types into the form controls. */
    method Edit(next: ReviewForm)
      modifies this
      ensures form == next
      ensures loading == old(loading) && touched == old(touched) && closed == old(closed) && toast == old(toast)
    {
      form := next;
    }

    /** What sending `decision` leaves behind: the review's image deletion,
        unchanged activities and units, and then either the error toast with
        the busy flag still set and the store as it was, or the success toast,
        a closed dialog and the reviewed list written to the store and to
        storage. */
    twostate predicate Delivered(decision: ReviewDecision, success: string)
      reads this, repository.db, repository.imageStore
    {
      && repository.db.activities == old(repository.db.activities) && repository.db.units == old(repository.db.units)
      && repository.imageStore.images == ImagesAfterReview(old(repository.imageStore.images),
           old(repository.db.submissions), old(repository.db.activities), submission.id, decision)
      && match ReviewSpec(old(repository.db.submissions), old(repository.db.activities), submission.id, decision)
         case Failure(e) =>
           (loading && closed == old(closed) && toast == Some(ToastError(e.Message()))
            && repository.db.State() == old(repository.db.State())
            && repository.db.storage == old(repository.db.storage))
         case Success(w) =>
           (closed && !loading && toast == Some(ToastSuccess(success))
            && repository.db.submissions == w.submissions && repository.db.storage == repository.db.State())
    }

    /** Sends `action`'s decision and reacts as the subscription does: on
        success a toast and the dialog closes, then `complete` clears the
        busy flag; on an error only the error's message is shown, because
        `complete` does not run after an error. */
    method Send(decision: ReviewDecision, success: string) returns (r: Result<ProofSubmission, SubmissionError>)
      modifies this, repository.db, repository.imageStore
      ensures match ReviewSpec(old(repository.db.submissions), old(repository.db.activities), submission.id, decision)
        case Failure(e) => r == Failure(e)
        case Success(w) => r == Success(w.submission)
      ensures Delivered(decision, success)
      ensures form == old(form) && touched == old(touched)
    {
      loading := true;
      r := repository.ReviewSubmission(submission.id, decision);
      match r
      case Failure(e) =>
        toast := Some(ToastError(e.Message()));
      case Success(_) =>
        toast := Some(ToastSuccess(success));
        closed := true;
        loading := false;
    }

    /** `aprovar()`, as written. */
    method Approve(now: Timestamp)
      modifies this, repository.db, repository.imageStore
      ensures var action := AprovarAsWritten(old(form), activity, now);
        (!action.Send? ==>
           (loading == old(loading) && closed == old(closed)
            && repository.db.State() == old(repository.db.State())
            && repository.db.storage == old(repository.db.storage)
            && repository.imageStore.images == old(repository.imageStore.images)))
        && (action == Invalid ==> touched && toast == old(toast))
        && (action.Refused? ==> touched == old(touched) && toast == Some(ToastError(action.message)))
        && (action.Send? ==> touched == old(touched) && Delivered(action.decision, ApprovedMessage))
      ensures form == old(form)
    {
      var action := AprovarAsWritten(form, activity, now);
      match action
      case Invalid =>
        touched := true;
      case Refused(message) =>
        toast := Some(ToastError(message));
      case Send(decision) =>
        var _ := Send(decision, ApprovedMessage);
    }

    /** `reprovar()`. */
    method Reject(now: Timestamp)
      modifies this, repository.db, repository.imageStore
      ensures var action := Reprovar(old(form), now);
        action.Refused? ==>
          loading == old(loading) && closed == old(closed)
          && repository.db.State() == old(repository.db.State())
          && repository.db.storage == old(repository.db.storage)
          && repository.imageStore.images == old(repository.imageStore.images)
          && touched == old(touched) && toast == Some(ToastError(action.message))
      ensures var action := Reprovar(old(form), now);
        action.Send? ==> touched == old(touched) && Delivered(action.decision, RejectedMessage)
      ensures form == old(form)
    {
      var action := Reprovar(form, now);
      match action
      case Invalid =>
      case Refused(message) =>
        toast := Some(ToastError(message));
      case Send(decision) =>
        var _ := Send(decision, RejectedMessage);
    }
  }
}
