/** The activity detail page, where a unit sends its proof: the file check
    on choosing an image, the guards on sending, and the unit's submission
    and status for the activity. */
module ActivityDetailPage {
  import opened Wrappers
  import opened Models
  import opened Seqs
  import opened Submissions

  const FileErrorMessage: string := "Formato invalido. Envie JPG ou PNG."
  const DescricaoMinLength: nat := 10

  /** The page's own list of accepted types. */
  const PageImageTypes: seq<string> := ["image/png", "image/jpeg"]

  predicate PageAcceptsFile(file: ImageFile)
  {
    file.mimeType in PageImageTypes
  }

  /** The page and the repository accept the same files, so a file the page
      lets through is never refused by `submitProof`. */
  lemma {:induction false} PageAndRepositoryAgreeOnFiles(file: ImageFile, subs: seq<ProofSubmission>, input: ProofSubmissionInput,
                                     freshSubmissionId: Id, freshImageId: Id, now: Timestamp)
    ensures PageAcceptsFile(file) <==> IsAllowedImage(file)
    ensures (input.imageFile.None? || PageAcceptsFile(input.imageFile.value)) ==>
      SubmitProofSpec(subs, input, freshSubmissionId, freshImageId, now).Success?
  {
    SubmitProofFailsOnlyOnBadImage(subs, input, freshSubmissionId, freshImageId, now);
  }

  /** `required` and `minLength(10)` on the description. */
  predicate DescricaoValid(d: string)
  {
    d != "" && |d| >= DescricaoMinLength
  }

  /** `submission`: the unit's submission for the activity, none without an
      activity or a unit. */
  function SubmissionFor(subs: seq<ProofSubmission>, activityId: Option<Id>, unitId: Option<Id>): Option<ProofSubmission>
  {
    if !Truthy(activityId) || !Truthy(unitId) then None
    else FindByKey(subs, activityId.value, unitId.value)
  }

  /** `currentStatus`. */
  function CurrentStatus(subs: seq<ProofSubmission>, activityId: Option<Id>, unitId: Option<Id>): SubmissionStatus
  {
    var s := SubmissionFor(subs, activityId, unitId);
    if s.Some? then s.value.status else SemComprovacao
  }

  /** The status shown is that of the unit's only submission for the
      activity, and no proof when there is none. */
  lemma {:induction false} CurrentStatusMeaning(subs: seq<ProofSubmission>, activityId: Id, unitId: Id)
    requires activityId != "" && unitId != "" && UniqueKeys(subs)
    ensures (forall j :: 0 <= j < |subs| ==> !HasKey(subs[j], activityId, unitId)) ==>
      CurrentStatus(subs, Some(activityId), Some(unitId)) == SemComprovacao
    ensures forall j :: 0 <= j < |subs| && HasKey(subs[j], activityId, unitId) ==>
      CurrentStatus(subs, Some(activityId), Some(unitId)) == subs[j].status
  {
    forall j | 0 <= j < |subs| && HasKey(subs[j], activityId, unitId)
      ensures CurrentStatus(subs, Some(activityId), Some(unitId)) == subs[j].status
    {
      FindByKeyIsTheOnlyOne(subs, activityId, unitId, j);
    }
  }

  /** Once a proof is sent, the page shows the activity as awaiting review. */
  lemma {:induction false} SentProofIsPending(subs: seq<ProofSubmission>, input: ProofSubmissionInput, freshSubmissionId: Id, freshImageId: Id, now: Timestamp)
    requires UniqueKeys(subs) && input.activityId != "" && input.unitId != ""
    requires SubmitProofSpec(subs, input, freshSubmissionId, freshImageId, now).Success?
    ensures var after := SubmitProofSpec(subs, input, freshSubmissionId, freshImageId, now).value.submissions;
      CurrentStatus(after, Some(input.activityId), Some(input.unitId)) == PendenteAvaliacao
  {
    SubmitProofMakesPending(subs, input, freshSubmissionId, freshImageId, now);
  }

  /** How `submit()` ends. */
  datatype SubmitGuard = FormInvalid | MissingIds | Sent

  function GuardFor(descricao: string, activityId: Option<Id>, unitId: Option<Id>): SubmitGuard
  {
    if !DescricaoValid(descricao) then FormInvalid
    else if !Truthy(activityId) || !Truthy(unitId) then MissingIds
    else Sent
  }

  /** A send the guards let through, with a file the page accepted, always
      stores the entered description as a pending proof for the activity and
      unit, the only one for that pair. */
  lemma {:induction false} SentGuardStoresPendingProof(subs: seq<ProofSubmission>, descricao: string, activityId: Option<Id>,
                                     unitId: Option<Id>, file: Option<ImageFile>, freshSubmissionId: Id, freshImageId: Id, now: Timestamp)
    requires GuardFor(descricao, activityId, unitId) == Sent
    requires file.None? || PageAcceptsFile(file.value)
    requires UniqueKeys(subs)
    ensures activityId.Some? && unitId.Some? && |descricao| >= DescricaoMinLength
    ensures var input := ProofSubmissionInput(activityId.value, unitId.value, Some(descricao), file);
      var r := SubmitProofSpec(subs, input, freshSubmissionId, freshImageId, now);
      r.Success?
      && CurrentStatus(r.value.submissions, activityId, unitId) == PendenteAvaliacao
      && SubmissionFor(r.value.submissions, activityId, unitId) == Some(r.value.submission)
      && r.value.submission.descricaoComprovacao == Some(descricao)
      && UniqueKeys(r.value.submissions)
      && forall j :: 0 <= j < |r.value.submissions| && HasKey(r.value.submissions[j], activityId.value, unitId.value) ==>
           r.value.submissions[j] == r.value.submission
  {
    var input := ProofSubmissionInput(activityId.value, unitId.value, Some(descricao), file);
    if file.Some? {
      PageAndRepositoryAgreeOnFiles(file.value, subs, input, freshSubmissionId, freshImageId, now);
    }
    SubmitProofFailsOnlyOnBadImage(subs, input, freshSubmissionId, freshImageId, now);
    SubmitProofMakesPending(subs, input, freshSubmissionId, freshImageId, now);
    SubmitKeepsUniqueKeys(subs, input, freshSubmissionId, freshImageId, now);
    var after := SubmitProofSpec(subs, input, freshSubmissionId, freshImageId, now).value.submissions;
    forall j | 0 <= j < |after| && HasKey(after[j], activityId.value, unitId.value)
      ensures after[j] == SubmitProofSpec(subs, input, freshSubmissionId, freshImageId, now).value.submission
    {
      FindByKeyIsTheOnlyOne(after, activityId.value, unitId.value, j);
    }
  }

  /** A toast the page shows. */
  datatype Toast = ToastSuccess(text: string) | ToastError(text: string)

  const SentMessage: string := "Comprovacao enviada."

  /** `ActivityDetailPageComponent` on one activity. `reset()` sets the
      description control to null, which the page reads as the empty text
      through `?? ''`. `submissions` is the page's own copy
      of the list: `toSignal(list())` holds `[]` until `list()` emits, and
      `list()` emits once, so nothing the page does afterwards reloads it. */
  class ActivityDetailPageComponent {
    const repo: SubmissionRepository
    const activityId: Option<Id>
    var submissions: seq<ProofSubmission>
    var descricao: string
    var fileError: Option<string>
    var selectedFile: Option<ImageFile>
    var submitting: bool
    var touched: bool
    var toast: Option<Toast>

    constructor(repo: SubmissionRepository, activityId: Option<Id>)
      ensures this.repo == repo && this.activityId == activityId
      ensures descricao == "" && fileError.None? && selectedFile.None? && !submitting && !touched && toast.None?
      ensures submissions == []
    {
      this.repo := repo;
      this.activityId := activityId;
      submissions := [];
      descricao := "";
      fileError, selectedFile := None, None;
      submitting, touched := false, false;
      toast := None;
    }

    /** The one emission of `list()`: a copy of the stored submissions. */
    method ListEmitted()
      modifies this
      ensures submissions == repo.db.submissions
      ensures descricao == old(descricao) && fileError == old(fileError) && selectedFile == old(selectedFile)
      ensures submitting == old(submitting) && touched == old(touched) && toast == old(toast)
    {
      submissions := repo.db.submissions;
    }

    /** `currentStatus` for the session's `unitId`, over the page's copy. */
    function Status(unitId: Option<Id>): SubmissionStatus
      reads this
    {
      CurrentStatus(submissions, activityId, unitId)
    }

    /** What the user types into the description. */
    method Edit(next: string)
      modifies this
      ensures descricao == next
      ensures fileError == old(fileError) && selectedFile == old(selectedFile) && submitting == old(submitting)
      ensures touched == old(touched) && toast == old(toast)
      ensures submissions == old(submissions)
    {
      descricao := next;
    }

    /** `onFileChange(event)` with the first chosen file, if any. */
    method OnFileChange(file: Option<ImageFile>)
      modifies this
      ensures file.Some? && !PageAcceptsFile(file.value) ==> fileError == Some(FileErrorMessage) && selectedFile.None?
      ensures file.None? || PageAcceptsFile(file.value) ==> fileError.None? && selectedFile == file
      ensures descricao == old(descricao) && submitting == old(submitting) && touched == old(touched) && toast == old(toast)
      ensures submissions == old(submissions)
    {
      fileError := None;
      if file.Some? && !PageAcceptsFile(file.value) {
        fileError := Some(FileErrorMessage);
        selectedFile := None;
        return;
      }
      selectedFile := file;
    }

    /** `submit()` for the session's `unitId`. On success `form.reset()`
        empties the description and marks it untouched, the chosen file is
        cleared and `complete` clears `submitting`; after an error `complete`
        does not run, so `submitting` stays set. Nothing reloads the page's
        copy of the list, so the status it shows stays what it was. */
    method Submit(unitId: Option<Id>, freshSubmissionId: Id, freshImageId: Id, now: Timestamp)
      modifies this, repo.db, repo.imageStore
      ensures !GuardFor(old(descricao), activityId, unitId).Sent? ==>
        (repo.db.State() == old(repo.db.State()) && repo.db.storage == old(repo.db.storage)
         && repo.imageStore.images == old(repo.imageStore.images)
         && descricao == old(descricao) && selectedFile == old(selectedFile)
         && submitting == old(submitting) && toast == old(toast))
      ensures match GuardFor(old(descricao), activityId, unitId)
        case FormInvalid => touched
        case MissingIds => touched == old(touched)
        case Sent =>
          var input := ProofSubmissionInput(activityId.value, unitId.value, Some(old(descricao)), old(selectedFile));
          repo.imageStore.images == ImagesAfterSubmit(old(repo.imageStore.images), old(repo.db.submissions), input, freshImageId)
          && match SubmitProofSpec(old(repo.db.submissions), input, freshSubmissionId, freshImageId, now)
             case Failure(e) =>
               (repo.db.State() == old(repo.db.State()) && repo.db.storage == old(repo.db.storage)
                && submitting && toast == Some(ToastError(e.Message()))
                && descricao == old(descricao) && selectedFile == old(selectedFile) && touched == old(touched))
             case Success(w) =>
               (repo.db.submissions == w.submissions && repo.db.storage == repo.db.State()
                && !submitting && toast == Some(ToastSuccess(SentMessage))
                && descricao == "" && selectedFile.None? && !touched)
      ensures repo.db.activities == old(repo.db.activities) && repo.db.units == old(repo.db.units)
      ensures submissions == old(submissions) && fileError == old(fileError)
    {
      var guard := GuardFor(descricao, activityId, unitId);
      if guard == FormInvalid {
        touched := true;
        return;
      }
      if guard == MissingIds {
        return;
      }
      submitting := true;
      var input := ProofSubmissionInput(activityId.value, unitId.value, Some(descricao), selectedFile);
      var r := repo.SubmitProof(input, freshSubmissionId, freshImageId, now);
      match r
      case Failure(e) =>
        toast := Some(ToastError(e.Message()));
      case Success(_) =>
        toast := Some(ToastSuccess(SentMessage));
        descricao := "";
        touched := false;
        selectedFile := None;
        submitting := false;
    }
  }
}
