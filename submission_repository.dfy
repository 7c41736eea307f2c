/** The submission lifecycle: a unit sends a proof for an activity (a new
    submission, or a resubmission that replaces the previous one), and the
    board approves or rejects it. Every change is written back to the
    database's submission list; images live in the image store. */
module Submissions {
  import opened Wrappers
  import opened Models
  import opened Seqs
  import opened MockDb
  import opened ImageStorage

  /** `ProofSubmissionInput`: no file is `undefined` or `null`. */
  datatype ProofSubmissionInput = ProofSubmissionInput(
    activityId: Id,
    unitId: Id,
    descricaoComprovacao: Option<string>,
    imageFile: Option<ImageFile>)

  /** The errors the repository throws, with their messages. */
  datatype SubmissionError = InvalidImageFormat | SubmissionNotFound | ActivityNotFoundForReview {
    function Message(): string
    {
      match this
      case InvalidImageFormat => "Formato de imagem invalido. Envie JPG ou PNG."
      case SubmissionNotFound => "Envio nao encontrado."
      case ActivityNotFoundForReview => "Atividade nao encontrada para avaliacao."
    }
  }

  const AllowedImageTypes: seq<string> := ["image/jpeg", "image/png"]

  /** `isAllowedImage(file)`: JPEG and PNG files only. */
  function IsAllowedImage(file: ImageFile): (r: bool)
    ensures r <==> file.mimeType == "image/jpeg" || file.mimeType == "image/png"
  {
    file.mimeType in AllowedImageTypes
  }

  /** An optional text used as a condition: `undefined` and '' are false. */
  predicate Truthy(o: Option<string>)
  {
    o.Some? && o.value != ""
  }

  /** The submission belongs to this activity and this unit. */
  predicate HasKey(s: ProofSubmission, activityId: Id, unitId: Id)
  {
    s.activityId == activityId && s.unitId == unitId
  }

  predicate DifferentKeys(a: ProofSubmission, b: ProofSubmission)
  {
    !HasKey(b, a.activityId, a.unitId)
  }

  /** At most one submission per activity and unit. */
  ghost predicate UniqueKeys(subs: seq<ProofSubmission>)
  {
    Pairwise(subs, DifferentKeys)
  }

  predicate DifferentIds(a: ProofSubmission, b: ProofSubmission)
  {
    a.id != b.id
  }

  ghost predicate UniqueIds(subs: seq<ProofSubmission>)
  {
    Pairwise(subs, DifferentIds)
  }

  function IndexOfKey(subs: seq<ProofSubmission>, activityId: Id, unitId: Id): (r: int)
    ensures -1 <= r < |subs|
    ensures r >= 0 ==> HasKey(subs[r], activityId, unitId) && forall j :: 0 <= j < r ==> !HasKey(subs[j], activityId, unitId)
    ensures r == -1 ==> forall j :: 0 <= j < |subs| ==> !HasKey(subs[j], activityId, unitId)
  {
    FindIndex(subs, (s: ProofSubmission) => HasKey(s, activityId, unitId))
  }

  function IndexOfId(subs: seq<ProofSubmission>, id: Id): (r: int)
    ensures -1 <= r < |subs|
    ensures r >= 0 ==> subs[r].id == id && forall j :: 0 <= j < r ==> subs[j].id != id
    ensures r == -1 ==> forall j :: 0 <= j < |subs| ==> subs[j].id != id
  {
    FindIndex(subs, (s: ProofSubmission) => s.id == id)
  }

  /** `get(id)`: the first submission with this id. */
  function FindById(subs: seq<ProofSubmission>, id: Id): (r: Option<ProofSubmission>)
    ensures r.Some? ==> r.value.id == id && r.value in subs
    ensures r.None? <==> forall j :: 0 <= j < |subs| ==> subs[j].id != id
  {
    var i := IndexOfId(subs, id);
    if i == -1 then None else Some(subs[i])
  }

  /** `getByActivityAndUnit(activityId, unitId)`: the first submission of this
      activity and unit. */
  function FindByKey(subs: seq<ProofSubmission>, activityId: Id, unitId: Id): (r: Option<ProofSubmission>)
    ensures r.Some? ==> HasKey(r.value, activityId, unitId) && r.value in subs
    ensures r.None? <==> forall j :: 0 <= j < |subs| ==> !HasKey(subs[j], activityId, unitId)
  {
    var i := IndexOfKey(subs, activityId, unitId);
    if i == -1 then None else Some(subs[i])
  }

  /** With unique keys, the submission found for a key is the only one. */
  lemma {:induction false} FindByKeyIsTheOnlyOne(subs: seq<ProofSubmission>, activityId: Id, unitId: Id, j: int)
    requires UniqueKeys(subs) && 0 <= j < |subs| && HasKey(subs[j], activityId, unitId)
    ensures FindByKey(subs, activityId, unitId) == Some(subs[j])
  {
  }

  function FindActivity(activities: seq<Activity>, id: Id): (r: Option<Activity>)
    ensures r.Some? ==> r.value.id == id && r.value in activities
    ensures r.None? <==> forall j :: 0 <= j < |activities| ==> activities[j].id != id
  {
    Find(activities, (a: Activity) => a.id == id)
  }

  /** The shape each status gives a submission: a pending one was submitted
      and carries no review or points; a concluded one was approved and has
      its points; one without proof has no image, no points, and at most a
      rejection. */
  predicate Consistent(s: ProofSubmission)
  {
    match s.status
    case PendenteAvaliacao =>
      s.submittedAt.Some? && s.review.None? && s.reviewedAt.None?
      && s.pontuacaoAprovada.None? && s.pontuacaoBonusAprovada.None?
    case Concluida =>
      s.review.Some? && s.review.value.outcome == Aprovado && s.reviewedAt == Some(s.review.value.reviewedAt)
      && s.pontuacaoAprovada.Some?
    case SemComprovacao =>
      s.imageId.None? && s.pontuacaoAprovada.None? && s.pontuacaoBonusAprovada.None?
      && (s.review.Some? ==> s.review.value.outcome == Reprovado)
  }

  ghost predicate AllConsistent(subs: seq<ProofSubmission>)
  {
    forall i :: 0 <= i < |subs| ==> Consistent(subs[i])
  }

  /** The sample submissions are consistent, one per activity and unit, with distinct ids. */
  lemma {:induction false} SeedSubmissionsAreWellFormed()
    ensures AllConsistent(SubmissionsSeed) && UniqueKeys(SubmissionsSeed) && UniqueIds(SubmissionsSeed)
  {
    SeedSubmissionsAreConsistent();
    SeedKeysDiffer();
    SeedIdsDiffer();
  }

  lemma {:induction false} SeedSubmissionsAreConsistent()
    ensures AllConsistent(SubmissionsSeed)
  {
    forall i | 0 <= i < |SubmissionsSeed| ensures Consistent(SubmissionsSeed[i]) {
      assert i == 0 || i == 1 || i == 2 || i == 3 || i == 4;
    }
  }

  lemma {:induction false} SeedKeysDiffer()
    ensures UniqueKeys(SubmissionsSeed)
  {
    forall i, j | 0 <= i < j < |SubmissionsSeed| ensures DifferentKeys(SubmissionsSeed[i], SubmissionsSeed[j]) {
      SeedActivityIds();
    }
  }

  lemma {:induction false} SeedIdsDiffer()
    ensures UniqueIds(SubmissionsSeed)
  {
    forall i, j | 0 <= i < j < |SubmissionsSeed| ensures DifferentIds(SubmissionsSeed[i], SubmissionsSeed[j]) {
      SeedSubmissionIds();
    }
  }

  /** The seeded submissions name activities `act-1` to `act-5` in turn. */
  lemma {:induction false} SeedActivityIds()
    ensures forall i :: 0 <= i < |SubmissionsSeed| ==> SubmissionsSeed[i].activityId == "act-" + [(i + 1) as char + '0']
  {
  }

  /** The seeded submissions are `sub-1` to `sub-5` in turn. */
  lemma {:induction false} SeedSubmissionIds()
    ensures forall i :: 0 <= i < |SubmissionsSeed| ==> SubmissionsSeed[i].id == "sub-" + [(i + 1) as char + '0']
  {
  }

  /** The image id a submission gets: a fresh one when a file is sent. */
  function ImageIdFor(input: ProofSubmissionInput, freshImageId: Id): Option<Id>
  {
    if input.imageFile.Some? then Some(freshImageId) else None
  }

  /** A first proof for an activity and unit. */
  function NewSubmission(id: Id, input: ProofSubmissionInput, imageId: Option<Id>, now: Timestamp): ProofSubmission
  {
    ProofSubmission(id, input.activityId, input.unitId, PendenteAvaliacao,
      input.descricaoComprovacao, imageId, Some(now), None, None, None, None)
  }

  /** A new proof replacing an earlier one: pending again, and the previous
      review and points are dropped. */
  function Resubmitted(existing: ProofSubmission, input: ProofSubmissionInput, imageId: Option<Id>, now: Timestamp): ProofSubmission
  {
    existing.(status := PendenteAvaliacao, descricaoComprovacao := input.descricaoComprovacao,
      imageId := imageId, submittedAt := Some(now), reviewedAt := None, review := None,
      pontuacaoAprovada := None, pontuacaoBonusAprovada := None)
  }

  /** What a repository call returns and the submission list it writes back. */
  datatype Written = Written(submission: ProofSubmission, submissions: seq<ProofSubmission>)

  /** `submitProof(payload)` on the stored list: a disallowed file is refused;
      otherwise the submission of this activity and unit is replaced, or a
      new one is put first. */
  function SubmitProofSpec(subs: seq<ProofSubmission>, input: ProofSubmissionInput, freshSubmissionId: Id, freshImageId: Id, now: Timestamp): Result<Written, SubmissionError>
  {
    if input.imageFile.Some? && !IsAllowedImage(input.imageFile.value) then Failure(InvalidImageFormat)
    else
      var i := IndexOfKey(subs, input.activityId, input.unitId);
      var imageId := ImageIdFor(input, freshImageId);
      if i == -1 then
        var s := NewSubmission(freshSubmissionId, input, imageId, now);
        Success(Written(s, [s] + subs))
      else
        var s := Resubmitted(subs[i], input, imageId, now);
        Success(Written(s, subs[i := s]))
  }

  /** The image store after `submitProof`: the new file is saved first, then
      the file of the submission it replaces is deleted. */
  function ImagesAfterSubmit(images: map<Id, ImageFile>, subs: seq<ProofSubmission>, input: ProofSubmissionInput, freshImageId: Id): map<Id, ImageFile>
  {
    if input.imageFile.Some? && !IsAllowedImage(input.imageFile.value) then images
    else
      var saved := if input.imageFile.Some? && freshImageId != "" then images[freshImageId := input.imageFile.value] else images;
      var i := IndexOfKey(subs, input.activityId, input.unitId);
      if i >= 0 && Truthy(subs[i].imageId) then saved - {subs[i].imageId.value} else saved
  }

  /** `submitProof` fails exactly on a file that is neither JPEG nor PNG. */
  lemma {:induction false} SubmitProofFailsOnlyOnBadImage(subs: seq<ProofSubmission>, input: ProofSubmissionInput, freshSubmissionId: Id, freshImageId: Id, now: Timestamp)
    ensures SubmitProofSpec(subs, input, freshSubmissionId, freshImageId, now).Failure?
      <==> input.imageFile.Some? && input.imageFile.value.mimeType != "image/jpeg" && input.imageFile.value.mimeType != "image/png"
    ensures SubmitProofSpec(subs, input, freshSubmissionId, freshImageId, now).Failure? ==>
      SubmitProofSpec(subs, input, freshSubmissionId, freshImageId, now).error == InvalidImageFormat
  {
  }

  /** After a successful submit the first submission found for the activity
      and unit is the returned one, pending, carrying the new proof; it keeps
      the id of the submission it replaces. */
  lemma {:induction false} SubmitProofMakesPending(subs: seq<ProofSubmission>, input: ProofSubmissionInput, freshSubmissionId: Id, freshImageId: Id, now: Timestamp)
    requires SubmitProofSpec(subs, input, freshSubmissionId, freshImageId, now).Success?
    ensures var w := SubmitProofSpec(subs, input, freshSubmissionId, freshImageId, now).value;
      FindByKey(w.submissions, input.activityId, input.unitId) == Some(w.submission)
      && w.submission.status == PendenteAvaliacao
      && w.submission.descricaoComprovacao == input.descricaoComprovacao
      && w.submission.imageId == ImageIdFor(input, freshImageId)
      && w.submission.submittedAt == Some(now)
      && w.submission.review.None? && w.submission.pontuacaoAprovada.None?
      && w.submission.id == (match FindByKey(subs, input.activityId, input.unitId)
                             case Some(previous) => previous.id
                             case None => freshSubmissionId)
  {
    var i := IndexOfKey(subs, input.activityId, input.unitId);
    var w := SubmitProofSpec(subs, input, freshSubmissionId, freshImageId, now).value;
    if i == -1 {
      assert w.submissions[0] == w.submission;
      assert IndexOfKey(w.submissions, input.activityId, input.unitId) == 0;
    } else {
      assert forall j :: 0 <= j < i ==> w.submissions[j] == subs[j];
      assert w.submissions[i] == w.submission && HasKey(w.submission, input.activityId, input.unitId);
      assert IndexOfKey(w.submissions, input.activityId, input.unitId) == i;
    }
  }

  /** A submit leaves every other activity-and-unit pair's submissions
      as they were, in the same order: a first proof goes in front of the
      list, and a resubmission is written over the old one at its index. */
  lemma {:induction false} SubmitProofTouchesOnlyItsKey(subs: seq<ProofSubmission>, input: ProofSubmissionInput, freshSubmissionId: Id, freshImageId: Id, now: Timestamp)
    requires SubmitProofSpec(subs, input, freshSubmissionId, freshImageId, now).Success?
    ensures var w := SubmitProofSpec(subs, input, freshSubmissionId, freshImageId, now).value;
      var other := (s: ProofSubmission) => !HasKey(s, input.activityId, input.unitId);
      Filter(w.submissions, other) == Filter(subs, other)
      && |w.submissions| == |subs| + (if FindByKey(subs, input.activityId, input.unitId).None? then 1 else 0)
    ensures var w := SubmitProofSpec(subs, input, freshSubmissionId, freshImageId, now).value;
      var i := IndexOfKey(subs, input.activityId, input.unitId);
      (i == -1 ==> w.submissions[0] == w.submission && w.submissions[1..] == subs)
      && (i >= 0 ==> w.submissions == subs[i := w.submission])
  {
    var other := (s: ProofSubmission) => !HasKey(s, input.activityId, input.unitId);
    var i := IndexOfKey(subs, input.activityId, input.unitId);
    var w := SubmitProofSpec(subs, input, freshSubmissionId, freshImageId, now).value;
    if i == -1 {
      FilterCons(w.submission, subs, other);
    } else {
      FilterUpdate(subs, i, w.submission, other);
    }
  }

  /** A submit never makes a second submission for one activity and unit. */
  lemma {:induction false} SubmitKeepsUniqueKeys(subs: seq<ProofSubmission>, input: ProofSubmissionInput, freshSubmissionId: Id, freshImageId: Id, now: Timestamp)
    requires UniqueKeys(subs)
    requires SubmitProofSpec(subs, input, freshSubmissionId, freshImageId, now).Success?
    ensures UniqueKeys(SubmitProofSpec(subs, input, freshSubmissionId, freshImageId, now).value.submissions)
  {
    var i := IndexOfKey(subs, input.activityId, input.unitId);
    var r := SubmitProofSpec(subs, input, freshSubmissionId, freshImageId, now).value.submissions;
    if i == -1 {
      forall a, b | 0 <= a < b < |r| ensures DifferentKeys(r[a], r[b]) {
        if a > 0 {
          assert r[a] == subs[a - 1] && r[b] == subs[b - 1];
        }
      }
    } else {
      forall a, b | 0 <= a < b < |r| ensures DifferentKeys(r[a], r[b]) {
        assert DifferentKeys(subs[a], subs[b]);
      }
    }
  }

  /** With a fresh submission id, a submit keeps the ids distinct. */
  lemma {:induction false} SubmitKeepsUniqueIds(subs: seq<ProofSubmission>, input: ProofSubmissionInput, freshSubmissionId: Id, freshImageId: Id, now: Timestamp)
    requires UniqueIds(subs) && FindById(subs, freshSubmissionId).None?
    requires SubmitProofSpec(subs, input, freshSubmissionId, freshImageId, now).Success?
    ensures UniqueIds(SubmitProofSpec(subs, input, freshSubmissionId, freshImageId, now).value.submissions)
  {
    var i := IndexOfKey(subs, input.activityId, input.unitId);
    var r := SubmitProofSpec(subs, input, freshSubmissionId, freshImageId, now).value.submissions;
    if i == -1 {
      forall a, b | 0 <= a < b < |r| ensures DifferentIds(r[a], r[b]) {
        if a > 0 {
          assert r[a] == subs[a - 1] && r[b] == subs[b - 1];
        }
      }
    } else {
      forall a, b | 0 <= a < b < |r| ensures DifferentIds(r[a], r[b]) {
        assert DifferentIds(subs[a], subs[b]);
      }
    }
  }

  /** The file sent is kept under the new image id whenever that id is not
      the one of the image being replaced; the replaced image is gone. */
  lemma {:induction false} SubmitStoresTheNewImage(images: map<Id, ImageFile>, subs: seq<ProofSubmission>, input: ProofSubmissionInput, freshImageId: Id)
    requires input.imageFile.Some? && IsAllowedImage(input.imageFile.value) && freshImageId != ""
    ensures var i := IndexOfKey(subs, input.activityId, input.unitId);
      var after := ImagesAfterSubmit(images, subs, input, freshImageId);
      ((i == -1 || subs[i].imageId != Some(freshImageId)) ==>
        freshImageId in after && after[freshImageId] == input.imageFile.value)
      && (i >= 0 && Truthy(subs[i].imageId) ==> subs[i].imageId.value !in after)
  {
  }

  /** `reviewSubmission` approving: concluded, with the adjusted points or
      else the activity's own. */
  function Approved(s: ProofSubmission, decision: ReviewDecision, activity: Activity): ProofSubmission
  {
    s.(status := Concluida, reviewedAt := Some(decision.reviewedAt), review := Some(decision),
      pontuacaoAprovada := Some(decision.pontuacaoAjustada.GetOr(activity.pontuacao)),
      pontuacaoBonusAprovada := decision.pontuacaoBonusAjustada.OrElse(activity.pontuacaoBonus))
  }

  /** `reviewSubmission` rejecting: back to no proof, keeping only the review. */
  function Rejected(s: ProofSubmission, decision: ReviewDecision): ProofSubmission
  {
    s.(status := SemComprovacao, reviewedAt := Some(decision.reviewedAt), review := Some(decision),
      descricaoComprovacao := None, imageId := None, submittedAt := None,
      pontuacaoAprovada := None, pontuacaoBonusAprovada := None)
  }

  function Decided(s: ProofSubmission, decision: ReviewDecision, activity: Activity): ProofSubmission
  {
    if decision.outcome == Aprovado then Approved(s, decision, activity) else Rejected(s, decision)
  }

  /** `reviewSubmission(id, decision)` on the stored lists. */
  function ReviewSpec(subs: seq<ProofSubmission>, activities: seq<Activity>, id: Id, decision: ReviewDecision): Result<Written, SubmissionError>
  {
    var i := IndexOfId(subs, id);
    if i == -1 then Failure(SubmissionNotFound)
    else
      var activity := FindActivity(activities, subs[i].activityId);
      if activity.None? then Failure(ActivityNotFoundForReview)
      else
        var s := Decided(subs[i], decision, activity.value);
        Success(Written(s, subs[i := s]))
  }

  /** The image store after `reviewSubmission`: a rejection deletes the proof image. */
  function ImagesAfterReview(images: map<Id, ImageFile>, subs: seq<ProofSubmission>, activities: seq<Activity>, id: Id, decision: ReviewDecision): map<Id, ImageFile>
  {
    var i := IndexOfId(subs, id);
    if i == -1 || FindActivity(activities, subs[i].activityId).None? then images
    else if decision.outcome == Reprovado && Truthy(subs[i].imageId) then images - {subs[i].imageId.value}
    else images
  }

  /** A review fails exactly when the submission or its activity is unknown,
      and otherwise rewrites only the reviewed submission, keeping its id,
      activity and unit. */
  lemma {:induction false} ReviewErrorsAndFrame(subs: seq<ProofSubmission>, activities: seq<Activity>, id: Id, decision: ReviewDecision)
    ensures var r := ReviewSpec(subs, activities, id, decision);
      (r == Failure(SubmissionNotFound) <==> FindById(subs, id).None?)
      && (r == Failure(ActivityNotFoundForReview) <==>
            FindById(subs, id).Some? && FindActivity(activities, FindById(subs, id).value.activityId).None?)
      && (r.Success? ==>
            var i := IndexOfId(subs, id);
            r.value.submissions == subs[i := r.value.submission]
            && r.value.submission.id == id
            && r.value.submission.activityId == subs[i].activityId
            && r.value.submission.unitId == subs[i].unitId)
  {
  }

  /** Approval concludes the submission with the adjusted points, or else the
      activity's points and bonus; rejection clears the proof and its points. */
  lemma {:induction false} ReviewOutcomes(subs: seq<ProofSubmission>, activities: seq<Activity>, id: Id, decision: ReviewDecision)
    requires ReviewSpec(subs, activities, id, decision).Success?
    ensures var s := ReviewSpec(subs, activities, id, decision).value.submission;
      var activity := FindActivity(activities, FindById(subs, id).value.activityId).value;
      s.review == Some(decision) && s.reviewedAt == Some(decision.reviewedAt)
      && (decision.outcome == Aprovado ==>
            s.status == Concluida
            && s.pontuacaoAprovada == Some(if decision.pontuacaoAjustada.Some? then decision.pontuacaoAjustada.value else activity.pontuacao)
            && s.pontuacaoBonusAprovada == (if decision.pontuacaoBonusAjustada.Some? then decision.pontuacaoBonusAjustada else activity.pontuacaoBonus))
      && (decision.outcome == Reprovado ==>
            s.status == SemComprovacao && s.descricaoComprovacao.None? && s.imageId.None?
            && s.submittedAt.None? && s.pontuacaoAprovada.None? && s.pontuacaoBonusAprovada.None?)
  {
  }

  /** Deciding twice with the same decision is deciding once. */
  lemma {:induction false} DecidingIsIdempotent(s: ProofSubmission, decision: ReviewDecision, activity: Activity)
    ensures Decided(Decided(s, decision, activity), decision, activity) == Decided(s, decision, activity)
  {
  }

  /** A review changes neither keys nor ids. */
  lemma {:induction false} ReviewKeepsUniqueness(subs: seq<ProofSubmission>, activities: seq<Activity>, id: Id, decision: ReviewDecision)
    requires ReviewSpec(subs, activities, id, decision).Success?
    ensures var r := ReviewSpec(subs, activities, id, decision).value.submissions;
      (UniqueKeys(subs) ==> UniqueKeys(r)) && (UniqueIds(subs) ==> UniqueIds(r))
  {
    var i := IndexOfId(subs, id);
    var r := ReviewSpec(subs, activities, id, decision).value.submissions;
    forall a, b | 0 <= a < b < |r|
      ensures (DifferentKeys(subs[a], subs[b]) ==> DifferentKeys(r[a], r[b]))
      ensures (DifferentIds(subs[a], subs[b]) ==> DifferentIds(r[a], r[b]))
    {
    }
  }

  /** Every lifecycle step leaves a submission in a shape its status allows,
      whatever shape it had before. */
  lemma {:induction false} LifecycleStepsAreConsistent(s: ProofSubmission, input: ProofSubmissionInput, imageId: Option<Id>, id: Id, now: Timestamp, decision: ReviewDecision, activity: Activity)
    ensures Consistent(NewSubmission(id, input, imageId, now))
    ensures Consistent(Resubmitted(s, input, imageId, now))
    ensures Consistent(Decided(s, decision, activity))
  {
  }

  lemma {:induction false} SubmitKeepsConsistency(subs: seq<ProofSubmission>, input: ProofSubmissionInput, freshSubmissionId: Id, freshImageId: Id, now: Timestamp)
    requires AllConsistent(subs)
    requires SubmitProofSpec(subs, input, freshSubmissionId, freshImageId, now).Success?
    ensures AllConsistent(SubmitProofSpec(subs, input, freshSubmissionId, freshImageId, now).value.submissions)
  {
    var w := SubmitProofSpec(subs, input, freshSubmissionId, freshImageId, now).value;
    var i := IndexOfKey(subs, input.activityId, input.unitId);
    LifecycleStepsAreConsistent(if i == -1 then w.submission else subs[i], input, ImageIdFor(input, freshImageId), freshSubmissionId, now,
      ReviewDecision("", Aprovado, None, None, None, None, ""), Activity("", "", "", "", "", 0, None, "", ""));
    if i == -1 {
      forall k | 0 <= k < |w.submissions| ensures Consistent(w.submissions[k]) {
        if k > 0 {
          assert w.submissions[k] == subs[k - 1];
        }
      }
    }
  }

  lemma {:induction false} ReviewKeepsConsistency(subs: seq<ProofSubmission>, activities: seq<Activity>, id: Id, decision: ReviewDecision)
    requires AllConsistent(subs)
    requires ReviewSpec(subs, activities, id, decision).Success?
    ensures AllConsistent(ReviewSpec(subs, activities, id, decision).value.submissions)
  {
    var i := IndexOfId(subs, id);
    var activity := FindActivity(activities, subs[i].activityId).value;
    LifecycleStepsAreConsistent(subs[i], ProofSubmissionInput("", "", None, None), None, "", "", decision, activity);
  }

  /** A rejected proof can be sent again: the resubmission is pending and
      drops the rejection. */
  lemma {:induction false} ResubmitAfterRejection(s: ProofSubmission, decision: ReviewDecision, input: ProofSubmissionInput, imageId: Option<Id>, now: Timestamp)
    requires decision.outcome == Reprovado
    ensures var r := Resubmitted(Rejected(s, decision), input, imageId, now);
      r.status == PendenteAvaliacao && r.review.None? && r.reviewedAt.None?
      && r.id == s.id && r.activityId == s.activityId && r.unitId == s.unitId
  {
  }

  /** `delete(id)`: every submission with this id goes. */
  function DeleteSpec(subs: seq<ProofSubmission>, id: Id): seq<ProofSubmission>
  {
    Filter(subs, (s: ProofSubmission) => s.id != id)
  }

  /** The image store after `delete(id)`: the image of the first such submission is deleted. */
  function ImagesAfterDelete(images: map<Id, ImageFile>, subs: seq<ProofSubmission>, id: Id): map<Id, ImageFile>
  {
    var found := FindById(subs, id);
    if found.Some? && Truthy(found.value.imageId) then images - {found.value.imageId.value} else images
  }

  /** A delete keeps every other submission, in order, and nothing with the
      id; an unknown id changes nothing. Uniqueness and consistency survive. */
  lemma {:induction false} DeleteRemovesExactlyTheId(subs: seq<ProofSubmission>, id: Id)
    ensures forall s :: s in DeleteSpec(subs, id) <==> s in subs && s.id != id
    ensures forall s :: multiset(DeleteSpec(subs, id))[s] == if s.id != id then multiset(subs)[s] else 0
    ensures Subsequence(DeleteSpec(subs, id), subs)
    ensures FindById(subs, id).None? ==> DeleteSpec(subs, id) == subs
    ensures UniqueKeys(subs) ==> UniqueKeys(DeleteSpec(subs, id))
    ensures AllConsistent(subs) ==> AllConsistent(DeleteSpec(subs, id))
  {
    var p := (s: ProofSubmission) => s.id != id;
    FilterKeepsOrder(subs, p);
    if FindById(subs, id).None? {
      FilterKeepsAll(subs, p);
    }
    if UniqueKeys(subs) {
      FilterPairwise(subs, p, DifferentKeys);
    }
    var r := DeleteSpec(subs, id);
    if AllConsistent(subs) {
      forall k | 0 <= k < |r| ensures Consistent(r[k]) {
        assert r[k] in subs;
      }
    }
  }

  /** `Partial<ProofSubmission>`: `None` leaves a field alone; for an optional
      field `Some(None)` sets it to `undefined`. */
  datatype SubmissionPatch = SubmissionPatch(
    id: Option<Id>,
    activityId: Option<Id>,
    unitId: Option<Id>,
    status: Option<SubmissionStatus>,
    descricaoComprovacao: Option<Option<string>>,
    imageId: Option<Option<Id>>,
    submittedAt: Option<Option<Timestamp>>,
    reviewedAt: Option<Option<Timestamp>>,
    pontuacaoAprovada: Option<Option<int>>,
    pontuacaoBonusAprovada: Option<Option<int>>,
    review: Option<Option<ReviewDecision>>)

  /** `{ ...existing, ...patch }`. */
  function ApplyPatch(s: ProofSubmission, p: SubmissionPatch): ProofSubmission
  {
    ProofSubmission(
      p.id.GetOr(s.id), p.activityId.GetOr(s.activityId), p.unitId.GetOr(s.unitId), p.status.GetOr(s.status),
      p.descricaoComprovacao.GetOr(s.descricaoComprovacao), p.imageId.GetOr(s.imageId),
      p.submittedAt.GetOr(s.submittedAt), p.reviewedAt.GetOr(s.reviewedAt),
      p.pontuacaoAprovada.GetOr(s.pontuacaoAprovada), p.pontuacaoBonusAprovada.GetOr(s.pontuacaoBonusAprovada),
      p.review.GetOr(s.review))
  }

  /** The patch that names every field of `s`. */
  function FullPatch(s: ProofSubmission): SubmissionPatch
  {
    SubmissionPatch(Some(s.id), Some(s.activityId), Some(s.unitId), Some(s.status), Some(s.descricaoComprovacao),
      Some(s.imageId), Some(s.submittedAt), Some(s.reviewedAt), Some(s.pontuacaoAprovada),
      Some(s.pontuacaoBonusAprovada), Some(s.review))
  }

  const EmptyPatch := SubmissionPatch(None, None, None, None, None, None, None, None, None, None, None)

  /** The empty patch changes nothing, a patch naming every field is a
      replacement, and patching twice with one patch is patching once. */
  lemma {:induction false} PatchLaws(s: ProofSubmission, t: ProofSubmission, p: SubmissionPatch)
    ensures ApplyPatch(s, EmptyPatch) == s
    ensures ApplyPatch(s, FullPatch(t)) == t
    ensures ApplyPatch(ApplyPatch(s, p), p) == ApplyPatch(s, p)
  {
  }

  /** `update(id, payload)` and `patch(id, payload)`: the first submission with
      the id is replaced. */
  function ReplaceSpec(subs: seq<ProofSubmission>, id: Id, next: ProofSubmission -> ProofSubmission): Result<Written, SubmissionError>
  {
    var i := IndexOfId(subs, id);
    if i == -1 then Failure(SubmissionNotFound)
    else Success(Written(next(subs[i]), subs[i := next(subs[i])]))
  }

  /** An update is a patch naming every field, and a patch that leaves the
      activity and unit alone keeps one submission per activity and unit. */
  lemma {:induction false} UpdateAndPatch(subs: seq<ProofSubmission>, id: Id, payload: ProofSubmission, p: SubmissionPatch)
    ensures ReplaceSpec(subs, id, (_: ProofSubmission) => payload) == ReplaceSpec(subs, id, (s: ProofSubmission) => ApplyPatch(s, FullPatch(payload)))
    ensures ReplaceSpec(subs, id, (_: ProofSubmission) => payload).Failure? <==> FindById(subs, id).None?
    ensures p.activityId.None? && p.unitId.None? && UniqueKeys(subs) && ReplaceSpec(subs, id, (s: ProofSubmission) => ApplyPatch(s, p)).Success?
      ==> UniqueKeys(ReplaceSpec(subs, id, (s: ProofSubmission) => ApplyPatch(s, p)).value.submissions)
  {
    var i := IndexOfId(subs, id);
    if i != -1 {
      PatchLaws(subs[i], payload, p);
      var r := subs[i := ApplyPatch(subs[i], p)];
      if p.activityId.None? && p.unitId.None? && UniqueKeys(subs) {
        forall a, b | 0 <= a < b < |r| ensures DifferentKeys(r[a], r[b]) {
          assert DifferentKeys(subs[a], subs[b]);
        }
      }
    }
  }

  /** `update` and `patch` keep one submission per activity and unit exactly
      when the replaced submission's activity and unit belong to no other
      submission of the list. */
  lemma {:induction false} ReplaceKeepsUniqueKeysIffKeyIsFree(subs: seq<ProofSubmission>, id: Id, next: ProofSubmission -> ProofSubmission)
    requires UniqueKeys(subs)
    ensures var r := ReplaceSpec(subs, id, next);
      r.Success? ==>
        (UniqueKeys(r.value.submissions)
         <==> forall j :: 0 <= j < |subs| && j != IndexOfId(subs, id) ==> !HasKey(subs[j], r.value.submission.activityId, r.value.submission.unitId))
  {
    var i := IndexOfId(subs, id);
    if i != -1 {
      var w := ReplaceSpec(subs, id, next).value;
      var n := w.submissions;
      if forall j :: 0 <= j < |subs| && j != i ==> !HasKey(subs[j], w.submission.activityId, w.submission.unitId) {
        forall a, b | 0 <= a < b < |n| ensures DifferentKeys(n[a], n[b]) {
          if a != i && b != i {
            assert DifferentKeys(subs[a], subs[b]);
          } else if a == i {
            assert n[b] == subs[b] && n[a] == w.submission;
            assert !HasKey(subs[b], w.submission.activityId, w.submission.unitId);
          } else {
            assert n[a] == subs[a] && n[b] == w.submission;
            assert !HasKey(subs[a], w.submission.activityId, w.submission.unitId);
          }
        }
      }
      if UniqueKeys(n) {
        forall j | 0 <= j < |subs| && j != i
          ensures !HasKey(subs[j], w.submission.activityId, w.submission.unitId)
        {
          assert n[j] == subs[j] && n[i] == w.submission;
          if j < i {
            assert DifferentKeys(n[j], n[i]);
          } else {
            assert DifferentKeys(n[i], n[j]);
          }
        }
      }
    }
  }

  /** An update may give a submission the key of another one: unlike a
      submit, it does not keep one submission per activity and unit. */
  lemma {:induction false} UpdateCanDuplicateKeys()
    ensures var a := ProofSubmission("s1", "act-1", "u1", PendenteAvaliacao, None, None, None, None, None, None, None);
      var b := a.(id := "s2", unitId := "u2");
      UniqueKeys([a, b])
      && ReplaceSpec([a, b], "s2", (_: ProofSubmission) => b.(unitId := "u1")).Success?
      && !UniqueKeys(ReplaceSpec([a, b], "s2", (_: ProofSubmission) => b.(unitId := "u1")).value.submissions)
  {
    var a := ProofSubmission("s1", "act-1", "u1", PendenteAvaliacao, None, None, None, None, None, None, None);
    var b := a.(id := "s2", unitId := "u2");
    assert IndexOfId([a, b], "s2") == 1 by {
      assert "s1"[1] != "s2"[1];
      assert [a, b][0].id != "s2" && [a, b][1].id == "s2";
    }
    var r := ReplaceSpec([a, b], "s2", (_: ProofSubmission) => b.(unitId := "u1"));
    assert r.Success?;
    assert !DifferentKeys(r.value.submissions[0], r.value.submissions[1]);
  }

  class SubmissionRepository {
    const db: MockDbService
    const imageStore: ImageStore

    constructor(db: MockDbService, imageStore: ImageStore)
      ensures this.db == db && this.imageStore == imageStore
    {
      this.db := db;
      this.imageStore := imageStore;
    }

    /** `list()`. */
    method List() returns (r: seq<ProofSubmission>)
      ensures r == db.submissions
    {
      r := db.submissions;
    }

    /** `get(id)`. */
    method Get(id: Id) returns (r: Option<ProofSubmission>)
      ensures r == FindById(db.submissions, id)
    {
      r := FindById(db.submissions, id);
    }

    /** `getByActivityAndUnit(activityId, unitId)`. */
    method GetByActivityAndUnit(activityId: Id, unitId: Id) returns (r: Option<ProofSubmission>)
      ensures r == FindByKey(db.submissions, activityId, unitId)
    {
      r := FindByKey(db.submissions, activityId, unitId);
    }

    /** `submitProof(payload)`; `freshSubmissionId`, `freshImageId` and `now`
        stand for `createId('sub')`, `createId('img')` and the clock. */
    method SubmitProof(input: ProofSubmissionInput, freshSubmissionId: Id, freshImageId: Id, now: Timestamp)
      returns (r: Result<ProofSubmission, SubmissionError>)
      modifies db, imageStore
      ensures var spec := SubmitProofSpec(old(db.submissions), input, freshSubmissionId, freshImageId, now);
        match spec
        case Failure(e) => r == Failure(e) && db.State() == old(db.State()) && db.storage == old(db.storage)
        case Success(w) => r == Success(w.submission) && db.submissions == w.submissions && db.storage == db.State()
      ensures db.activities == old(db.activities) && db.units == old(db.units)
      ensures imageStore.images == ImagesAfterSubmit(old(imageStore.images), old(db.submissions), input, freshImageId)
    {
      if input.imageFile.Some? && !IsAllowedImage(input.imageFile.value) {
        return Failure(InvalidImageFormat);
      }
      var submissions := db.submissions;
      var existingIndex := IndexOfKey(submissions, input.activityId, input.unitId);
      var imageId := ImageIdFor(input, freshImageId);
      if input.imageFile.Some? && freshImageId != "" {
        imageStore.SaveImage(freshImageId, input.imageFile.value);
      }
      var submission: ProofSubmission;
      if existingIndex == -1 {
        submission := NewSubmission(freshSubmissionId, input, imageId, now);
        db.UpdateSubmissions([submission] + submissions);
      } else {
        var existing := submissions[existingIndex];
        if Truthy(existing.imageId) {
          imageStore.DeleteImage(existing.imageId.value);
        }
        submission := Resubmitted(existing, input, imageId, now);
        db.UpdateSubmissions(submissions[existingIndex := submission]);
      }
      return Success(submission);
    }

    /** `create(payload)` is `submitProof(payload)`. */
    method Create(input: ProofSubmissionInput, freshSubmissionId: Id, freshImageId: Id, now: Timestamp)
      returns (r: Result<ProofSubmission, SubmissionError>)
      modifies db, imageStore
      ensures var spec := SubmitProofSpec(old(db.submissions), input, freshSubmissionId, freshImageId, now);
        match spec
        case Failure(e) => r == Failure(e) && db.State() == old(db.State()) && db.storage == old(db.storage)
        case Success(w) => r == Success(w.submission) && db.submissions == w.submissions && db.storage == db.State()
      ensures db.activities == old(db.activities) && db.units == old(db.units)
      ensures imageStore.images == ImagesAfterSubmit(old(imageStore.images), old(db.submissions), input, freshImageId)
    {
      r := SubmitProof(input, freshSubmissionId, freshImageId, now);
    }

    /** `reviewSubmission(id, decision)`. */
    method ReviewSubmission(id: Id, decision: ReviewDecision) returns (r: Result<ProofSubmission, SubmissionError>)
      modifies db, imageStore
      ensures var spec := ReviewSpec(old(db.submissions), old(db.activities), id, decision);
        match spec
        case Failure(e) => r == Failure(e) && db.State() == old(db.State()) && db.storage == old(db.storage)
        case Success(w) => r == Success(w.submission) && db.submissions == w.submissions && db.storage == db.State()
      ensures db.activities == old(db.activities) && db.units == old(db.units)
      ensures imageStore.images == ImagesAfterReview(old(imageStore.images), old(db.submissions), old(db.activities), id, decision)
    {
      var submissions := db.submissions;
      var index := IndexOfId(submissions, id);
      if index == -1 {
        return Failure(SubmissionNotFound);
      }
      var submission := submissions[index];
      var activity := FindActivity(db.activities, submission.activityId);
      if activity.None? {
        return Failure(ActivityNotFoundForReview);
      }
      var next: ProofSubmission;
      if decision.outcome == Aprovado {
        next := Approved(submission, decision, activity.value);
      } else {
        if Truthy(submission.imageId) {
          imageStore.DeleteImage(submission.imageId.value);
        }
        next := Rejected(submission, decision);
      }
      db.UpdateSubmissions(submissions[index := next]);
      return Success(next);
    }

    /** `update(id, payload)`. */
    method Update(id: Id, payload: ProofSubmission) returns (r: Result<ProofSubmission, SubmissionError>)
      modifies db
      ensures var spec := ReplaceSpec(old(db.submissions), id, (_: ProofSubmission) => payload);
        match spec
        case Failure(e) => r == Failure(e) && db.State() == old(db.State()) && db.storage == old(db.storage)
        case Success(w) => r == Success(w.submission) && db.submissions == w.submissions && db.storage == db.State()
      ensures db.activities == old(db.activities) && db.units == old(db.units)
    {
      var submissions := db.submissions;
      var index := IndexOfId(submissions, id);
      if index == -1 {
        return Failure(SubmissionNotFound);
      }
      db.UpdateSubmissions(submissions[index := payload]);
      return Success(payload);
    }

    /** `patch(id, payload)`. */
    method Patch(id: Id, payload: SubmissionPatch) returns (r: Result<ProofSubmission, SubmissionError>)
      modifies db
      ensures var spec := ReplaceSpec(old(db.submissions), id, (s: ProofSubmission) => ApplyPatch(s, payload));
        match spec
        case Failure(e) => r == Failure(e) && db.State() == old(db.State()) && db.storage == old(db.storage)
        case Success(w) => r == Success(w.submission) && db.submissions == w.submissions && db.storage == db.State()
      ensures db.activities == old(db.activities) && db.units == old(db.units)
    {
      var submissions := db.submissions;
      var index := IndexOfId(submissions, id);
      if index == -1 {
        return Failure(SubmissionNotFound);
      }
      var next := ApplyPatch(submissions[index], payload);
      db.UpdateSubmissions(submissions[index := next]);
      return Success(next);
    }

    /** `delete(id)`. */
    method Delete(id: Id)
      modifies db, imageStore
      ensures db.submissions == DeleteSpec(old(db.submissions), id)
      ensures db.activities == old(db.activities) && db.units == old(db.units) && db.storage == db.State()
      ensures imageStore.images == ImagesAfterDelete(old(imageStore.images), old(db.submissions), id)
    {
      var submissions := db.submissions;
      var submission := FindById(submissions, id);
      if submission.Some? && Truthy(submission.value.imageId) {
        imageStore.DeleteImage(submission.value.imageId.value);
      }
      db.UpdateSubmissions(DeleteSpec(submissions, id));
    }

    /** `loadImage(imageId)`. */
    method LoadImage(imageId: Id) returns (r: Option<ImageFile>)
      ensures r == imageStore.GetImage(imageId)
    {
      r := imageStore.GetImage(imageId);
    }
  }
}
