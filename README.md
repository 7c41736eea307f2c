# Pathfinder club unit ranking — a Dafny model

The application runs a points competition between the units of a Pathfinder
club. The board (`DIRETORIA`) publishes activities, each worth points and
possibly a bonus. A unit sends a proof for an activity: a description and, optionally, a
JPEG or PNG image. The board then approves the proof, with the points
possibly adjusted, or rejects it with a justification. The ranking sums each
unit's approved points over the activities of a chosen period and orders the
units by total.

Everything lives in the browser. An in-memory database of three lists
(activities, submissions, units) is mirrored to local storage and seeded
with sample data on first use. Proof images go to a separate image store.

This project models that core in Dafny:

- the database service and its seed (`MockDb`);
- the image store (`ImageStorage`);
- the submission lifecycle: submit, resubmit, review, update, patch, delete (`Submissions`);
- the activity repository, whose delete cascades to submissions (`Activities`);
- the ranking aggregation and its stable sort (`Ranking`);
- the session context (`Session`);
- the pure rules of the pages that drive those operations: the review dialog, the activity
  list, form and detail pages, the pending-reviews queue, the ranking board
  and the dashboard.

Shared modules:

- `Wrappers`: `Option` and `Result`.
- `Seqs`: filters, index counts and sums.
- `Text`: the string operations the pages call.
- `Dates`: the pages' `toDate`/`fromDate` and `new Date(text)`.
- `Models`: the record types.

Objects whose fields the source updates are modelled as classes. The
database service, image store, repositories, session service and page
components each become a class, with methods whose contracts state the
whole new state. Each state change is specified by a pure function of the
old state, such as `SubmitProofSpec`, `ReviewSpec` or `ComputeRanking`. The
lemmas about those functions carry the properties: one submission per
activity and unit, the shape each status allows, the ranking's order,
permutation and stability, and the round trips of the date fields.

`Scenarios` works the seeded data through by hand:

- the standing the seed starts with;
- approving or rejecting the pending service project;
- a March period that leaves the February camp out.

## Model

| member | source | states |
|---|---|---|
| MockDb.MergeReplacesNamedLists | src/app/data/mock-db.service.ts:60-64 | a state update replaces exactly the lists the partial names; the empty partial changes nothing; repeating an update changes nothing more |
| MockDb.LoadInitialState | src/app/data/mock-db.service.ts:66-87 | nothing stored gives the seeds; otherwise each non-empty stored list is kept and each empty one falls back to its own seed |
| MockDb.LoadIsIdempotent | src/app/data/mock-db.service.ts:66-87 | a loaded state has no empty list, and loading it again gives it back |
| MockDb.ReloadKeepsStateIffNoListEmpty | src/app/data/mock-db.service.ts:66-87 | a state survives a reload exactly when none of its lists is empty |
| MockDb.MockDbService.constructor | src/app/data/mock-db.service.ts:33-35 | the service starts from the loaded state, and storage holds the seeds only after a first start |
| MockDb.MockDbService.UpdateState | src/app/data/mock-db.service.ts:60-64 | the new state is the merge of the old one with the partial, and storage mirrors it |
| MockDb.MockDbService.UpdateActivities | src/app/data/mock-db.service.ts:37-39 | replaces the activities only, other lists unchanged, persisted |
| MockDb.MockDbService.UpdateSubmissions | src/app/data/mock-db.service.ts:41-43 | replaces the submissions only, other lists unchanged, persisted |
| MockDb.MockDbService.UpdateUnits | src/app/data/mock-db.service.ts:45-47 | replaces the units only, other lists unchanged, persisted |
| MockDb.MockDbService.Reset | src/app/data/mock-db.service.ts:49-58 | state and storage are both the seed |
| ImageStorage.ImageStore.SaveImage | src/app/data/storage/indexeddb.service.ts:27-33 | the file is kept under its id and every other entry is unchanged |
| ImageStorage.ImageStore.DeleteImage | src/app/data/storage/indexeddb.service.ts:43-49 | nothing is kept under the id afterwards and every other entry is unchanged |
| ImageStorage.ImageStore.GetImage | src/app/data/storage/indexeddb.service.ts:35-41 | a file is found exactly when one is kept under the id, and it is that file |
| Submissions.IsAllowedImage | src/app/features/ranking/services/submission.repository.ts:193-195 | JPEG and PNG, and nothing else, are accepted |
| Submissions.FindById | src/app/features/ranking/services/submission.repository.ts:29-31 | a found submission has the id and is in the list; nothing is found exactly when no submission has the id |
| Submissions.FindByKey | src/app/features/ranking/services/submission.repository.ts:33-37 | a found submission belongs to the activity and unit; nothing is found exactly when none does |
| Submissions.FindByKeyIsTheOnlyOne | src/app/features/ranking/services/submission.repository.ts:33-37 | when keys are unique, the submission found for a key is the one submission with that key |
| Submissions.FindActivity | src/app/features/ranking/services/submission.repository.ts:146-149 | a found activity has the id and is in the list; none is found exactly when no activity has the id |
| Submissions.SeedSubmissionsAreWellFormed | src/app/data/seed.ts:78-143 | the seed submissions have the shape their status allows, one per activity and unit, with distinct ids |
| Submissions.SubmitProofFailsOnlyOnBadImage | src/app/features/ranking/services/submission.repository.ts:84-136 | a submit fails exactly when a file is sent that is neither JPEG nor PNG, with the invalid-format error |
| Submissions.SubmitProofMakesPending | src/app/features/ranking/services/submission.repository.ts:90-132 | for any list, after a submit the first submission found for the activity and unit is the returned one: pending, with the new description, image and send time, and no review or points; a resubmission keeps the old id |
| Submissions.SubmitProofTouchesOnlyItsKey | src/app/features/ranking/services/submission.repository.ts:90-132 | the submissions of every other activity and unit are unchanged and in order; a first proof is put in front of the unchanged list, which grows by one, and a resubmission overwrites the pair's submission at its own index |
| Submissions.SubmitKeepsUniqueKeys | src/app/features/ranking/services/submission.repository.ts:90-132 | a submit never creates a second submission for an activity and unit |
| Submissions.SubmitKeepsUniqueIds | src/app/features/ranking/services/submission.repository.ts:102-112 | with a fresh submission id, the ids stay distinct |
| Submissions.SubmitStoresTheNewImage | src/app/features/ranking/services/submission.repository.ts:95-117 | the sent file is stored under the new image id, and the replaced submission's image is deleted |
| Submissions.ReviewErrorsAndFrame | src/app/features/ranking/services/submission.repository.ts:138-187 | a review fails with not-found exactly when the id or its activity is unknown; otherwise only that submission is rewritten, keeping its id, activity and unit |
| Submissions.ReviewOutcomes | src/app/features/ranking/services/submission.repository.ts:150-180 | approval concludes with the adjusted points or else the activity's; rejection clears the proof and its points; both record the decision |
| Submissions.DecidingIsIdempotent | src/app/features/ranking/services/submission.repository.ts:150-180 | applying the same decision twice is applying it once |
| Submissions.ReviewKeepsUniqueness | src/app/features/ranking/services/submission.repository.ts:182-185 | a review keeps keys and ids unique |
| Submissions.LifecycleStepsAreConsistent | src/app/features/ranking/services/submission.repository.ts:102-180 | a new proof, a resubmission and a decision each leave a submission in the shape its status allows |
| Submissions.SubmitKeepsConsistency | src/app/features/ranking/services/submission.repository.ts:84-136 | a submit keeps every submission in the shape its status allows |
| Submissions.ReviewKeepsConsistency | src/app/features/ranking/services/submission.repository.ts:138-187 | a review keeps every submission in the shape its status allows |
| Submissions.ResubmitAfterRejection | src/app/features/ranking/services/submission.repository.ts:113-132 | a rejected proof can be sent again; the result is pending, has no review and keeps its id, activity and unit |
| Submissions.DeleteRemovesExactlyTheId | src/app/features/ranking/services/submission.repository.ts:73-82 | a delete keeps exactly the submissions without the id, in order; an unknown id changes nothing; uniqueness and consistency survive |
| Submissions.PatchLaws | src/app/features/ranking/services/submission.repository.ts:58-71 | the empty patch changes nothing, a patch naming every field is a replacement, and patching twice is patching once |
| Submissions.UpdateAndPatch | src/app/features/ranking/services/submission.repository.ts:43-71 | an update is a patch naming every field, and fails exactly on an unknown id; a patch that leaves the activity and unit alone keeps keys unique |
| Submissions.ReplaceKeepsUniqueKeysIffKeyIsFree | src/app/features/ranking/services/submission.repository.ts:43-71 | a successful update or patch of a list with one submission per activity and unit keeps that exactly when the new submission's activity and unit belong to no other entry of the list |
| Submissions.UpdateCanDuplicateKeys | src/app/features/ranking/services/submission.repository.ts:43-56 | an update can give two submissions the same activity and unit |
| Submissions.SubmissionRepository.List | src/app/features/ranking/services/submission.repository.ts:25-27 | returns the stored submissions |
| Submissions.SubmissionRepository.Get | src/app/features/ranking/services/submission.repository.ts:29-31 | returns the submission found by id |
| Submissions.SubmissionRepository.GetByActivityAndUnit | src/app/features/ranking/services/submission.repository.ts:33-37 | returns the submission found by activity and unit |
| Submissions.SubmissionRepository.SubmitProof | src/app/features/ranking/services/submission.repository.ts:84-136 | on failure nothing changes; on success the stored list is the submit's result, persisted; the image store follows the submit |
| Submissions.SubmissionRepository.Create | src/app/features/ranking/services/submission.repository.ts:39-41 | the same as a submit |
| Submissions.SubmissionRepository.ReviewSubmission | src/app/features/ranking/services/submission.repository.ts:138-187 | on failure nothing changes; on success the stored list is the review's result, persisted, and a rejection deletes the proof image |
| Submissions.SubmissionRepository.Update | src/app/features/ranking/services/submission.repository.ts:43-56 | the first submission with the id is replaced by the payload, or not-found with nothing changed |
| Submissions.SubmissionRepository.Patch | src/app/features/ranking/services/submission.repository.ts:58-71 | the first submission with the id is patched, or not-found with nothing changed |
| Submissions.SubmissionRepository.Delete | src/app/features/ranking/services/submission.repository.ts:73-82 | removes every submission with the id and the first one's image |
| Submissions.SubmissionRepository.LoadImage | src/app/features/ranking/services/submission.repository.ts:189-191 | returns the stored image for the id, if any |
| Activities.CreateLaws | src/app/features/ranking/services/activity.repository.ts:21-33 | a new activity carries the input and the fresh id, is created and updated at the same instant, goes first and is found under its id; fresh ids keep ids distinct |
| Activities.UpdateIsPatchOfPayload | src/app/features/ranking/services/activity.repository.ts:35-73 | an update is a patch of the payload's fields; it fails exactly on an unknown id and otherwise keeps id and creation time and sets the update time |
| Activities.PatchLaws | src/app/features/ranking/services/activity.repository.ts:55-73 | the empty patch only refreshes the update time; a patch that leaves the id alone keeps ids distinct |
| Activities.PatchCanOrphanSubmissions | src/app/features/ranking/services/activity.repository.ts:55-73 | a patch can rename an activity so that its id no longer finds it |
| Activities.DeleteCascades | src/app/features/ranking/services/activity.repository.ts:75-82 | deleting removes exactly the activity and its submissions, keeps the rest in order and the units untouched, and keeps uniqueness and consistency |
| Activities.DeleteLeavesImagesBehind | src/app/features/ranking/services/activity.repository.ts:75-82 | the store becomes the cascading delete and the image store keeps every image, so each image of a deleted submission stays stored after the submission is gone |
| Activities.ActivityRepository.List | src/app/features/ranking/services/activity.repository.ts:13-15 | returns the stored activities |
| Activities.ActivityRepository.Get | src/app/features/ranking/services/activity.repository.ts:17-19 | returns the activity found by id |
| Activities.ActivityRepository.Create | src/app/features/ranking/services/activity.repository.ts:21-33 | stores the created activity first; submissions and units unchanged |
| Activities.ActivityRepository.Update | src/app/features/ranking/services/activity.repository.ts:35-53 | replaces the activity with the updated one, or not-found with nothing changed |
| Activities.ActivityRepository.Patch | src/app/features/ranking/services/activity.repository.ts:55-73 | replaces the activity with the patched one, or not-found with nothing changed |
| Activities.ActivityRepository.Delete | src/app/features/ranking/services/activity.repository.ts:75-82 | the new state is the cascading delete, persisted |
| Ranking.Bound | src/app/features/ranking/services/ranking.repository.ts:37-38 | a range or bound that is missing or empty is no bound |
| Ranking.EntryMeaning | src/app/features/ranking/services/ranking.repository.ts:55-73 | a unit's total is the sum of the points of its concluded submissions in the period; its counts are the numbers of its concluded and pending submissions there |
| Ranking.PointsOfCountedSubmission | src/app/features/ranking/services/ranking.repository.ts:61-66 | a counted submission finds its activity, and missing approved values fall back to the activity's points and bonus |
| Ranking.Entries | src/app/features/ranking/services/ranking.repository.ts:55-73 | one entry per unit, the unit's own, in the units' order |
| Ranking.SortKeepsEntries | src/app/features/ranking/services/ranking.repository.ts:75 | the sort is a permutation |
| Ranking.SortIsSorted | src/app/features/ranking/services/ranking.repository.ts:75 | the sort orders by total, highest first |
| Ranking.SortIsStable | src/app/features/ranking/services/ranking.repository.ts:75 | entries with equal totals keep their relative order |
| Ranking.RankingLaws | src/app/features/ranking/services/ranking.repository.ts:33-76 | the ranking holds exactly one entry per unit, the unit's own, sorted by total, and ties appear in the units' order |
| Ranking.NoBoundsKeepAll | src/app/features/ranking/services/ranking.repository.ts:40-53 | without bounds every activity is in the period |
| Ranking.InPeriodIffOverlap | src/app/features/ranking/services/ranking.repository.ts:40-53 | with valid dates, an activity is in the period exactly when some day lies in both |
| Ranking.InvalidDatesExcludeNothing | src/app/features/ranking/services/ranking.repository.ts:40-53 | an activity whose dates do not parse, or a bound that does not parse, excludes nothing |
| Ranking.RankingRepository.GetRankingSnapshot | src/app/features/ranking/services/ranking.repository.ts:25-27 | the ranking of all activities for the current state |
| Ranking.RankingRepository.GetRankingSnapshotForPeriod | src/app/features/ranking/services/ranking.repository.ts:29-31 | the ranking for the given period and the current state |
| Session.MergeContext | src/app/core/services/session.service.ts:46-50 | each field is the partial's when it names it, else the context's |
| Session.UnitFor | src/app/core/services/session.service.ts:23 | the board gets no unit; another profile keeps its unit or gets the first unit when there is one |
| Session.MergeLaws | src/app/core/services/session.service.ts:46-50 | merging nothing changes nothing, a full partial replaces the context, and merging twice is merging once |
| Session.InitialContextLaws | src/app/core/services/session.service.ts:21-25 | a new session never gives the board a unit; another profile gets a unit when units exist; nothing stored gives the board's default; a stored profile and name are kept |
| Session.SetProfileLaws | src/app/core/services/session.service.ts:27-33 | the chosen profile and its name are set, the board has no unit, another profile keeps its unit, and choosing again changes nothing |
| Session.SetUnitLaws | src/app/core/services/session.service.ts:35-40 | the board's choice changes nothing; another profile gets the unit and keeps profile and name |
| Session.UpdateContextCanGiveTheBoardAUnit | src/app/core/services/session.service.ts:46-50 | a bare update to the board profile keeps a unit that was set |
| Session.ReloadRestoresContext | src/app/core/services/session.service.ts:21-25 | a stored context comes back unchanged exactly when the board has no unit in it and a unit-less non-board context has no unit to default to |
| Session.SessionService.constructor | src/app/core/services/session.service.ts:21-25 | the context is the initial context of what is stored; nothing is written |
| Session.SessionService.UpdateContext | src/app/core/services/session.service.ts:46-50 | the context is the merge, and it is stored |
| Session.SessionService.SetProfile | src/app/core/services/session.service.ts:27-33 | the context is merged with the profile's partial, and stored |
| Session.SessionService.SetUnit | src/app/core/services/session.service.ts:35-40 | the context gets the unit unless it is the board's, which stores nothing |
| Session.SessionService.SetDisplayName | src/app/core/services/session.service.ts:42-44 | only the name changes, and the context is stored |
| ReviewDialog.AprovarContract | src/app/features/ranking/components/review-dialog.component.ts:109-144 | for the corrected approval: sent exactly when the form is valid and any adjustment is justified, with the entered points and bonus, and with the justification exactly when something was adjusted |
| ReviewDialog.AprovarAsWrittenContract | src/app/features/ranking/components/review-dialog.component.ts:109-144 | for the approval as written (`AprovarAsWritten`): sent under the same conditions, with the entered points, with the bonus only when it is not 0, and with the justification exactly when something was adjusted |
| ReviewDialog.ReprovarContract | src/app/features/ranking/components/review-dialog.component.ts:146-167 | rejection is sent exactly when its justification is not blank, carrying it and no points |
| ReviewDialog.ApprovalRecordsTheForm | src/app/features/ranking/components/review-dialog.component.ts:126-133 | with the corrected approval, the approved submission records exactly the points and bonus left in the form |
| ReviewDialog.UntouchedFormApprovesAsIs | src/app/features/ranking/components/review-dialog.component.ts:90-95 | with the corrected approval, approving the form as it opens needs no justification and gives the activity's points, and its bonus or 0 |
| ReviewDialog.UntouchedFormApprovesAsWritten | src/app/features/ranking/components/review-dialog.component.ts:90-133 | as written, approving the form as it opens needs no justification and gives the activity's own points and bonus; an activity without a bonus sends none and stores none |
| ReviewDialog.AsWrittenAgreesOnNonZeroBonus | src/app/features/ranking/components/review-dialog.component.ts:126-133 | the source's approval and the corrected one agree whenever the bonus is not 0 |
| ReviewDialog.AsWrittenKeepsBonusSetToZero | src/app/features/ranking/components/review-dialog.component.ts:130 | as written, lowering the bonus to 0, justified, still approves the activity's full bonus |
| ReviewDialog.ReviewDialogComponent.constructor | src/app/features/ranking/components/review-dialog.component.ts:90-102 | the dialog opens on the activity's points and bonus, not busy |
| ReviewDialog.ReviewDialogComponent.Edit | src/app/features/ranking/components/review-dialog.component.ts:90-95 | the form holds what the reviewer typed; nothing else changes |
| ReviewDialog.ReviewDialogComponent.Send | src/app/features/ranking/components/review-dialog.component.ts:135-143 | on success the store holds the review's result, a toast shows and the dialog closes; on an error only the message shows and the busy flag stays |
| ReviewDialog.ReviewDialogComponent.Approve | src/app/features/ranking/components/review-dialog.component.ts:109-144 | runs the approval as written: an invalid form is marked touched and a refused click only toasts, both leaving the store, its storage and the images as they were; a sent approval, whose bonus of 0 goes as none, ends as the review does, with the stored list mirrored to storage on success and the images as the review leaves them |
| ReviewDialog.ReviewDialogComponent.Reject | src/app/features/ranking/components/review-dialog.component.ts:146-167 | a blank justification only toasts and changes no data; a sent rejection ends as the review does, the rejected proof's image deleted and the stored list mirrored to storage on success, and everything kept on an error |
| ActivitiesPage.FilteredActivitiesMeaning | src/app/features/ranking/pages/activities.page.ts:163-201 | the list is exactly the activities every filter keeps, in their order |
| ActivitiesPage.EmptyFiltersShowEverything | src/app/features/ranking/pages/activities.page.ts:163-201 | a blank search, no period and every status show every activity |
| ActivitiesPage.ClearedFiltersShowEverything | src/app/features/ranking/pages/activities.page.ts:235-240 | after clearing the filters every activity is shown |
| ActivitiesPage.TextMatchesMeaning | src/app/features/ranking/pages/activities.page.ts:170-177 | a non-empty term matches exactly when it occurs in the lower-cased name or description |
| ActivitiesPage.GeneralStatusMeaning | src/app/features/ranking/pages/activities.page.ts:268-277 | the board's status is pending exactly when some submission is pending, concluded exactly when none is pending and some is concluded |
| ActivitiesPage.UnitStatusMeaning | src/app/features/ranking/pages/activities.page.ts:242-251 | for any list, a unit sees the status of its first submission for the activity, and no proof without one or without a unit |
| ActivitiesPage.WrittenBound | src/app/features/ranking/pages/activities.page.ts:203-222 | a written date bound reads back as the same day through both date readers, and is empty exactly for no date |
| ActivitiesPage.PeriodAgreesWithRanking | src/app/features/ranking/pages/activities.page.ts:178-194 | on dates as the pages write them, the list's period filter and the ranking's agree |
| ActivitiesPage.MissingDatesDifferFromRanking | src/app/features/ranking/pages/activities.page.ts:178-194 | with a period chosen, an activity without dates is dropped by the list and kept by the ranking |
| ActivitiesPage.ActivitiesPageComponent.constructor | src/app/features/ranking/pages/activities.page.ts:147-151 | the page opens with an empty search and period, every status, and the filter panel closed |
| ActivitiesPage.ActivitiesPageComponent.SetStatusFilter | src/app/features/ranking/pages/activities.page.ts:224-229 | a single choice becomes the status filter, a multiple one is ignored; nothing else changes |
| ActivitiesPage.ActivitiesPageComponent.ToggleFilters | src/app/features/ranking/pages/activities.page.ts:231-233 | flips the filter panel; nothing else changes |
| ActivitiesPage.ActivitiesPageComponent.ClearFilters | src/app/features/ranking/pages/activities.page.ts:235-240 | every filter is back to its empty value |
| ActivityFormPage.ValidarPeriodoAcceptsNonEmptyPeriods | src/app/features/ranking/pages/activity-form.page.ts:167-174 | no error while a date is missing; with both, the period passes exactly when both are real dates and some day lies between them |
| ActivityFormPage.ValidFormGivesSoundPayload | src/app/features/ranking/pages/activity-form.page.ts:99-111 | a valid form sends two real dates in order, at least one point, no negative bonus, and a bonus of 0 as none |
| ActivityFormPage.SaveWritesTheRoutedActivity | src/app/features/ranking/pages/activity-form.page.ts:135-152 | a valid form with a routed id updates that activity and no other one, failing exactly on an unknown id; without an id it puts a new activity with the payload ahead of the others |
| ActivityFormPage.UnchangedEditKeepsActivity | src/app/features/ranking/pages/activity-form.page.ts:124-148 | saving an untouched edit form changes only the update time, and a bonus of 0 becomes none |
| ActivityFormPage.EditFormOfValidActivityIsValid | src/app/features/ranking/pages/activity-form.page.ts:124-131 | the edit form of an activity the form could have created is valid |
| ActivityFormPage.ActivityFormPageComponent.constructor | src/app/features/ranking/pages/activity-form.page.ts:113-133 | the form holds the routed activity when it exists, else the empty form |
| ActivityFormPage.ActivityFormPageComponent.Edit | src/app/features/ranking/pages/activity-form.page.ts:99-111 | the form holds what the user typed; nothing else changes |
| ActivityFormPage.ActivityFormPageComponent.Save | src/app/features/ranking/pages/activity-form.page.ts:135-165 | an invalid form is marked touched and nothing is stored; a create or update stores its result, mirrors it to storage and navigates; a failed update shows its message, clears the busy flag and keeps the data and storage; the form and the touched flag are otherwise unchanged |
| ActivityDetailPage.PageAndRepositoryAgreeOnFiles | src/app/features/ranking/pages/activity-detail.page.ts:184-202 | the page accepts exactly the files the repository accepts, so its submit never fails on the file |
| ActivityDetailPage.CurrentStatusMeaning | src/app/features/ranking/pages/activity-detail.page.ts:144-154 | the status shown is that of the unit's only submission for the activity, and no proof without one |
| ActivityDetailPage.SentProofIsPending | src/app/features/ranking/pages/activity-detail.page.ts:144-154 | after a successful send, the status over the store's new list is awaiting review; the page's own copy of the list is not reloaded |
| ActivityDetailPage.SentGuardStoresPendingProof | src/app/features/ranking/pages/activity-detail.page.ts:204-222 | a send the guards let through, with a file the page accepted, always succeeds and stores the entered description as a pending proof, which is then the only submission for the activity and unit |
| ActivityDetailPage.ActivityDetailPageComponent.ListEmitted | src/app/features/ranking/pages/activity-detail.page.ts:142 | the page's list becomes a copy of the stored submissions |
| ActivityDetailPage.ActivityDetailPageComponent.constructor | src/app/features/ranking/pages/activity-detail.page.ts:117-142 | the page opens with an empty description, no file, no error, not busy, and an empty copy of the list until `list()` emits |
| ActivityDetailPage.ActivityDetailPageComponent.Edit | src/app/features/ranking/pages/activity-detail.page.ts:156-158 | the description holds what the user typed; nothing else changes |
| ActivityDetailPage.ActivityDetailPageComponent.OnFileChange | src/app/features/ranking/pages/activity-detail.page.ts:184-202 | a refused file shows the error and clears the choice; another becomes the chosen file |
| ActivityDetailPage.ActivityDetailPageComponent.Submit | src/app/features/ranking/pages/activity-detail.page.ts:204-237 | an invalid form or a missing id changes no data, storage or image; a send stores the submit's result and its images, mirrors it to storage and resets the form to empty and untouched; after an error the data, storage and form stay and the busy flag stays set; the page's copy of the list is unchanged |
| PendingReviewsPage.FindUnit | src/app/features/ranking/pages/pending-reviews.page.ts:175 | a found unit has the id; none is found exactly when no unit has it |
| PendingReviewsPage.RowsAreTheJoinablePending | src/app/features/ranking/pages/pending-reviews.page.ts:170-182 | the rows are exactly the pending submissions whose activity and unit exist, in order, each with its own activity and unit |
| PendingReviewsPage.FilteredRowsMeaning | src/app/features/ranking/pages/pending-reviews.page.ts:184-203 | the filtered rows are exactly the rows every filter keeps, in order |
| PendingReviewsPage.EmptyFiltersShowAllRows | src/app/features/ranking/pages/pending-reviews.page.ts:184-203 | without filters every row is shown |
| PendingReviewsPage.DayFilterMeaning | src/app/features/ranking/pages/pending-reviews.page.ts:195-200 | a picked day keeps the rows sent that day and drops those sent on another |
| PendingReviewsPage.StaleDayFilterKeepsOtherDays | src/app/features/ranking/pages/pending-reviews.page.ts:160 | a row sent on another day is shown before the pick and dropped by the day filter, so the unrefreshed list is wrong |
| PendingReviewsPage.PendingReviewsPageComponent.constructor | src/app/features/ranking/pages/pending-reviews.page.ts:158-160 | the queue opens with every filter empty, and the list shown follows them |
| PendingReviewsPage.PendingReviewsPageComponent.SetUnitFilter | src/app/features/ranking/pages/pending-reviews.page.ts:205-210 | a single new choice becomes the filter and re-runs the list with the current date; otherwise nothing changes |
| PendingReviewsPage.PendingReviewsPageComponent.SetActivityFilter | src/app/features/ranking/pages/pending-reviews.page.ts:212-217 | a single new choice becomes the filter and re-runs the list with the current date; otherwise nothing changes |
| PendingReviewsPage.PendingReviewsPageComponent.ListsChanged | src/app/features/ranking/pages/pending-reviews.page.ts:166-168 | a change of the live activities or units, or the one emission of the submissions, re-runs the list with the date now in the field, filters unchanged |
| PendingReviewsPage.PendingReviewsPageComponent.SetDateFilter | src/app/features/ranking/pages/pending-reviews.page.ts:85 | as written, the field changes and the list on screen, over any lists, stays exactly what it was |
| PendingReviewsPage.PendingReviewsPageComponent.SetDateFilterApplied | src/app/features/ranking/pages/pending-reviews.page.ts:160 | the list shown is the rows every filter keeps, the new day included |
| PendingReviewsPage.PickedDayLeavesOtherDaysShown | src/app/features/ranking/pages/pending-reviews.page.ts:84-85 | on a freshly opened queue, picking a day leaves a row sent on another day on screen although the picked day drops it |
| DashboardPage.CurrentUnit | src/app/features/dashboard/dashboard.page.ts:101-103 | the unit the session names, if it exists; none without a unit id or a matching unit |
| DashboardPage.DashboardCountsMeaning | src/app/features/dashboard/dashboard.page.ts:105-134 | the counts are the numbers of submissions in each state: all pending for the board, the unit's own otherwise, none without a unit |
| DashboardPage.UnitCountsMatchRanking | src/app/features/dashboard/dashboard.page.ts:120-134 | when the unit's submissions all name existing activities, its dashboard counts equal its ranking entry's |
| DashboardPage.TopUnitMeaning | src/app/features/dashboard/dashboard.page.ts:136-145 | the placeholder without units; otherwise a unit's own entry whose total no unit exceeds |
| RankingBoardPage.RangeForMeaning | src/app/features/ranking/pages/ranking-board.page.ts:144-149 | a blank field is no bound and any other text is that text read as a date |
| RankingBoardPage.BlankPeriodShowsFullRanking | src/app/features/ranking/pages/ranking-board.page.ts:144-149 | with both pickers blank the board shows the ranking of every activity |
| RankingBoardPage.PickedPeriodSelectsOverlapping | src/app/features/ranking/pages/ranking-board.page.ts:144-149 | for two picked days in order, a well-formed activity counts exactly when it shares a day with the period |
| RankingBoardPage.TopThreeLead | src/app/features/ranking/pages/ranking-board.page.ts:150 | the podium is the first three entries (fewer with fewer units), none below any entry after it |
| RankingBoardPage.PositionsFollowTotals | src/app/features/ranking/pages/ranking-board.page.ts:119 | a better position never has a lower total |
| RankingBoardPage.RankingBoardPageComponent.constructor | src/app/features/ranking/pages/ranking-board.page.ts:141-142 | the board opens with both period fields empty |
| RankingBoardPage.RankingBoardPageComponent.PickStart | src/app/features/ranking/pages/ranking-board.page.ts:50 | the start field holds the written picked day; the end is unchanged |
| RankingBoardPage.RankingBoardPageComponent.PickEnd | src/app/features/ranking/pages/ranking-board.page.ts:59 | the end field holds the written picked day; the start is unchanged |
| RankingBoardPage.RankingBoardPageComponent.CurrentRanking | src/app/features/ranking/pages/ranking-board.page.ts:144-149 | the ranking for the fields' period and the current state |
| RankingBoardPage.RankingBoardPageComponent.Podium | src/app/features/ranking/pages/ranking-board.page.ts:150 | the first three entries of that ranking |
| Dates.BeforeIsStrictTotalOrder | src/app/features/ranking/services/ranking.repository.ts:46-49 | date comparison is a strict total order |
| Dates.ToDateOfFromDate | src/app/features/ranking/pages/activities.page.ts:203-222 | reading back a written date gives the date, from the year 100 on |
| Dates.FromDateIsCanonical | src/app/features/ranking/pages/activities.page.ts:203-222 | writing a date read from a written date gives the same text |
| Dates.IsoAgreesWithToDate | src/app/features/ranking/pages/activities.page.ts:203-212 | on a written date with a four-digit year, `new Date(text)` and `toDate` give the same day |
| Text.TrimIsEmptyIffAllSpace | src/app/features/ranking/pages/activities.page.ts:164 | a text trims to empty exactly when it is all white space |
| Text.IncludesIffOccurs | src/app/features/ranking/pages/activities.page.ts:175 | `includes` holds exactly when the term occurs at some offset |
| Scenarios.SeedStanding | src/app/data/seed.ts:78-96 | the seed gives Águia Dourada 240 points from one concluded camp |
| Scenarios.SeedApprovalOfPantera | src/app/data/seed.ts:97-104 | approving Pantera's pending service project as sent gives it 150 points |
| Scenarios.SeedRejectionOfPantera | src/app/data/seed.ts:97-104 | rejecting it leaves Pantera with nothing |
| Scenarios.SeedMarchPeriod | src/app/data/seed.ts:12-33 | the March 2026 period leaves out the February camp and keeps the March service project |

## Left out

- Role guard, routes, shell and not-found page: navigation only, no state the core depends on.
- Local storage as JSON: a read is modelled as the stored value or nothing. Parse failures and values of the wrong shape are not modelled.
- Mock HTTP latency and errors: every repository call is modelled as completing at once.
- Signals, computed values and Observables: a page function is evaluated on the lists it is given. The pending-reviews date filter is modelled with the value its list last read.
- One-time list copies: several pages read a repository list through `toSignal(list())`, and `list()` emits once. These are activities.page.ts:158-159, pending-reviews.page.ts:166, dashboard.page.ts:96-97 and activity-detail.page.ts:142. The dashboard's ranking (dashboard.page.ts:98) is not such a copy: `getRanking()` observes a `computed` over the store (ranking.repository.ts:17,21-22), so the ranking, the top unit and the positions follow the store while the lists behind the dashboard's counts do not. Those pages therefore keep showing the list as it was when they opened, for example a reviewed row in the pending queue or the old status after a send. The activity detail page's copy is a field (`ActivityDetailPageComponent.submissions`) that `Submit` leaves as it was. The other pages' functions take the list as a parameter, so the model does not capture that their copy goes stale.
- `createId` and the clock: passed in as parameters (`freshId`, `now`).
- Models: points are `int`. The `type="number"` inputs of the activity form and the review dialog accept decimals, and JavaScript sums of decimals are inexact. The model captures neither.
- `maxLength` and `minLength` count UTF-16 code units. The model counts Dafny characters, and the two differ on text with characters outside the Basic Multilingual Plane.
- Time zones: dates are calendar days in one zone. The pending-reviews day comparison (`toDateString` of a UTC timestamp) is modelled on the timestamp's UTC day.
- `new Date(text)` is read only on the exact date-only form `YYYY-MM-DD`. Every other text is read as the invalid date, including ISO forms that JavaScript accepts, such as `2026`, `2026-03`, `2026-03-01T00:00:00Z` and expanded years. Stored activity dates of those forms would reach the ranking's period comparison (ranking.repository.ts:46-49) differently from the model.
- Years are unbounded integers. JavaScript's `Date` covers about 275760 years either side of 1970, and past that range `new Date(y, m - 1, d)` gives an Invalid Date, which `toDate` still returns as a date. The model does not capture that.
- `Number` is modelled only on runs of digits with white space around them. Any other text gives NaN.
- `toLowerCase` maps only the ASCII letters.
- `trim` knows the ASCII white space, the no-break space and the byte-order mark.
- Object URLs, image previews, toasts' timing, dialogs' opening and navigation: presentation only. A toast is modelled as its message.
- Image store calls are modelled as synchronous. The source does not wait for them.
- The simulation page and the status badge: not part of the core.
- The seed activities and units are used only by `MockDb` and `Scenarios`.
- Submissions.SubmissionRepository.ReviewSubmission: no check of the submission's current status, as in the source. A concluded submission can be reviewed again.
- Activities.ActivityRepository.Create: activity.repository.ts:21-33 stores the payload without checking its dates or points. Those are checked only by the activity form's validators (activity-form.page.ts:99-111 and 167-174), so the repository contract promises nothing about them.
- Activities.ActivityRepository.Delete: activity.repository.ts:75-82 deletes the activity's submissions and never calls the image store, so their images stay stored with nothing referring to them (`DeleteLeavesImagesBehind`).
- Submissions.SubmissionRepository.Delete: like the source, deletes only the image of the first submission with the id.
- ReviewDialog.ReviewDialogComponent.Send: `loading` stays set after an error, as in the source, because `complete` does not run after `error`.
- ActivityDetailPage.ActivityDetailPageComponent.Submit: `submitting` stays set after an error for the same reason. The activity form resets `saving` in its error handler.
- DashboardPage.DashboardCountsMeaning: the dashboard counts also count submissions whose activity no longer exists. The ranking does not, so the two agree only under `UnitCountsMatchRanking`'s requires.
- ActivitiesPage.ActivitiesPageComponent.Filtered and PendingReviewsPage.PendingReviewsPageComponent.Shown: read-only views without contracts of their own. Their meaning is in `FilteredActivitiesMeaning` and `FilteredRowsMeaning`.

## Findings

| source | as written | input that shows it | evidently intended | confidence | as-written member | corrected member |
|---|---|---|---|---|---|---|
| src/app/features/ranking/components/review-dialog.component.ts:130 | `pontuacaoBonus \|\| undefined` sends a bonus of 0 as no bonus, and the repository (src/app/features/ranking/services/submission.repository.ts:162) then approves the activity's own bonus | an activity with bonus 40, approved with bonus 0 and a justification | the approved bonus is 0, as the reviewer entered and justified | not executed; follows from the two lines | ReviewDialog.AsWrittenKeepsBonusSetToZero | ReviewDialog.Aprovar (proved in ApprovalRecordsTheForm) |
| src/app/features/ranking/pages/pending-reviews.page.ts:160 | `dateFilter` is a plain field, so `filteredRows` does not re-run when a day is picked; the list changes only at the next unit, activity or data change | rows sent on 2026-03-20, then a different day picked in the date field | the list shows only the rows sent on the picked day, at once | not executed; follows from the signal semantics | PendingReviewsPage.StaleDayFilterKeepsOtherDays | PendingReviewsPage.PendingReviewsPageComponent.SetDateFilterApplied |
