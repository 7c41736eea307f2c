/** Activities: create, update, patch and delete, written back to the
    database. Deleting an activity also deletes every submission made for it. */
module Activities {
  import opened Wrappers
  import opened Models
  import opened Seqs
  import opened MockDb
  import opened Submissions
  import ImageStorage

  /** `Omit<Activity, 'id' | 'createdAt' | 'updatedAt'>`, as the activity form
      builds it (every key present, the bonus possibly `undefined`). */
  datatype ActivityInput = ActivityInput(
    nome: string,
    descricao: string,
    dataInicio: string,
    dataFinal: string,
    pontuacao: int,
    pontuacaoBonus: Option<int>)

  datatype ActivityError = ActivityNotFound {
    function Message(): string
    {
      "Atividade nao encontrada."
    }
  }

  /** The fields of an activity the input carries. */
  predicate CarriesInput(a: Activity, input: ActivityInput)
  {
    a.nome == input.nome && a.descricao == input.descricao && a.dataInicio == input.dataInicio
    && a.dataFinal == input.dataFinal && a.pontuacao == input.pontuacao && a.pontuacaoBonus == input.pontuacaoBonus
  }

  predicate DifferentActivityIds(a: Activity, b: Activity)
  {
    a.id != b.id
  }

  ghost predicate UniqueActivityIds(activities: seq<Activity>)
  {
    Pairwise(activities, DifferentActivityIds)
  }

  function IndexOfActivity(activities: seq<Activity>, id: Id): (r: int)
    ensures -1 <= r < |activities|
    ensures r >= 0 ==> activities[r].id == id && forall j :: 0 <= j < r ==> activities[j].id != id
    ensures r == -1 ==> forall j :: 0 <= j < |activities| ==> activities[j].id != id
  {
    FindIndex(activities, (a: Activity) => a.id == id)
  }

  /** What a call returns and the activity list it writes back. */
  datatype ActivityWritten = ActivityWritten(activity: Activity, activities: seq<Activity>)

  /** `create(payload)`: the new activity goes first, created and updated now. */
  function CreateSpec(activities: seq<Activity>, input: ActivityInput, freshId: Id, now: Timestamp): ActivityWritten
  {
    var a := Activity(freshId, input.nome, input.descricao, input.dataInicio, input.dataFinal,
      input.pontuacao, input.pontuacaoBonus, now, now);
    ActivityWritten(a, [a] + activities)
  }

  /** `Partial<Activity>`: `None` leaves a field alone; for the bonus,
      `Some(None)` sets it to `undefined`. */
  datatype ActivityPatch = ActivityPatch(
    id: Option<Id>,
    nome: Option<string>,
    descricao: Option<string>,
    dataInicio: Option<string>,
    dataFinal: Option<string>,
    pontuacao: Option<int>,
    pontuacaoBonus: Option<Option<int>>,
    createdAt: Option<Timestamp>,
    updatedAt: Option<Timestamp>)

  /** `{ ...existing, ...patch, updatedAt: now }`: the patch's own `updatedAt` is overridden. */
  function Patched(a: Activity, p: ActivityPatch, now: Timestamp): Activity
  {
    Activity(p.id.GetOr(a.id), p.nome.GetOr(a.nome), p.descricao.GetOr(a.descricao),
      p.dataInicio.GetOr(a.dataInicio), p.dataFinal.GetOr(a.dataFinal), p.pontuacao.GetOr(a.pontuacao),
      p.pontuacaoBonus.GetOr(a.pontuacaoBonus), p.createdAt.GetOr(a.createdAt), now)
  }

  /** `{ ...existing, ...payload, updatedAt: now }` for an update's payload. */
  function Updated(a: Activity, input: ActivityInput, now: Timestamp): Activity
  {
    a.(nome := input.nome, descricao := input.descricao, dataInicio := input.dataInicio,
      dataFinal := input.dataFinal, pontuacao := input.pontuacao, pontuacaoBonus := input.pontuacaoBonus,
      updatedAt := now)
  }

  /** The patch naming exactly the fields of an update's payload. */
  function PatchOf(input: ActivityInput): ActivityPatch
  {
    ActivityPatch(None, Some(input.nome), Some(input.descricao), Some(input.dataInicio), Some(input.dataFinal),
      Some(input.pontuacao), Some(input.pontuacaoBonus), None, None)
  }

  const EmptyActivityPatch := ActivityPatch(None, None, None, None, None, None, None, None, None)

  /** `update` and `patch`: the first activity with the id is replaced. */
  function ReplaceActivitySpec(activities: seq<Activity>, id: Id, next: Activity -> Activity): Result<ActivityWritten, ActivityError>
  {
    var i := IndexOfActivity(activities, id);
    if i == -1 then Failure(ActivityNotFound)
    else Success(ActivityWritten(next(activities[i]), activities[i := next(activities[i])]))
  }

  /** `delete(id)`: the activity and all its submissions go. */
  function DeleteActivitySpec(state: DbState, id: Id): DbState
  {
    state.(activities := Filter(state.activities, (a: Activity) => a.id != id),
           submissions := Filter(state.submissions, (s: ProofSubmission) => s.activityId != id))
  }

  /** A created activity carries the input, gets the fresh id, is created and
      updated at the same instant, and is found first under its id. */
  lemma {:induction false} CreateLaws(activities: seq<Activity>, input: ActivityInput, freshId: Id, now: Timestamp)
    ensures var w := CreateSpec(activities, input, freshId, now);
      CarriesInput(w.activity, input) && w.activity.id == freshId
      && w.activity.createdAt == now && w.activity.updatedAt == now
      && w.activities[1..] == activities
      && FindActivity(w.activities, freshId) == Some(w.activity)
    ensures (forall j :: 0 <= j < |activities| ==> activities[j].id != freshId) && UniqueActivityIds(activities)
      ==> UniqueActivityIds(CreateSpec(activities, input, freshId, now).activities)
  {
    var w := CreateSpec(activities, input, freshId, now);
    assert w.activities[0] == w.activity;
    if (forall j :: 0 <= j < |activities| ==> activities[j].id != freshId) && UniqueActivityIds(activities) {
      forall a, b | 0 <= a < b < |w.activities| ensures DifferentActivityIds(w.activities[a], w.activities[b]) {
        if a > 0 {
          assert w.activities[a] == activities[a - 1] && w.activities[b] == activities[b - 1];
        }
      }
    }
  }

  /** An update is a patch of the payload's fields. It keeps the id and the
      creation time, carries the payload, and fails only on an unknown id. */
  lemma {:induction false} UpdateIsPatchOfPayload(activities: seq<Activity>, id: Id, input: ActivityInput, now: Timestamp)
    ensures ReplaceActivitySpec(activities, id, (a: Activity) => Updated(a, input, now))
         == ReplaceActivitySpec(activities, id, (a: Activity) => Patched(a, PatchOf(input), now))
    ensures var r := ReplaceActivitySpec(activities, id, (a: Activity) => Updated(a, input, now));
      (r.Failure? <==> FindActivity(activities, id).None?)
      && (r.Success? ==>
            var previous := FindActivity(activities, id).value;
            CarriesInput(r.value.activity, input) && r.value.activity.id == id
            && r.value.activity.createdAt == previous.createdAt && r.value.activity.updatedAt == now)
  {
    var i := IndexOfActivity(activities, id);
    if i != -1 {
      assert Updated(activities[i], input, now) == Patched(activities[i], PatchOf(input), now);
    }
  }

  /** The empty patch only refreshes `updatedAt`; a patch that leaves the id
      alone keeps the ids distinct. */
  lemma {:induction false} PatchLaws(activities: seq<Activity>, id: Id, p: ActivityPatch, now: Timestamp)
    ensures var r := ReplaceActivitySpec(activities, id, (a: Activity) => Patched(a, EmptyActivityPatch, now));
      r.Success? ==> r.value.activity == FindActivity(activities, id).value.(updatedAt := now)
    ensures var r := ReplaceActivitySpec(activities, id, (a: Activity) => Patched(a, p, now));
      p.id.None? && UniqueActivityIds(activities) && r.Success? ==> UniqueActivityIds(r.value.activities)
  {
    var i := IndexOfActivity(activities, id);
    if i != -1 && p.id.None? && UniqueActivityIds(activities) {
      var r := activities[i := Patched(activities[i], p, now)];
      forall a, b | 0 <= a < b < |r| ensures DifferentActivityIds(r[a], r[b]) {
        assert DifferentActivityIds(activities[a], activities[b]);
      }
    }
  }

  /** A patch may rename an activity, so that its submissions no longer find it. */
  lemma {:induction false} PatchCanOrphanSubmissions()
    ensures var a := Activity("act-1", "", "", "", "", 10, None, "", "");
      var r := ReplaceActivitySpec([a], "act-1", (x: Activity) => Patched(x, EmptyActivityPatch.(id := Some("act-9")), "now"));
      r.Success? && FindActivity(r.value.activities, "act-1").None?
  {
    var a := Activity("act-1", "", "", "", "", 10, None, "", "");
    var r := ReplaceActivitySpec([a], "act-1", (x: Activity) => Patched(x, EmptyActivityPatch.(id := Some("act-9")), "now"));
    assert r.value.activities == [a.(id := "act-9", updatedAt := "now")];
  }

  /** Deleting an activity leaves no activity with that id and no submission
      for it; everything else stays, in order; the units are untouched;
      uniqueness and the submission shapes survive. */
  lemma {:induction false} DeleteCascades(state: DbState, id: Id)
    ensures var r := DeleteActivitySpec(state, id);
      (forall a :: a in r.activities <==> a in state.activities && a.id != id)
      && (forall s :: s in r.submissions <==> s in state.submissions && s.activityId != id)
      && Subsequence(r.activities, state.activities) && Subsequence(r.submissions, state.submissions)
      && r.units == state.units
      && FindActivity(r.activities, id).None?
    ensures UniqueKeys(state.submissions) ==> UniqueKeys(DeleteActivitySpec(state, id).submissions)
    ensures UniqueActivityIds(state.activities) ==> UniqueActivityIds(DeleteActivitySpec(state, id).activities)
    ensures AllConsistent(state.submissions) ==> AllConsistent(DeleteActivitySpec(state, id).submissions)
  {
    DeleteKeepsTheOthers(state, id);
    DeleteKeepsInvariants(state, id);
  }

  lemma {:induction false} DeleteKeepsTheOthers(state: DbState, id: Id)
    ensures var r := DeleteActivitySpec(state, id);
      (forall a :: a in r.activities <==> a in state.activities && a.id != id)
      && (forall s :: s in r.submissions <==> s in state.submissions && s.activityId != id)
      && Subsequence(r.activities, state.activities) && Subsequence(r.submissions, state.submissions)
      && r.units == state.units
      && FindActivity(r.activities, id).None?
  {
    FilterKeepsOrder(state.activities, (a: Activity) => a.id != id);
    FilterKeepsOrder(state.submissions, (s: ProofSubmission) => s.activityId != id);
  }

  lemma {:induction false} DeleteKeepsInvariants(state: DbState, id: Id)
    ensures UniqueKeys(state.submissions) ==> UniqueKeys(DeleteActivitySpec(state, id).submissions)
    ensures UniqueActivityIds(state.activities) ==> UniqueActivityIds(DeleteActivitySpec(state, id).activities)
    ensures AllConsistent(state.submissions) ==> AllConsistent(DeleteActivitySpec(state, id).submissions)
  {
    var pa := (a: Activity) => a.id != id;
    var ps := (s: ProofSubmission) => s.activityId != id;
    if UniqueKeys(state.submissions) {
      FilterPairwise(state.submissions, ps, DifferentKeys);
    }
    if UniqueActivityIds(state.activities) {
      FilterPairwise(state.activities, pa, DifferentActivityIds);
    }
    var r := DeleteActivitySpec(state, id);
    if AllConsistent(state.submissions) {
      forall k | 0 <= k < |r.submissions| ensures Consistent(r.submissions[k]) {
        assert r.submissions[k] in state.submissions;
      }
    }
  }

  class ActivityRepository {
    const db: MockDbService

    constructor(db: MockDbService)
      ensures this.db == db
    {
      this.db := db;
    }

    /** `list()`. */
    method List() returns (r: seq<Activity>)
      ensures r == db.activities
    {
      r := db.activities;
    }

    /** `get(id)`. */
    method Get(id: Id) returns (r: Option<Activity>)
      ensures r == FindActivity(db.activities, id)
    {
      r := FindActivity(db.activities, id);
    }

    /** `create(payload)`; `freshId` and `now` stand for `createId('act')` and the clock. */
    method Create(input: ActivityInput, freshId: Id, now: Timestamp) returns (r: Activity)
      modifies db
      ensures var w := CreateSpec(old(db.activities), input, freshId, now);
        r == w.activity && db.activities == w.activities
      ensures db.submissions == old(db.submissions) && db.units == old(db.units) && db.storage == db.State()
    {
      var w := CreateSpec(db.activities, input, freshId, now);
      db.UpdateActivities(w.activities);
      r := w.activity;
    }

    /** `update(id, payload)`. */
    method Update(id: Id, input: ActivityInput, now: Timestamp) returns (r: Result<Activity, ActivityError>)
      modifies db
      ensures match ReplaceActivitySpec(old(db.activities), id, (a: Activity) => Updated(a, input, now))
        case Failure(e) => r == Failure(e) && db.State() == old(db.State()) && db.storage == old(db.storage)
        case Success(w) => r == Success(w.activity) && db.activities == w.activities && db.storage == db.State()
      ensures db.submissions == old(db.submissions) && db.units == old(db.units)
    {
      var activities := db.activities;
      var index := IndexOfActivity(activities, id);
      if index == -1 {
        return Failure(ActivityNotFound);
      }
      var next := Updated(activities[index], input, now);
      db.UpdateActivities(activities[index := next]);
      return Success(next);
    }

    /** `patch(id, payload)`. */
    method Patch(id: Id, p: ActivityPatch, now: Timestamp) returns (r: Result<Activity, ActivityError>)
      modifies db
      ensures match ReplaceActivitySpec(old(db.activities), id, (a: Activity) => Patched(a, p, now))
        case Failure(e) => r == Failure(e) && db.State() == old(db.State()) && db.storage == old(db.storage)
        case Success(w) => r == Success(w.activity) && db.activities == w.activities && db.storage == db.State()
      ensures db.submissions == old(db.submissions) && db.units == old(db.units)
    {
      var activities := db.activities;
      var index := IndexOfActivity(activities, id);
      if index == -1 {
        return Failure(ActivityNotFound);
      }
      var next := Patched(activities[index], p, now);
      db.UpdateActivities(activities[index := next]);
      return Success(next);
    }

    /** `delete(id)`: two writes, activities first. */
    method Delete(id: Id)
      modifies db
      ensures db.State() == DeleteActivitySpec(old(db.State()), id)
      ensures db.storage == db.State()
    {
      var activities := Filter(db.activities, (a: Activity) => a.id != id);
      var submissions := Filter(db.submissions, (s: ProofSubmission) => s.activityId != id);
      db.UpdateActivities(activities);
      db.UpdateSubmissions(submissions);
    }
  }

  /** Deleting an activity never calls the image store: each image of a
      deleted submission stays stored, while the submission itself is gone. */
  method DeleteLeavesImagesBehind(repo: ActivityRepository, store: ImageStorage.ImageStore, id: Id)
    modifies repo.db
    ensures repo.db.State() == DeleteActivitySpec(old(repo.db.State()), id)
    ensures store.images == old(store.images)
    ensures forall s :: s in old(repo.db.submissions) && s.activityId == id && s.imageId.Some? && s.imageId.value in old(store.images) ==>
      s !in repo.db.submissions && s.imageId.value in store.images
  {
    repo.Delete(id);
    DeleteKeepsTheOthers(old(repo.db.State()), id);
  }
}
