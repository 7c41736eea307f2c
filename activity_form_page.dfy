/** The activity form: its field rules and period rule, the payload it
    builds, and whether saving creates a new activity or updates the one the
    route names. */
module ActivityFormPage {
  import opened Wrappers
  import opened Models
  import opened Seqs
  import opened Dates
  import opened MockDb
  import opened Submissions
  import opened Activities
  import Ranking

  /** The form's controls; a cleared number field is `None`. */
  datatype ActivityForm = ActivityForm(
    nome: string,
    descricao: string,
    dataInicio: string,
    dataFinal: string,
    pontuacao: Option<int>,
    pontuacaoBonus: Option<int>)

  const NomeMaxLength: nat := 120
  const DescricaoMaxLength: nat := 500

  const EmptyForm := ActivityForm("", "", "", "", Some(0), Some(0))

  /** The error the form-level validator reports. */
  datatype PeriodError = PeriodoInvalido

  /** `validarPeriodo`: no error while a date is empty; otherwise an error
      unless the end, read as a date, is on or after the start. A date that
      does not parse compares false, so it is an error too. */
  function ValidarPeriodo(dataInicio: string, dataFinal: string): Option<PeriodError>
  {
    if dataInicio == "" || dataFinal == "" then None
    else
      var inicio, fim := ParseIsoDate(dataInicio), ParseIsoDate(dataFinal);
      if inicio.Valid? && fim.Valid? && !Before(fim.date, inicio.date) then None else Some(PeriodoInvalido)
  }

  /** The control validators: `required` and `maxLength` on the texts,
      `required` on both dates, `required` and `min(1)` on the points,
      `min(0)` on the bonus. */
  predicate FieldsValid(f: ActivityForm)
  {
    f.nome != "" && |f.nome| <= NomeMaxLength
    && f.descricao != "" && |f.descricao| <= DescricaoMaxLength
    && f.dataInicio != "" && f.dataFinal != ""
    && f.pontuacao.Some? && f.pontuacao.value >= 1
    && (f.pontuacaoBonus.None? || f.pontuacaoBonus.value >= 0)
  }

  predicate FormValid(f: ActivityForm)
  {
    FieldsValid(f) && ValidarPeriodo(f.dataInicio, f.dataFinal).None?
  }

  /** The payload `save()` sends: a bonus of 0 or none is `undefined`. */
  function Payload(f: ActivityForm): ActivityInput
  {
    ActivityInput(f.nome, f.descricao, f.dataInicio, f.dataFinal, f.pontuacao.GetOr(0),
      if f.pontuacaoBonus.Some? && f.pontuacaoBonus.value != 0 then f.pontuacaoBonus else None)
  }

  /** The call `save()` makes. */
  datatype SaveRequest = NoCall | CreateCall(input: ActivityInput) | UpdateCall(id: Id, input: ActivityInput)

  function SaveRequestFor(f: ActivityForm, activityId: Option<Id>): SaveRequest
  {
    if !FormValid(f) then NoCall
    else if Truthy(activityId) then UpdateCall(activityId.value, Payload(f))
    else CreateCall(Payload(f))
  }

  /** The form filled in for editing: a missing bonus is shown as 0. */
  function EditFormFor(a: Activity): ActivityForm
  {
    ActivityForm(a.nome, a.descricao, a.dataInicio, a.dataFinal, Some(a.pontuacao), Some(a.pontuacaoBonus.GetOr(0)))
  }

  /** The period rule: no error while a date is missing; with both dates,
      the period passes exactly when both are real dates and some day lies
      between them, so that a ranking of that day can count the activity. */
  lemma {:induction false} ValidarPeriodoAcceptsNonEmptyPeriods(dataInicio: string, dataFinal: string)
    ensures (dataInicio == "" || dataFinal == "") ==> ValidarPeriodo(dataInicio, dataFinal).None?
    ensures dataInicio != "" && dataFinal != "" ==>
      (ValidarPeriodo(dataInicio, dataFinal).None? <==>
        ParseIsoDate(dataInicio).Valid? && ParseIsoDate(dataFinal).Valid?
        && exists d :: Ranking.Within(d, ParseIsoDate(dataInicio).date, ParseIsoDate(dataFinal).date))
  {
    if dataInicio != "" && dataFinal != "" && ParseIsoDate(dataInicio).Valid? && ParseIsoDate(dataFinal).Valid? {
      var lo, hi := ParseIsoDate(dataInicio).date, ParseIsoDate(dataFinal).date;
      if !Before(hi, lo) {
        BeforeIsStrictTotalOrder(lo, lo, lo);
        assert Ranking.Within(lo, lo, hi);
      } else {
        forall d ensures !Ranking.Within(d, lo, hi) {
          BeforeIsStrictTotalOrder(d, lo, hi);
          BeforeIsStrictTotalOrder(hi, lo, d);
        }
      }
    }
  }

  /** A form that passes holds two real dates, the end on or after the start,
      at least one point and no negative bonus; and the payload it sends
      carries those values, with a bonus of 0 dropped. */
  lemma {:induction false} ValidFormGivesSoundPayload(f: ActivityForm)
    requires FormValid(f)
    ensures var p := Payload(f);
      ParseIsoDate(p.dataInicio).Valid? && ParseIsoDate(p.dataFinal).Valid?
      && !Before(ParseIsoDate(p.dataFinal).date, ParseIsoDate(p.dataInicio).date)
      && p.pontuacao >= 1 && p.pontuacao == f.pontuacao.value
      && (p.pontuacaoBonus.None? <==> f.pontuacaoBonus.None? || f.pontuacaoBonus.value == 0)
      && (p.pontuacaoBonus.Some? ==> p.pontuacaoBonus == f.pontuacaoBonus && p.pontuacaoBonus.value > 0)
      && p.nome == f.nome && p.descricao == f.descricao && 0 < |p.nome| <= NomeMaxLength
  {
  }

  /** A valid form with an activity in the route updates that activity and
      no other: the update fails exactly when the id is unknown, and
      otherwise the activity found under the id carries the payload while
      every activity with another id stays as it was. Without one it
      creates a new activity ahead of the others. */
  lemma {:induction false} SaveWritesTheRoutedActivity(f: ActivityForm, activityId: Option<Id>, activities: seq<Activity>,
                                     freshId: Id, now: Timestamp)
    requires FormValid(f)
    ensures Truthy(activityId) ==>
      SaveRequestFor(f, activityId) == UpdateCall(activityId.value, Payload(f))
      && var u := ReplaceActivitySpec(activities, activityId.value, (a: Activity) => Updated(a, Payload(f), now));
        (u.Success? <==> FindActivity(activities, activityId.value).Some?)
        && (u.Success? ==>
              |u.value.activities| == |activities|
              && FindActivity(u.value.activities, activityId.value) == Some(u.value.activity)
              && CarriesInput(u.value.activity, Payload(f))
              && forall j :: 0 <= j < |activities| && activities[j].id != activityId.value ==> u.value.activities[j] == activities[j])
    ensures !Truthy(activityId) ==>
      var w := CreateSpec(activities, Payload(f), freshId, now);
      SaveRequestFor(f, activityId) == CreateCall(Payload(f))
      && w.activities == [w.activity] + activities && w.activity.id == freshId && CarriesInput(w.activity, Payload(f))
  {
    if Truthy(activityId) {
      var id := activityId.value;
      UpdateIsPatchOfPayload(activities, id, Payload(f), now);
      var i := IndexOfActivity(activities, id);
      if i != -1 {
        var r := activities[i := Updated(activities[i], Payload(f), now)];
        var k := FindIndex(r, (a: Activity) => a.id == id);
        assert r[i].id == id;
        assert k == i;
      }
    } else {
      CreateLaws(activities, Payload(f), freshId, now);
    }
  }

  /** Saving the edit form of an activity unchanged rewrites only its
      `updatedAt`, unless its bonus was 0, which becomes none. */
  lemma {:induction false} UnchangedEditKeepsActivity(a: Activity, now: Timestamp)
    ensures var input := Payload(EditFormFor(a));
      Updated(a, input, now) == a.(updatedAt := now, pontuacaoBonus := if a.pontuacaoBonus == Some(0) then None else a.pontuacaoBonus)
  {
  }

  /** The edit form of an activity the form could have created is valid. */
  lemma {:induction false} EditFormOfValidActivityIsValid(a: Activity)
    requires FormValid(ActivityForm(a.nome, a.descricao, a.dataInicio, a.dataFinal, Some(a.pontuacao), a.pontuacaoBonus))
    ensures FormValid(EditFormFor(a))
  {
  }

  /** `ActivityFormPageComponent` on one route. */
  class ActivityFormPageComponent {
    const repo: ActivityRepository
    const activityId: Option<Id>
    var form: ActivityForm
    var saving: bool
    var touched: bool
    var navigated: bool
    var failure: Option<string>

    /** Loads the activity for editing when the route names one that exists. */
    constructor(repo: ActivityRepository, activityId: Option<Id>)
      ensures this.repo == repo && this.activityId == activityId
      ensures form == (if Truthy(activityId) && FindActivity(repo.db.activities, activityId.value).Some?
                       then EditFormFor(FindActivity(repo.db.activities, activityId.value).value)
                       else EmptyForm)
      ensures !saving && !touched && !navigated && failure.None?
    {
      this.repo := repo;
      this.activityId := activityId;
      saving, touched, navigated := false, false, false;
      failure := None;
      form := EmptyForm;
      new;
      if Truthy(activityId) {
        var activity := repo.Get(activityId.value);
        if activity.Some? {
          form := EditFormFor(activity.value);
        }
      }
    }

    /** What the user types into the controls. */
    method Edit(next: ActivityForm)
      modifies this
      ensures form == next
      ensures saving == old(saving) && touched == old(touched) && navigated == old(navigated) && failure == old(failure)
    {
      form := next;
    }

    /** `save()`: `freshId` and `now` stand for the id and the clock of a
        create. Success navigates away; an error clears `saving` in its own
        handler and keeps the page. */
    method Save(freshId: Id, now: Timestamp)
      modifies this, repo.db
      ensures form == old(form)
      ensures match SaveRequestFor(old(form), activityId)
        case NoCall =>
          (touched && repo.db.State() == old(repo.db.State()) && repo.db.storage == old(repo.db.storage)
           && navigated == old(navigated) && saving == old(saving) && failure == old(failure))
        case CreateCall(input) =>
          (repo.db.activities == CreateSpec(old(repo.db.activities), input, freshId, now).activities
           && repo.db.storage == repo.db.State()
           && navigated && !saving && touched == old(touched) && failure == old(failure))
        case UpdateCall(id, input) =>
          touched == old(touched)
          && match ReplaceActivitySpec(old(repo.db.activities), id, (a: Activity) => Updated(a, input, now))
             case Failure(e) =>
               (repo.db.State() == old(repo.db.State()) && repo.db.storage == old(repo.db.storage)
                && !saving && navigated == old(navigated) && failure == Some(e.Message()))
             case Success(w) =>
               (repo.db.activities == w.activities && repo.db.storage == repo.db.State()
                && navigated && !saving && failure == old(failure))
      ensures repo.db.submissions == old(repo.db.submissions) && repo.db.units == old(repo.db.units)
    {
      var request := SaveRequestFor(form, activityId);
      match request
      case NoCall =>
        touched := true;
      case CreateCall(input) =>
        saving := true;
        var _ := repo.Create(input, freshId, now);
        navigated := true;
        saving := false;
      case UpdateCall(id, input) =>
        saving := true;
        var r := repo.Update(id, input, now);
        match r
        case Failure(e) =>
          saving := false;
          failure := Some(e.Message());
        case Success(_) =>
          navigated := true;
          saving := false;
    }
  }
}
