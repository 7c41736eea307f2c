/** The activity list page: a text search, a period and a status filter over
    the activities, and the status shown for each activity (the unit's own
    for a unit profile, the aggregate one for the board). */
module ActivitiesPage {
  import opened Wrappers
  import opened Models
  import opened Seqs
  import opened Text
  import opened Dates
  import opened Submissions
  import Ranking

  const AllStatuses: string := "TODOS"

  /** The names the status filter compares against. */
  function StatusName(s: SubmissionStatus): string
  {
    match s
    case SemComprovacao => "SEM_COMPROVACAO"
    case PendenteAvaliacao => "PENDENTE_AVALIACAO"
    case Concluida => "CONCLUIDA"
  }

  /** The text filter on a trimmed, lower-cased term: an empty term keeps
      everything, otherwise the term must occur in the lower-cased name or
      description. */
  predicate TextMatches(a: Activity, term: string)
  {
    term == "" || Includes(ToLower(a.nome), term) || Includes(ToLower(a.descricao), term)
  }

  /** The period filter: without bounds everything is kept; an activity whose
      dates `toDate` cannot read is dropped; otherwise one that ends before
      the start, or starts after the end, is dropped. */
  predicate PeriodMatches(a: Activity, start: Option<CalendarDate>, end: Option<CalendarDate>)
  {
    if start.None? && end.None? then true
    else
      var activityStart, activityEnd := ToDate(a.dataInicio), ToDate(a.dataFinal);
      if activityStart.None? || activityEnd.None? then false
      else
        !(start.Some? && Before(activityEnd.value, start.value))
        && !(end.Some? && Before(end.value, activityStart.value))
  }

  /** `getGeneralStatus(activity)`: pending if any submission of the activity
      is pending, else concluded if any is concluded, else no proof. */
  function GeneralStatus(a: Activity, subs: seq<ProofSubmission>): SubmissionStatus
  {
    var forActivity := Filter(subs, (s: ProofSubmission) => s.activityId == a.id);
    if Exists(forActivity, (s: ProofSubmission) => s.status == PendenteAvaliacao) then PendenteAvaliacao
    else if Exists(forActivity, (s: ProofSubmission) => s.status == Concluida) then Concluida
    else SemComprovacao
  }

  /** The submission of the activity for the session's unit; a session
      without a unit matches nothing. */
  predicate ForSessionUnit(s: ProofSubmission, a: Activity, ctx: UserContext)
  {
    s.activityId == a.id && Some(s.unitId) == ctx.unitId
  }

  /** `statusFor(activity)`. */
  function StatusFor(a: Activity, subs: seq<ProofSubmission>, ctx: UserContext): SubmissionStatus
  {
    if ctx.profile == Diretoria then GeneralStatus(a, subs)
    else
      var found := Find(subs, (s: ProofSubmission) => ForSessionUnit(s, a, ctx));
      if found.Some? then found.value.status else SemComprovacao
  }

  predicate StatusMatches(a: Activity, subs: seq<ProofSubmission>, ctx: UserContext, status: string)
  {
    status == AllStatuses || StatusName(StatusFor(a, subs, ctx)) == status
  }

  /** What the three filters together ask of one activity. */
  predicate Kept(a: Activity, subs: seq<ProofSubmission>, ctx: UserContext, term: string,
                 start: Option<CalendarDate>, end: Option<CalendarDate>, status: string)
  {
    TextMatches(a, term) && PeriodMatches(a, start, end) && StatusMatches(a, subs, ctx, status)
  }

  /** `filteredActivities`, from the raw filter values. */
  function FilteredActivities(activities: seq<Activity>, subs: seq<ProofSubmission>, ctx: UserContext,
                              searchTerm: string, periodStart: string, periodEnd: string, status: string): seq<Activity>
  {
    var term := ToLower(Trim(searchTerm));
    var start, end := ToDate(periodStart), ToDate(periodEnd);
    var byText := Filter(activities, (a: Activity) => TextMatches(a, term));
    var byPeriod := Filter(byText, (a: Activity) => PeriodMatches(a, start, end));
    Filter(byPeriod, (a: Activity) => StatusMatches(a, subs, ctx, status))
  }

  /** The list shows, in their order, exactly the activities every filter keeps. */
  lemma {:induction false} FilteredActivitiesMeaning(activities: seq<Activity>, subs: seq<ProofSubmission>, ctx: UserContext,
                                  searchTerm: string, periodStart: string, periodEnd: string, status: string)
    ensures var term, start, end := ToLower(Trim(searchTerm)), ToDate(periodStart), ToDate(periodEnd);
      var r := FilteredActivities(activities, subs, ctx, searchTerm, periodStart, periodEnd, status);
      r == Filter(activities, (a: Activity) => Kept(a, subs, ctx, term, start, end, status))
      && Subsequence(r, activities)
      && (forall a :: a in r <==> a in activities && Kept(a, subs, ctx, term, start, end, status))
  {
    var term, start, end := ToLower(Trim(searchTerm)), ToDate(periodStart), ToDate(periodEnd);
    var text := (a: Activity) => TextMatches(a, term);
    var period := (a: Activity) => PeriodMatches(a, start, end);
    var state := (a: Activity) => StatusMatches(a, subs, ctx, status);
    var both := (a: Activity) => TextMatches(a, term) && PeriodMatches(a, start, end);
    var all := (a: Activity) => Kept(a, subs, ctx, term, start, end, status);
    FilterFilter(activities, text, period, both);
    FilterFilter(activities, both, state, all);
    FilterKeepsOrder(activities, all);
  }

  /** A blank search, empty period bounds and `TODOS` show every activity. */
  lemma {:induction false} EmptyFiltersShowEverything(activities: seq<Activity>, subs: seq<ProofSubmission>, ctx: UserContext, searchTerm: string)
    requires AllSpace(searchTerm)
    ensures FilteredActivities(activities, subs, ctx, searchTerm, "", "", AllStatuses) == activities
  {
    TrimIsEmptyIffAllSpace(searchTerm);
    FilteredActivitiesMeaning(activities, subs, ctx, searchTerm, "", "", AllStatuses);
    var all := (a: Activity) => Kept(a, subs, ctx, ToLower(Trim(searchTerm)), None, None, AllStatuses);
    FilterKeepsAll(activities, all);
  }

  /** After `clearFilters()` the list shows every activity. */
  lemma {:induction false} ClearedFiltersShowEverything(activities: seq<Activity>, subs: seq<ProofSubmission>, ctx: UserContext)
    ensures FilteredActivities(activities, subs, ctx, "", "", "", AllStatuses) == activities
  {
    EmptyFiltersShowEverything(activities, subs, ctx, "");
  }

  /** A non-empty term matches exactly when it occurs somewhere in the
      lower-cased name or description. */
  lemma {:induction false} TextMatchesMeaning(a: Activity, term: string)
    requires term != ""
    ensures TextMatches(a, term) <==>
      (exists k :: OccursAt(ToLower(a.nome), term, k)) || (exists k :: OccursAt(ToLower(a.descricao), term, k))
  {
    IncludesIffOccurs(ToLower(a.nome), term);
    IncludesIffOccurs(ToLower(a.descricao), term);
  }

  /** The aggregate status is pending exactly when some submission of the
      activity is pending, concluded exactly when none is pending and some is
      concluded, and no proof otherwise. */
  lemma {:induction false} GeneralStatusMeaning(a: Activity, subs: seq<ProofSubmission>)
    ensures var g := GeneralStatus(a, subs);
      (g == PendenteAvaliacao <==> exists i :: 0 <= i < |subs| && subs[i].activityId == a.id && subs[i].status == PendenteAvaliacao)
      && (g == Concluida <==>
            (forall i :: 0 <= i < |subs| && subs[i].activityId == a.id ==> subs[i].status != PendenteAvaliacao)
            && exists i :: 0 <= i < |subs| && subs[i].activityId == a.id && subs[i].status == Concluida)
  {
    var f := Filter(subs, (s: ProofSubmission) => s.activityId == a.id);
    forall i | 0 <= i < |subs| && subs[i].activityId == a.id ensures subs[i] in f {
      assert subs[i] in subs;
    }
    forall j | 0 <= j < |f| ensures f[j] in subs && f[j].activityId == a.id {
      assert f[j] in f;
    }
  }

  /** For a unit profile, the status is that of the unit's first submission
      for the activity, and no proof without one. */
  lemma {:induction false} UnitStatusMeaning(a: Activity, subs: seq<ProofSubmission>, ctx: UserContext)
    requires ctx.profile != Diretoria
    ensures ctx.unitId.None? ==> StatusFor(a, subs, ctx) == SemComprovacao
    ensures ctx.unitId.Some? ==>
      StatusFor(a, subs, ctx) == (var found := FindByKey(subs, a.id, ctx.unitId.value);
        if found.Some? then found.value.status else SemComprovacao)
  {
    var p := (s: ProofSubmission) => ForSessionUnit(s, a, ctx);
    if ctx.unitId.Some? {
      var found := Find(subs, p);
      var byKey := FindByKey(subs, a.id, ctx.unitId.value);
      if found.Some? {
        var i := FindIndex(subs, p);
        assert HasKey(subs[i], a.id, ctx.unitId.value);
        assert IndexOfKey(subs, a.id, ctx.unitId.value) == i;
      }
    }
  }

  /** A bound the pages write: empty for no date, otherwise read back as the
      same day by both `toDate` and `new Date`. */
  lemma {:induction false} WrittenBound(s: Option<CalendarDate>)
    requires s.Some? ==> ValidDate(s.value) && 1000 <= s.value.year <= 9999
    ensures ToDate(FromDate(s)) == s
    ensures (FromDate(s) == "") <==> s.None?
    ensures s.Some? ==> ParseIsoDate(FromDate(s)) == Valid(s.value)
  {
    if s.Some? {
      IsoAgreesWithToDate(s.value);
    }
  }

  /** On dates in the form the pages write (four-digit years), the list's
      period filter and the ranking's agree. */
  lemma {:induction false} PeriodAgreesWithRanking(a: Activity, di: CalendarDate, df: CalendarDate, s: Option<CalendarDate>, e: Option<CalendarDate>)
    requires ValidDate(di) && 1000 <= di.year <= 9999 && a.dataInicio == FromDate(Some(di))
    requires ValidDate(df) && 1000 <= df.year <= 9999 && a.dataFinal == FromDate(Some(df))
    requires s.Some? ==> ValidDate(s.value) && 1000 <= s.value.year <= 9999
    requires e.Some? ==> ValidDate(e.value) && 1000 <= e.value.year <= 9999
    ensures var range := Some(Ranking.PeriodRange(Some(FromDate(s)), Some(FromDate(e))));
      PeriodMatches(a, ToDate(FromDate(s)), ToDate(FromDate(e)))
        == Ranking.InPeriod(a, Ranking.Bound(range, true), Ranking.Bound(range, false))
  {
    WrittenBound(Some(di));
    WrittenBound(Some(df));
    WrittenBound(s);
    WrittenBound(e);
    WrittenBounds(s, e);
    FiltersAgreeOnKnownDays(a, di, df, s, e);
  }

  /** The ranking reads two written bounds as the chosen days. */
  lemma {:induction false} WrittenBounds(s: Option<CalendarDate>, e: Option<CalendarDate>)
    requires s.Some? ==> ValidDate(s.value) && 1000 <= s.value.year <= 9999
    requires e.Some? ==> ValidDate(e.value) && 1000 <= e.value.year <= 9999
    ensures var range := Some(Ranking.PeriodRange(Some(FromDate(s)), Some(FromDate(e))));
      Ranking.Bound(range, true) == AsBound(s) && Ranking.Bound(range, false) == AsBound(e)
  {
    WrittenBound(s);
    WrittenBound(e);
  }

  /** A chosen day as the ranking's bound. */
  function AsBound(d: Option<CalendarDate>): Option<Instant>
  {
    if d.Some? then Some(Valid(d.value)) else None
  }

  /** When both readers see the same two days in an activity, the two
      period filters agree on day bounds. */
  lemma {:induction false} FiltersAgreeOnKnownDays(a: Activity, di: CalendarDate, df: CalendarDate, s: Option<CalendarDate>, e: Option<CalendarDate>)
    requires ToDate(a.dataInicio) == Some(di) && ParseIsoDate(a.dataInicio) == Valid(di)
    requires ToDate(a.dataFinal) == Some(df) && ParseIsoDate(a.dataFinal) == Valid(df)
    ensures PeriodMatches(a, s, e) == Ranking.InPeriod(a, AsBound(s), AsBound(e))
  {
  }

  /** They differ on an activity without dates: with a period chosen, the
      list drops it and the ranking keeps it. */
  lemma {:induction false} MissingDatesDifferFromRanking(a: Activity, ps: string)
    requires a.dataInicio == "" && a.dataFinal == "" && ps != ""
    ensures var start := ToDate(ps); start.Some? ==> !PeriodMatches(a, start, None)
    ensures Ranking.InPeriod(a, Ranking.Bound(Some(Ranking.PeriodRange(Some(ps), None)), true), None)
  {
    assert ToDate(a.dataInicio).None?;
    assert ParseIsoDate(a.dataFinal) == Invalid;
  }

  /** `ActivitiesPageComponent`'s filter state. */
  class ActivitiesPageComponent {
    var searchTerm: string
    var periodStart: string
    var periodEnd: string
    var statusFilter: string
    var filtersOpen: bool

    constructor()
      ensures searchTerm == "" && periodStart == "" && periodEnd == "" && statusFilter == AllStatuses && !filtersOpen
    {
      searchTerm, periodStart, periodEnd, statusFilter := "", "", "", AllStatuses;
      filtersOpen := false;
    }

    /** `filteredActivities` over the repositories' lists and the session. */
    function Filtered(activities: seq<Activity>, subs: seq<ProofSubmission>, ctx: UserContext): seq<Activity>
      reads this
    {
      FilteredActivities(activities, subs, ctx, searchTerm, periodStart, periodEnd, statusFilter)
    }

    /** `setStatusFilter(value)`: a multiple choice is ignored. */
    method SetStatusFilter(choice: FilterChoice)
      modifies this
      ensures statusFilter == (if choice.Single? then choice.value else old(statusFilter))
      ensures searchTerm == old(searchTerm) && periodStart == old(periodStart) && periodEnd == old(periodEnd)
      ensures filtersOpen == old(filtersOpen)
    {
      if choice.Single? {
        statusFilter := choice.value;
      }
    }

    /** `toggleFilters()`. */
    method ToggleFilters()
      modifies this
      ensures filtersOpen == !old(filtersOpen)
      ensures searchTerm == old(searchTerm) && periodStart == old(periodStart) && periodEnd == old(periodEnd)
      ensures statusFilter == old(statusFilter)
    {
      filtersOpen := !filtersOpen;
    }

    /** `clearFilters()`: afterwards the list shows every activity
        (`ClearedFiltersShowEverything`). */
    method ClearFilters()
      modifies this
      ensures searchTerm == "" && periodStart == "" && periodEnd == "" && statusFilter == AllStatuses
      ensures filtersOpen == old(filtersOpen)
    {
      searchTerm, periodStart, periodEnd, statusFilter := "", "", "", AllStatuses;
    }
  }
}
