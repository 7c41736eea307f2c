/** The signed-in user's context: the profile, the unit a non-board user acts
    for, and the name shown; kept in local storage under `cd.user-context`. */
module Session {
  import opened Wrappers
  import opened Models
  import opened MockDb

  /** The context a fresh session starts from. */
  const DefaultContext := UserContext(Diretoria, None, "Diretoria")

  /** `Partial<UserContext>`: `None` is a key the partial leaves out; a
      `unitId` of `Some(None)` is a key present with `undefined`. */
  datatype ContextPartial = ContextPartial(profile: Option<UserProfile>, unitId: Option<Option<Id>>, displayName: Option<string>)

  /** `{ ...context, ...partial }`. */
  function MergeContext(c: UserContext, p: ContextPartial): (r: UserContext)
    ensures r.profile == p.profile.GetOr(c.profile)
    ensures r.unitId == p.unitId.GetOr(c.unitId)
    ensures r.displayName == p.displayName.GetOr(c.displayName)
  {
    UserContext(p.profile.GetOr(c.profile), p.unitId.GetOr(c.unitId), p.displayName.GetOr(c.displayName))
  }

  /** The board acts for no unit. */
  predicate BoardHasNoUnit(c: UserContext)
  {
    c.profile == Diretoria ==> c.unitId.None?
  }

  /** `units[0]?.id`. */
  function FirstUnitId(units: seq<Unit>): Option<Id>
  {
    if units == [] then None else Some(units[0].id)
  }

  /** The unit a profile acts for: none for the board; otherwise the one it
      has, or the first unit. */
  function UnitFor(profile: UserProfile, current: Option<Id>, units: seq<Unit>): (r: Option<Id>)
    ensures profile == Diretoria ==> r.None?
    ensures profile != Diretoria && current.Some? ==> r == current
    ensures profile != Diretoria && current.None? ==> (r.Some? <==> units != []) && (r.Some? ==> r.value == units[0].id)
  {
    if profile == Diretoria then None else current.OrElse(FirstUnitId(units))
  }

  function DisplayNameFor(profile: UserProfile): string
  {
    match profile
    case Diretoria => "Diretoria"
    case Conselheiro => "Conselheiro"
    case Desbravador => "Desbravador"
  }

  /** `loadInitialContext()`: the stored context, or the board's default
      when nothing usable is stored. */
  function LoadInitialContext(stored: Option<UserContext>): UserContext
  {
    stored.GetOr(DefaultContext)
  }

  /** What the constructor sets. */
  function InitialContext(stored: Option<UserContext>, units: seq<Unit>): UserContext
  {
    var c := LoadInitialContext(stored);
    c.(unitId := UnitFor(c.profile, c.unitId, units))
  }

  /** What `setProfile(profile)` merges in. */
  function ProfilePartial(c: UserContext, profile: UserProfile, units: seq<Unit>): ContextPartial
  {
    ContextPartial(Some(profile), Some(UnitFor(profile, c.unitId, units)), Some(DisplayNameFor(profile)))
  }

  /** What `setUnit(unitId)` leaves as the context. */
  function WithUnit(c: UserContext, unitId: Id): UserContext
  {
    if c.profile == Diretoria then c else MergeContext(c, ContextPartial(None, Some(Some(unitId)), None))
  }

  /** A merge changes exactly the keys the partial names, merging nothing
      changes nothing, and merging the same partial again changes nothing more. */
  lemma {:induction false} MergeLaws(c: UserContext, p: UserContext, partial: ContextPartial)
    ensures MergeContext(c, ContextPartial(None, None, None)) == c
    ensures MergeContext(c, ContextPartial(Some(p.profile), Some(p.unitId), Some(p.displayName))) == p
    ensures MergeContext(MergeContext(c, partial), partial) == MergeContext(c, partial)
  {
  }

  /** A new session never gives the board a unit; a non-board user gets the
      stored unit or the first unit when there is one; and with nothing
      stored the session is the board's. */
  lemma {:induction false} InitialContextLaws(stored: Option<UserContext>, units: seq<Unit>)
    ensures var c := InitialContext(stored, units);
      BoardHasNoUnit(c)
      && (c.profile != Diretoria && units != [] ==> c.unitId.Some?)
      && (stored.None? ==> c == DefaultContext)
      && (stored.Some? ==> c.profile == stored.value.profile && c.displayName == stored.value.displayName)
  {
  }

  /** Choosing a profile shows its name, gives the board no unit and keeps a
      non-board user's unit, and choosing it again changes nothing. */
  lemma {:induction false} SetProfileLaws(c: UserContext, profile: UserProfile, units: seq<Unit>)
    ensures var next := MergeContext(c, ProfilePartial(c, profile, units));
      next.profile == profile && next.displayName == DisplayNameFor(profile)
      && BoardHasNoUnit(next)
      && (profile != Diretoria && c.unitId.Some? ==> next.unitId == c.unitId)
      && (profile != Diretoria && units != [] ==> next.unitId.Some?)
      && MergeContext(next, ProfilePartial(next, profile, units)) == next
  {
  }

  /** Choosing a unit is refused for the board and keeps the profile; so a
      context where the board has no unit keeps that. */
  lemma {:induction false} SetUnitLaws(c: UserContext, unitId: Id)
    ensures var next := WithUnit(c, unitId);
      next.profile == c.profile && next.displayName == c.displayName
      && (c.profile == Diretoria ==> next == c)
      && (c.profile != Diretoria ==> next.unitId == Some(unitId))
      && (BoardHasNoUnit(c) ==> BoardHasNoUnit(next))
  {
  }

  /** `updateContext` itself does not keep the board unit-less: switching
      only the profile to the board keeps the unit that was set. */
  lemma {:induction false} UpdateContextCanGiveTheBoardAUnit(c: UserContext)
    requires c.unitId.Some?
    ensures !BoardHasNoUnit(MergeContext(c, ContextPartial(Some(Diretoria), None, None)))
  {
  }

  /** Reloading a stored context gives it back exactly when the board has no
      unit in it and a non-board user without a unit has no unit to default
      to. */
  lemma {:induction false} ReloadRestoresContext(c: UserContext, units: seq<Unit>)
    ensures InitialContext(Some(c), units) == c <==>
      BoardHasNoUnit(c) && (c.profile != Diretoria && c.unitId.None? ==> units == [])
  {
    var r := InitialContext(Some(c), units);
    if c.profile != Diretoria && c.unitId.None? && units != [] {
      assert r.unitId.Some?;
    }
  }

  /** `SessionService`. `stored` is the local-storage entry as read back
      (`None` when it is missing or does not parse). */
  class SessionService {
    const db: MockDbService
    var context: UserContext
    var stored: Option<UserContext>

    /** Starts from the stored context; the constructor does not persist. */
    constructor(db: MockDbService, stored: Option<UserContext>)
      ensures this.db == db && this.stored == stored
      ensures context == InitialContext(stored, db.units)
    {
      this.db := db;
      this.stored := stored;
      context := InitialContext(stored, db.units);
    }

    function Profile(): UserProfile
      reads this
    {
      context.profile
    }

    function UnitId(): Option<Id>
      reads this
    {
      context.unitId
    }

    function DisplayName(): string
      reads this
    {
      context.displayName
    }

    /** `updateContext(partial)`: merges and persists. */
    method UpdateContext(partial: ContextPartial)
      modifies this
      ensures context == MergeContext(old(context), partial)
      ensures stored == Some(context)
    {
      context := MergeContext(context, partial);
      stored := Some(context);
    }

    method SetProfile(profile: UserProfile)
      modifies this
      ensures context == MergeContext(old(context), ProfilePartial(old(context), profile, db.units))
      ensures stored == Some(context)
    {
      UpdateContext(ProfilePartial(context, profile, db.units));
    }

    /** `setUnit(unitId)`: the board's call stores nothing. */
    method SetUnit(unitId: Id)
      modifies this
      ensures context == WithUnit(old(context), unitId)
      ensures stored == if old(context).profile == Diretoria then old(stored) else Some(context)
    {
      if context.profile == Diretoria {
        return;
      }
      UpdateContext(ContextPartial(None, Some(Some(unitId)), None));
    }

    method SetDisplayName(displayName: string)
      modifies this
      ensures context == old(context).(displayName := displayName)
      ensures stored == Some(context)
    {
      UpdateContext(ContextPartial(None, None, Some(displayName)));
    }
  }
}
