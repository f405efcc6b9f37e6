/**
 * The checks a stat command runs before touching any table. Each check is
 * tried in a fixed order and the first one that fails is the one reported.
 */
module Validation {
  import opened Wrappers
  import opened Domain

  /** Why a command was refused. */
  datatype Rejection =
    | NotModerator
    | GwOutOfRange
    | InvalidSeason
    | InvalidStatKind
    | NonPositiveCount
    | NotCurrentPeriod(currentGw: int, currentSeason: int)
    | NotFound

  /** The gameweek check, then the season check; shared by /set, /addstat and /removestats. */
  function CheckPeriod(gw: int, season: int): (r: Option<Rejection>)
    ensures r.None? <==> GwInRange(gw) && SeasonValid(season)
    ensures r == Some(GwOutOfRange) <==> !GwInRange(gw)
    ensures r == Some(InvalidSeason) <==> GwInRange(gw) && !SeasonValid(season)
  {
    if !GwInRange(gw) then Some(GwOutOfRange)
    else if !SeasonValid(season) then Some(InvalidSeason)
    else None
  }

  /**
   * The field checks of /addstat and /removestats: gameweek, season, stat
   * type, count. On success the parsed kind is returned.
   */
  function CheckFields(gw: int, season: int, statType: string, count: int): (r: Result<Kind, Rejection>)
    ensures r.Success? <==> GwInRange(gw) && SeasonValid(season) && ParseKind(statType).Some? && count > 0
    ensures r.Success? ==> Lower(statType) == KindName(r.value)
    ensures r == Failure(GwOutOfRange) <==> !GwInRange(gw)
    ensures r == Failure(InvalidSeason) <==> GwInRange(gw) && !SeasonValid(season)
    ensures r == Failure(InvalidStatKind) <==> GwInRange(gw) && SeasonValid(season) && ParseKind(statType).None?
    ensures r == Failure(NonPositiveCount) <==>
              GwInRange(gw) && SeasonValid(season) && ParseKind(statType).Some? && count <= 0
  {
    match CheckPeriod(gw, season)
    case Some(e) => Failure(e)
    case None =>
      match ParseKind(statType)
      case None => Failure(InvalidStatKind)
      case Some(k) => if count <= 0 then Failure(NonPositiveCount) else Success(k)
  }

  /**
   * The checks of /addstat: the field checks, then the gate that admits only
   * the current gameweek and season.
   */
  function CheckRecord(gw: int, season: int, statType: string, count: int,
                       currentGw: int, currentSeason: int): (r: Result<Kind, Rejection>)
    ensures r.Success? <==> CheckFields(gw, season, statType, count).Success? && gw == currentGw && season == currentSeason
    ensures r.Success? ==> Lower(statType) == KindName(r.value)
    ensures CheckFields(gw, season, statType, count).Failure? ==> r == CheckFields(gw, season, statType, count)
    ensures CheckFields(gw, season, statType, count).Success? && r.Failure? ==>
              r.error == NotCurrentPeriod(currentGw, currentSeason)
  {
    var fields := CheckFields(gw, season, statType, count);
    if fields.Failure? then fields
    else if gw != currentGw || season != currentSeason then Failure(NotCurrentPeriod(currentGw, currentSeason))
    else fields
  }
}
