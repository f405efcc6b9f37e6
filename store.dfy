/**
 * The bot's three tables held in memory: the config table (current gameweek
 * and season), the players table, and the stat ledger. The /set, /addstat,
 * /removestats and /profile commands are methods on it.
 */
module Store {
  import opened Wrappers
  import opened Domain
  import opened PointsTable
  import opened Ranks
  import opened Validation
  import opened Ledger
  import opened Aggregation

  /** The keys of the config table. */
  datatype ConfigKey = CurrentGw | CurrentSeason

  /**
   * The config table after start-up seeding: each key that is missing is
   * inserted with value 1; a key already present keeps its value.
   */
  function Seeded(config: map<ConfigKey, int>): (r: map<ConfigKey, int>)
    ensures r.Keys == config.Keys + {CurrentGw, CurrentSeason}
    ensures forall key :: key in config ==> r[key] == config[key]
    ensures forall key :: key in r && key !in config ==> r[key] == 1
  {
    var withGw := if CurrentGw in config then config else config[CurrentGw := 1];
    if CurrentSeason in withGw then withGw else withGw[CurrentSeason := 1]
  }

  /** Seeding a second time changes nothing. */
  lemma SeedingIdempotent(config: map<ConfigKey, int>)
    ensures Seeded(Seeded(config)) == Seeded(config)
  {
  }

  /**
   * The players table after an insert-or-ignore of user u: a row for u
   * exists, with no position if it is new; every other row is kept.
   */
  function RegisterPlayer(players: map<UserId, Option<string>>, u: UserId): (r: map<UserId, Option<string>>)
    ensures r.Keys == players.Keys + {u}
    ensures forall v :: v in players ==> r[v] == players[v]
    ensures u !in players ==> r[u] == None
  {
    if u in players then players else players[u := None]
  }

  /** Registering the same player twice is the same as registering once. */
  lemma RegisterPlayerIdempotent(players: map<UserId, Option<string>>, u: UserId)
    ensures RegisterPlayer(RegisterPlayer(players, u), u) == RegisterPlayer(players, u)
  {
  }

  /** The position shown on a profile: the stored one, or "Not set" when there is none or it is empty. */
  function PositionOf(players: map<UserId, Option<string>>, u: UserId): (r: string)
    ensures r != ""
    ensures u in players && players[u].Some? && players[u].value != "" ==> r == players[u].value
  {
    if u in players && players[u].Some? && players[u].value != "" then players[u].value else "Not set"
  }

  /** What /profile reports. */
  datatype ProfileView = ProfileView(position: string, totals: map<Kind, int>, points: int, rank: Rank)

  /** What a successful /addstat reports for the notification to the player. */
  datatype Notice = Notice(kind: Kind, statPoints: int, divisionTotals: map<Kind, int>)

  class StatStore {
    var config: map<ConfigKey, int>
    var players: map<UserId, Option<string>>
    var ledger: seq<Event>

    /** Both config keys exist, which start-up seeding guarantees. */
    ghost predicate Valid()
      reads this
    {
      CurrentGw in config && CurrentSeason in config
    }

    /** Opens the tables as persisted and runs start-up initialisation. */
    constructor Open(config0: map<ConfigKey, int>, players0: map<UserId, Option<string>>, ledger0: seq<Event>)
      ensures Valid()
      ensures config == Seeded(config0) && players == players0 && ledger == ledger0
    {
      config, players, ledger := config0, players0, ledger0;
      new;
      InitDb();
    }

    /** Start-up initialisation: inserts each config key with value 1 unless it already exists. */
    method InitDb()
      modifies this`config
      ensures Valid()
      ensures config == Seeded(old(config))
    {
      if CurrentGw !in config {
        config := config[CurrentGw := 1];
      }
      if CurrentSeason !in config {
        config := config[CurrentSeason := 1];
      }
    }

    /** /set: sets the current gameweek and season when both are in range. */
    method SetPeriod(isModerator: bool, gw: int, season: int) returns (r: Option<Rejection>)
      requires Valid()
      modifies this`config
      ensures Valid()
      ensures !isModerator ==> r == Some(NotModerator)
      ensures isModerator ==> r == CheckPeriod(gw, season)
      ensures r.None? ==> config == old(config)[CurrentGw := gw][CurrentSeason := season]
      ensures r.Some? ==> config == old(config)
    {
      if !isModerator {
        return Some(NotModerator);
      }
      r := CheckPeriod(gw, season);
      if r.None? {
        config := config[CurrentGw := gw];
        config := config[CurrentSeason := season];
      }
    }

    /**
     * /addstat: after the checks, registers the player, appends one row
     * with the stat type lower-cased, and reports the row's points and the
     * player's fresh per-kind totals in the row's division.
     */
    method AddStat(isModerator: bool, u: UserId, gw: int, season: int, statType: string, count: int,
                   division: Division) returns (r: Result<Notice, Rejection>)
      requires Valid()
      modifies this`players, this`ledger
      ensures Valid()
      ensures r.Failure? ==> ledger == old(ledger) && players == old(players)
      ensures !isModerator ==> r == Failure(NotModerator)
      ensures isModerator ==>
        var checked := CheckRecord(gw, season, statType, count, config[CurrentGw], config[CurrentSeason]);
        && (checked.Failure? ==> r == Failure(checked.error))
        && (checked.Success? ==>
              && ledger == old(ledger) + [Event(u, gw, season, Lower(statType), count, DivisionName(division))]
              && players == RegisterPlayer(old(players), u)
              && r == Success(Notice(checked.value, Points(division, checked.value) * count,
                                     DivisionTotals(ledger, u, division))))
      ensures LedgerWellFormed(old(ledger)) ==> LedgerWellFormed(ledger)
    {
      if !isModerator {
        return Failure(NotModerator);
      }
      var checked := CheckRecord(gw, season, statType, count, config[CurrentGw], config[CurrentSeason]);
      if checked.Failure? {
        return Failure(checked.error);
      }
      var k := checked.value;
      players := RegisterPlayer(players, u);
      ledger := ledger + [Event(u, gw, season, Lower(statType), count, DivisionName(division))];
      r := Success(Notice(k, Points(division, k) * count, DivisionTotals(ledger, u, division)));
    }

    /**
     * /removestats: after the field checks (no current-period gate), deletes
     * the first row matching (user, gameweek, season, kind, division), or
     * reports NotFound when none does. The count argument is only checked for
     * being positive; it does not choose which or how many rows go.
     */
    method RemoveStats(isModerator: bool, u: UserId, gw: int, season: int, statType: string, count: int,
                       division: Division) returns (r: Result<Event, Rejection>)
      modifies this`ledger
      ensures r.Failure? ==> ledger == old(ledger)
      ensures !isModerator ==> r == Failure(NotModerator)
      ensures isModerator ==>
        var checked := CheckFields(gw, season, statType, count);
        var key := Key(u, gw, season, Lower(statType), DivisionName(division));
        && (checked.Failure? ==> r == Failure(checked.error))
        && (checked.Success? && FirstMatch(old(ledger), key).None? ==> r == Failure(NotFound))
        && (checked.Success? && FirstMatch(old(ledger), key).Some? ==>
              var i := FirstMatch(old(ledger), key).value;
              ledger == RemoveAt(old(ledger), i) && r == Success(old(ledger)[i]))
      ensures LedgerWellFormed(old(ledger)) ==> LedgerWellFormed(ledger)
    {
      if !isModerator {
        return Failure(NotModerator);
      }
      var checked := CheckFields(gw, season, statType, count);
      if checked.Failure? {
        return Failure(checked.error);
      }
      var key := Key(u, gw, season, Lower(statType), DivisionName(division));
      var found := MatchCount(ledger, key);
      MatchCountZeroIffNoMatch(ledger, key);
      if found == 0 {
        return Failure(NotFound);
      }
      var i := FirstMatch(ledger, key).value;
      r := Success(ledger[i]);
      ledger := RemoveAt(ledger, i);
    }

    /**
     * /profile: the player's position, per-kind totals over all divisions
     * (every kind present, zero when absent), division-weighted points and rank.
     */
    method Profile(u: UserId) returns (view: ProfileView)
      ensures view.position == PositionOf(players, u)
      ensures forall k :: k in view.totals && view.totals[k] == KindTotal(ledger, u, k)
      ensures view.points == TotalPoints(ledger, u)
      ensures view.rank == RankOf(view.points)
    {
      var totals := map k | k in AllKinds :: 0;
      var points := 0;
      var i := 0;
      EveryKindListed();
      assert ledger[..0] == [];
      while i < |ledger|
        invariant 0 <= i <= |ledger|
        invariant forall k :: k in totals && totals[k] == KindTotal(ledger[..i], u, k)
        invariant points == TotalPoints(ledger[..i], u)
      {
        var e := ledger[i];
        assert ledger[..i + 1] == ledger[..i] + [e];
        AppendRowShare(ledger[..i], e, u);
        if e.user == u {
          match KindOfName(e.kind) {
            case Some(k) => totals := totals[k := totals[k] + e.count];
            case None =>
          }
          match LookupPoints(e.division, e.kind) {
            case Some(p) => points := points + p * e.count;
            case None =>
          }
        }
        i := i + 1;
      }
      assert ledger[..i] == ledger;
      view := ProfileView(PositionOf(players, u), totals, points, RankOf(points));
    }
  }
}
