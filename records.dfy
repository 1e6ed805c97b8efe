/**
 * The records the handler builds from the upstream payloads once the keys are
 * normalised, and the per-record steps of fetching: league tagging, team
 * resolution (`findTeam`), hoisting `gamesPlayed` and position translation
 * (`convertPosition`).
 */
module Records {
  import opened Wrappers

  /** The two revisions of the handler: `handler.ts` and the later `handler.js`. */
  datatype Revision = HandlerTs | HandlerJs

  /** The leagues fetched, in the order their lists are concatenated. */
  function Leagues(rev: Revision): seq<string>
  {
    match rev
    case HandlerTs => ["nhl", "nba", "nfl"]
    case HandlerJs => ["nhl", "nba", "nfl", "mlb"]
  }

  /**
   * `team.colour`: absent until a colour entry matches (also what an
   * `undefined` assignment leaves once the record is serialised), `null` when
   * the matching entry has neither `hex` nor `rgb`, or a hex string.
   */
  datatype ColourField = Absent | Null | Hex(code: string)

  /** A team as found in a standings entry, after tagging and colouring. */
  datatype Team = Team(
    id: string,
    city: string,
    name: string,
    abbreviation: string,
    league: string,
    colour: ColourField)

  /** An entry of `overallteamstandings.teamstandingsentry`. */
  datatype TeamEntry = TeamEntry(team: Team)

  /**
   * A `team`, `awayTeam` or `homeTeam` field: the stub from upstream, the full
   * team it was resolved to, or `undefined` when `findTeam` found nothing.
   */
  datatype TeamRef = Stub(stubId: string) | Resolved(team: Team) | Unresolved

  /** An entry of `fullgameschedule.gameentry`. */
  datatype Game = Game(
    id: string,
    date: string,
    time: string,
    location: string,
    league: string,
    awayTeam: TeamRef,
    homeTeam: TeamRef)

  /** The `player` part of a player-stats entry. */
  datatype Player = Player(
    id: string,
    firstName: string,
    lastName: string,
    jerseyNumber: string,
    position: string,
    league: string,
    gamesPlayed: Option<string>)

  /** `stats`, of which the core reads only `gamesPlayed["#text"]`. */
  datatype Stats = Stats(gamesPlayedText: string)

  /** An entry of `cumulativeplayerstats.playerstatsentry`. */
  datatype PlayerEntry = PlayerEntry(player: Player, team: TeamRef, stats: Option<Stats>)

  /**
   * `teamToFind.id`. Reading it from `undefined` throws, which is why the
   * shaping steps require references that are not `Unresolved`.
   */
  function RefId(ref: TeamRef): string
    requires !ref.Unresolved?
  {
    match ref
    case Stub(id) => id
    case Resolved(t) => t.id
  }

  /**
   * `findTeam(teams, teamToFind)`: the first team in list order whose id is
   * the stub's id, or nothing when no team has that id.
   */
  function FindTeam(teams: seq<Team>, id: string): (r: Option<Team>)
    ensures r.None? <==> forall i :: 0 <= i < |teams| ==> teams[i].id != id
    ensures r.Some? ==> exists i :: 0 <= i < |teams| && teams[i] == r.value && teams[i].id == id
                                   && forall j :: 0 <= j < i ==> teams[j].id != id
  {
    if teams == [] then None
    else if teams[0].id == id then Some(teams[0])
    else
      var r := FindTeam(teams[1..], id);
      assert forall i :: 1 <= i < |teams| ==> teams[i] == teams[1..][i - 1];
      r
  }

  /**
   * When exactly one team has the id (ids unique within the list), `findTeam`
   * returns that team.
   */
  lemma FindTeamUnique(teams: seq<Team>, k: nat)
    requires k < |teams|
    requires forall i :: 0 <= i < |teams| && i != k ==> teams[i].id != teams[k].id
    ensures FindTeam(teams, teams[k].id) == Some(teams[k])
  {
  }

  /**
   * Ids are compared without the league: when two leagues' lists share an id,
   * every stub with that id resolves to the team of the league that comes
   * first in the merged list, whatever league the game or player belongs to.
   */
  lemma FindTeamIgnoresLeague(first: seq<Team>, second: seq<Team>, t: Team)
    requires t in second
    requires forall u :: u in first ==> u.league != t.league
    requires exists u :: u in first && u.id == t.id
    ensures FindTeam(first + second, t.id).Some?
    ensures FindTeam(first + second, t.id).value.league != t.league
  {
    var all := first + second;
    var r := FindTeam(all, t.id);
    var u :| u in first && u.id == t.id;
    var ku :| 0 <= ku < |first| && first[ku] == u;
    assert all[ku] == u;
    var i :| 0 <= i < |all| && all[i] == r.value && all[i].id == t.id
             && forall j :: 0 <= j < i ==> all[j].id != t.id;
    assert i <= ku;
    assert all[i] == first[i];
  }

  /**
   * `findTeam(teams, ref)` does not throw: `teams.find` reads `ref.id` only
   * when it calls its test, that is, when the list is not empty.
   */
  predicate Findable(teams: seq<Team>, ref: TeamRef)
  {
    teams == [] || !ref.Unresolved?
  }

  /**
   * `findTeam` applied to a team field, with `undefined` for a miss. A field
   * that is already `undefined` stays so when the list is empty.
   */
  function ResolveRef(teams: seq<Team>, ref: TeamRef): (r: TeamRef)
    requires Findable(teams, ref)
    ensures ref.Unresolved? ==> r.Unresolved?
    ensures !ref.Unresolved? ==>
      (r.Unresolved? <==> forall i :: 0 <= i < |teams| ==> teams[i].id != RefId(ref))
    ensures r.Resolved? ==> !ref.Unresolved? && r.team in teams && r.team.id == RefId(ref)
    ensures r.Resolved? ==>
      (!ref.Unresolved? &&
       exists i :: 0 <= i < |teams| && teams[i] == r.team
                   && forall j :: 0 <= j < i ==> teams[j].id != RefId(ref))
    ensures !r.Stub?
  {
    if ref.Unresolved? then Unresolved
    else
      match FindTeam(teams, RefId(ref))
      case Some(t) => Resolved(t)
      case None => Unresolved
  }

  /**
   * `convertPosition(player)`: the table entry for `league + "-" + position`
   * when there is one and it is not the empty string (which is falsy),
   * otherwise the raw position code, unchanged.
   */
  function ConvertPosition(positions: map<string, string>, player: Player): (r: string)
    ensures r != player.position ==> player.league + "-" + player.position in positions && r != ""
    ensures r != player.position ==> r == positions[player.league + "-" + player.position]
    ensures player.league + "-" + player.position !in positions ==> r == player.position
    ensures player.league + "-" + player.position in positions
              && positions[player.league + "-" + player.position] != ""
            ==> r == positions[player.league + "-" + player.position]
  {
    var key := player.league + "-" + player.position;
    if key in positions && positions[key] != "" then positions[key] else player.position
  }

  /** A team from a standings entry (`team.team`), tagged with its league. */
  function TagTeam(entry: TeamEntry, league: string): (r: Team)
    ensures r.league == league
    ensures r.(league := entry.team.league) == entry.team
  {
    entry.team.(league := league)
  }

  /** `findTeam` over `teams` does not throw on either team field of the game. */
  predicate GameResolvable(g: Game, teams: seq<Team>)
  {
    Findable(teams, g.awayTeam) && Findable(teams, g.homeTeam)
  }

  /**
   * A game once fetched for `league`: tagged, then both team fields replaced
   * by `findTeam` over the final teams.
   */
  function ShapeGame(g: Game, league: string, teams: seq<Team>): (r: Game)
    requires GameResolvable(g, teams)
    ensures r.league == league
    ensures r.awayTeam == ResolveRef(teams, g.awayTeam) && r.homeTeam == ResolveRef(teams, g.homeTeam)
    ensures r.(league := g.league, awayTeam := g.awayTeam, homeTeam := g.homeTeam) == g
  {
    g.(league := league,
       awayTeam := ResolveRef(teams, g.awayTeam),
       homeTeam := ResolveRef(teams, g.homeTeam))
  }

  /** A player entry has its stats, and `findTeam` over `teams` does not throw on its team field. */
  predicate PlayerShapeable(e: PlayerEntry, teams: seq<Team>)
  {
    e.stats.Some? && Findable(teams, e.team)
  }

  /**
   * A player entry once fetched for `league`, in the order the handler's
   * passes run: `player.league` is set, then the team is resolved,
   * `gamesPlayed` hoisted and `stats` deleted, then (in `handler.js` only) the
   * position is translated using the league just set.
   */
  function ShapePlayer(rev: Revision, e: PlayerEntry, league: string, teams: seq<Team>,
                       positions: map<string, string>): (r: PlayerEntry)
    requires PlayerShapeable(e, teams)
    ensures r.player.league == league && r.team == ResolveRef(teams, e.team)
    ensures r.player.gamesPlayed == Some(e.stats.value.gamesPlayedText) && r.stats.None?
    ensures r.player.position == (match rev
                                  case HandlerTs => e.player.position
                                  case HandlerJs => ConvertPosition(positions, e.player.(league := league)))
    ensures r.player.(league := e.player.league, gamesPlayed := e.player.gamesPlayed,
                      position := e.player.position) == e.player
  {
    var tagged := e.player.(league := league);
    var hoisted := PlayerEntry(tagged.(gamesPlayed := Some(e.stats.value.gamesPlayedText)),
                               ResolveRef(teams, e.team), None);
    match rev
    case HandlerTs => hoisted
    case HandlerJs =>
      hoisted.(player := hoisted.player.(position := ConvertPosition(positions, hoisted.player)))
  }

  /** The teams of one league's standings, tagged with that league. */
  function LeagueTeams(entries: seq<TeamEntry>, league: string): (r: seq<Team>)
    ensures |r| == |entries|
    ensures forall i :: 0 <= i < |r| ==> r[i].league == league
    ensures forall i :: 0 <= i < |r| ==> r[i].(league := entries[i].team.league) == entries[i].team
  {
    seq(|entries|, i requires 0 <= i < |entries| => TagTeam(entries[i], league))
  }

  /** The games of one league's schedule, tagged and resolved. */
  function LeagueGames(raw: seq<Game>, league: string, teams: seq<Team>): (r: seq<Game>)
    requires forall i :: 0 <= i < |raw| ==> GameResolvable(raw[i], teams)
    ensures |r| == |raw|
    ensures forall i :: 0 <= i < |r| ==>
      && GameResolvable(raw[i], teams)
      && r[i].league == league
      && r[i].awayTeam == ResolveRef(teams, raw[i].awayTeam)
      && r[i].homeTeam == ResolveRef(teams, raw[i].homeTeam)
      && r[i].(league := raw[i].league, awayTeam := raw[i].awayTeam, homeTeam := raw[i].homeTeam) == raw[i]
  {
    seq(|raw|, i requires 0 <= i < |raw| => ShapeGame(raw[i], league, teams))
  }

  /** The player entries of one league's stats, shaped. */
  function LeaguePlayers(rev: Revision, raw: seq<PlayerEntry>, league: string, teams: seq<Team>,
                         positions: map<string, string>): (r: seq<PlayerEntry>)
    requires forall i :: 0 <= i < |raw| ==> PlayerShapeable(raw[i], teams)
    ensures |r| == |raw|
    ensures forall i :: 0 <= i < |r| ==>
      && PlayerShapeable(raw[i], teams)
      && r[i].player.league == league
      && r[i].team == ResolveRef(teams, raw[i].team)
      && r[i].player.gamesPlayed == Some(raw[i].stats.value.gamesPlayedText)
      && r[i].stats.None?
      && r[i].player.position == (match rev
                                  case HandlerTs => raw[i].player.position
                                  case HandlerJs => ConvertPosition(positions, raw[i].player.(league := league)))
      && r[i].player.(league := raw[i].player.league, gamesPlayed := raw[i].player.gamesPlayed,
                      position := raw[i].player.position) == raw[i].player
  {
    seq(|raw|, i requires 0 <= i < |raw| => ShapePlayer(rev, raw[i], league, teams, positions))
  }
}
