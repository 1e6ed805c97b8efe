/**
 * The post-fetch passes of `getTeamsPromise`, `getGamesPromise` and
 * `getPlayersPromise`. Each `.tap(xs => xs.forEach(x => ...))` updates the
 * records of the fetched list in place; here the list is an array and each
 * pass a loop over it.
 */
module Shaping {
  import opened Wrappers
  import opened Records

  /** `teams.forEach(team => team.league = league)`. */
  method TagTeams(teams: array<Team>, league: string)
    modifies teams
    ensures forall i :: 0 <= i < teams.Length ==> teams[i] == old(teams[i]).(league := league)
  {
    for i := 0 to teams.Length
      invariant forall k :: 0 <= k < i ==> teams[k] == old(teams[k]).(league := league)
      invariant forall k :: i <= k < teams.Length ==> teams[k] == old(teams[k])
    {
      teams[i] := teams[i].(league := league);
    }
  }

  /** `games.forEach(game => game.league = league)`. */
  method TagGames(games: array<Game>, league: string)
    modifies games
    ensures forall i :: 0 <= i < games.Length ==> games[i] == old(games[i]).(league := league)
  {
    for i := 0 to games.Length
      invariant forall k :: 0 <= k < i ==> games[k] == old(games[k]).(league := league)
      invariant forall k :: i <= k < games.Length ==> games[k] == old(games[k])
    {
      games[i] := games[i].(league := league);
    }
  }

  /** `game.awayTeam = findTeam(teams, game.awayTeam)`, and the same for `homeTeam`. */
  method ResolveGames(games: array<Game>, teams: seq<Team>)
    requires forall i :: 0 <= i < games.Length ==> GameResolvable(games[i], teams)
    modifies games
    ensures forall i :: 0 <= i < games.Length ==>
      GameResolvable(old(games[i]), teams) &&
      games[i] == old(games[i]).(awayTeam := ResolveRef(teams, old(games[i]).awayTeam),
                                 homeTeam := ResolveRef(teams, old(games[i]).homeTeam))
  {
    for i := 0 to games.Length
      invariant forall k :: 0 <= k < i ==>
        games[k] == old(games[k]).(awayTeam := ResolveRef(teams, old(games[k]).awayTeam),
                                   homeTeam := ResolveRef(teams, old(games[k]).homeTeam))
      invariant forall k :: i <= k < games.Length ==> games[k] == old(games[k])
    {
      var game := games[i];
      game := game.(awayTeam := ResolveRef(teams, game.awayTeam));
      game := game.(homeTeam := ResolveRef(teams, game.homeTeam));
      games[i] := game;
    }
  }

  /** `players.forEach(player => player.player.league = league)`. */
  method TagPlayers(entries: array<PlayerEntry>, league: string)
    modifies entries
    ensures forall i :: 0 <= i < entries.Length ==>
      entries[i] == old(entries[i]).(player := old(entries[i]).player.(league := league))
  {
    for i := 0 to entries.Length
      invariant forall k :: 0 <= k < i ==>
        entries[k] == old(entries[k]).(player := old(entries[k]).player.(league := league))
      invariant forall k :: i <= k < entries.Length ==> entries[k] == old(entries[k])
    {
      entries[i] := entries[i].(player := entries[i].player.(league := league));
    }
  }

  /**
   * `player.team = findTeam(teams, player.team)`, then
   * `player.player.gamesPlayed = player.stats.gamesPlayed["#text"]`, then
   * `delete player.stats`.
   */
  method HoistPlayers(entries: array<PlayerEntry>, teams: seq<Team>)
    requires forall i :: 0 <= i < entries.Length ==> PlayerShapeable(entries[i], teams)
    modifies entries
    ensures forall i :: 0 <= i < entries.Length ==>
      PlayerShapeable(old(entries[i]), teams) &&
      entries[i] == PlayerEntry(
        old(entries[i]).player.(gamesPlayed := Some(old(entries[i]).stats.value.gamesPlayedText)),
        ResolveRef(teams, old(entries[i]).team),
        None)
  {
    for i := 0 to entries.Length
      invariant forall k :: 0 <= k < i ==>
        entries[k] == PlayerEntry(
          old(entries[k]).player.(gamesPlayed := Some(old(entries[k]).stats.value.gamesPlayedText)),
          ResolveRef(teams, old(entries[k]).team),
          None)
      invariant forall k :: i <= k < entries.Length ==> entries[k] == old(entries[k])
    {
      var e := entries[i];
      e := e.(team := ResolveRef(teams, e.team));
      e := e.(player := e.player.(gamesPlayed := Some(e.stats.value.gamesPlayedText)));
      e := e.(stats := None);
      entries[i] := e;
    }
  }

  /** `player.player.position = convertPosition(player.player)` (handler.js only). */
  method TranslatePositions(entries: array<PlayerEntry>, positions: map<string, string>)
    modifies entries
    ensures forall i :: 0 <= i < entries.Length ==>
      entries[i] == old(entries[i]).(player := old(entries[i]).player.(
                      position := ConvertPosition(positions, old(entries[i]).player)))
  {
    for i := 0 to entries.Length
      invariant forall k :: 0 <= k < i ==>
        entries[k] == old(entries[k]).(player := old(entries[k]).player.(
                        position := ConvertPosition(positions, old(entries[k]).player)))
      invariant forall k :: i <= k < entries.Length ==> entries[k] == old(entries[k])
    {
      var p := entries[i].player;
      entries[i] := entries[i].(player := p.(position := ConvertPosition(positions, p)));
    }
  }

  /**
   * `getTeamsPromise(league)` from the parsed standings on: the entries'
   * teams, each tagged with the league.
   */
  method FetchTeams(entries: seq<TeamEntry>, league: string) returns (teams: seq<Team>)
    ensures teams == LeagueTeams(entries, league)
  {
    var a := new Team[|entries|](i requires 0 <= i < |entries| => entries[i].team);
    TagTeams(a, league);
    teams := a[..];
  }

  /**
   * `getGamesPromise(league, teams)` from the parsed schedule on: the games
   * tagged with the league, then their team stubs resolved.
   */
  method FetchGames(raw: seq<Game>, league: string, teams: seq<Team>) returns (games: seq<Game>)
    requires forall i :: 0 <= i < |raw| ==> GameResolvable(raw[i], teams)
    ensures games == LeagueGames(raw, league, teams)
  {
    var a := new Game[|raw|](i requires 0 <= i < |raw| => raw[i]);
    TagGames(a, league);
    ResolveGames(a, teams);
    games := a[..];
  }

  /**
   * `getPlayersPromise(league, teams)` from the parsed stats on: the passes
   * in the handler's order, the position pass only in `handler.js`.
   */
  method FetchPlayers(rev: Revision, raw: seq<PlayerEntry>, league: string, teams: seq<Team>,
                      positions: map<string, string>) returns (players: seq<PlayerEntry>)
    requires forall i :: 0 <= i < |raw| ==> PlayerShapeable(raw[i], teams)
    ensures players == LeaguePlayers(rev, raw, league, teams, positions)
  {
    var a := new PlayerEntry[|raw|](i requires 0 <= i < |raw| => raw[i]);
    TagPlayers(a, league);
    HoistPlayers(a, teams);
    if rev == HandlerJs {
      TranslatePositions(a, positions);
    }
    players := a[..];
  }
}
