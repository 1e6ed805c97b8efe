/**
 * `readAllDataFromApi` and the three read endpoints. The bucket is a `Store`
 * object whose map of keys to documents the methods update; each upstream
 * feed is given already parsed (and its keys normalized), a league missing
 * from a feed map standing for a request or parse that fails.
 */
module Pipeline {
  import opened Wrappers
  import opened Records
  import opened Colours
  import opened Shaping
  import opened Queries

  /** A document in the bucket, as its JSON text would parse. */
  datatype Blob =
    | ColoursDoc(colours: seq<TeamColour>)
    | TeamsDoc(teams: seq<Team>)
    | GamesDoc(games: seq<Game>)
    | PlayersDoc(players: seq<PlayerEntry>)

  const ColoursKey: string := "colors.json"
  const TeamsKey: string := "teams.json"
  const GamesKey: string := "games.json"
  const PlayersKey: string := "players.json"

  /** The bucket: a map from object key to stored document. */
  class Store {
    var objects: map<string, Blob>

    constructor (initial: map<string, Blob>)
      ensures objects == initial
    {
      objects := initial;
    }

    /** `s3.putObject`: stores `blob` under `key`, replacing any previous object. */
    method Put(key: string, blob: Blob)
      modifies this
      ensures objects == old(objects)[key := blob]
    {
      objects := objects[key := blob];
    }

    /** `s3.getObject`: the stored document, or None when the key is absent. */
    method Get(key: string) returns (r: Option<Blob>)
      ensures r.Some? <==> key in objects
      ensures r.Some? ==> r.value == objects[key]
    {
      if key in objects {
        r := Some(objects[key]);
      } else {
        r := None;
      }
    }
  }

  /** The parsed payload of every league's standings, schedule and stats feed. */
  datatype Upstream = Upstream(
    teamFeeds: map<string, seq<TeamEntry>>,
    gameFeeds: map<string, seq<Game>>,
    playerFeeds: map<string, seq<PlayerEntry>>)

  predicate Covers<T>(leagues: seq<string>, feeds: map<string, T>)
  {
    forall l :: l in leagues ==> l in feeds
  }

  /** Every league's schedule is present and `findTeam` does not throw on any of its games. */
  predicate GamesUsable(leagues: seq<string>, feeds: map<string, seq<Game>>, teams: seq<Team>)
  {
    forall l :: l in leagues ==>
      l in feeds && forall k :: 0 <= k < |feeds[l]| ==> GameResolvable(feeds[l][k], teams)
  }

  /** Every league's stats are present and every entry can be shaped against `teams`. */
  predicate PlayersUsable(leagues: seq<string>, feeds: map<string, seq<PlayerEntry>>, teams: seq<Team>)
  {
    forall l :: l in leagues ==>
      l in feeds && forall k :: 0 <= k < |feeds[l]| ==> PlayerShapeable(feeds[l][k], teams)
  }

  /** `Promise.all([getTeamsPromise(l) for l in leagues]).then(_.flatMap)`. */
  function MergedTeams(leagues: seq<string>, feeds: map<string, seq<TeamEntry>>): (r: seq<Team>)
    requires Covers(leagues, feeds)
    ensures forall t :: t in r ==> t.league in leagues
  {
    if leagues == [] then []
    else
      var last := leagues[|leagues| - 1];
      MergedTeams(leagues[..|leagues| - 1], feeds) + LeagueTeams(feeds[last], last)
  }

  /** `Promise.all([getGamesPromise(l, teams) for l in leagues]).then(_.flatMap)`. */
  function MergedGames(leagues: seq<string>, feeds: map<string, seq<Game>>, teams: seq<Team>): (r: seq<Game>)
    requires GamesUsable(leagues, feeds, teams)
    ensures forall g :: g in r ==>
      g.league in leagues && !g.awayTeam.Stub? && !g.homeTeam.Stub? &&
      (g.awayTeam.Resolved? ==> g.awayTeam.team in teams) &&
      (g.homeTeam.Resolved? ==> g.homeTeam.team in teams)
  {
    if leagues == [] then []
    else
      var last := leagues[|leagues| - 1];
      var shaped := LeagueGames(feeds[last], last, teams);
      assert forall g :: g in shaped ==>
        g.league == last && !g.awayTeam.Stub? && !g.homeTeam.Stub? &&
        (g.awayTeam.Resolved? ==> g.awayTeam.team in teams) &&
        (g.homeTeam.Resolved? ==> g.homeTeam.team in teams);
      MergedGames(leagues[..|leagues| - 1], feeds, teams) + shaped
  }

  /** `Promise.all([getPlayersPromise(l, teams) for l in leagues]).then(_.flatMap)`. */
  function MergedPlayers(rev: Revision, leagues: seq<string>, feeds: map<string, seq<PlayerEntry>>,
                         teams: seq<Team>, positions: map<string, string>): (r: seq<PlayerEntry>)
    requires PlayersUsable(leagues, feeds, teams)
    ensures forall e :: e in r ==>
      e.player.league in leagues && e.stats.None? && e.player.gamesPlayed.Some? &&
      !e.team.Stub? && (e.team.Resolved? ==> e.team.team in teams)
  {
    if leagues == [] then []
    else
      var last := leagues[|leagues| - 1];
      var shaped := LeaguePlayers(rev, feeds[last], last, teams, positions);
      assert forall e :: e in shaped ==>
        e.player.league == last && e.stats.None? && e.player.gamesPlayed.Some? &&
        !e.team.Stub? && (e.team.Resolved? ==> e.team.team in teams) by {
        forall e | e in shaped
          ensures e.player.league == last && e.stats.None? && e.player.gamesPlayed.Some? &&
                  !e.team.Stub? && (e.team.Resolved? ==> e.team.team in teams)
        {
          var k :| 0 <= k < |shaped| && shaped[k] == e;
        }
      }
      MergedPlayers(rev, leagues[..|leagues| - 1], feeds, teams, positions) + shaped
  }

  /** The colour table stored in the bucket, if it is there. */
  function ColoursOf(objects: map<string, Blob>): Option<seq<TeamColour>>
  {
    if ColoursKey in objects && objects[ColoursKey].ColoursDoc? then Some(objects[ColoursKey].colours)
    else None
  }

  /**
   * The value `teamsWithColorsPromise` settles with: the merged teams with
   * their colours, or None when a standings feed or the colour table is
   * missing or a matched colour entry cannot be converted.
   */
  function ColouredTeams(rev: Revision, up: Upstream, objects: map<string, Blob>): (r: Option<seq<Team>>)
    ensures r.Some? <==>
      Covers(Leagues(rev), up.teamFeeds) && ColoursOf(objects).Some? &&
      AllColourable(MergedTeams(Leagues(rev), up.teamFeeds), ColoursOf(objects).value)
    ensures r.Some? ==>
      r.value == AddColoursToTeams(MergedTeams(Leagues(rev), up.teamFeeds), ColoursOf(objects).value)
  {
    if !Covers(Leagues(rev), up.teamFeeds) || ColoursOf(objects).None? then None
    else
      var merged := MergedTeams(Leagues(rev), up.teamFeeds);
      var colours := ColoursOf(objects).value;
      if AllColourable(merged, colours) then Some(AddColoursToTeams(merged, colours))
      else None
  }

  /** Every team's first matching colour entry, if any, can be converted. */
  predicate AllColourable(teams: seq<Team>, colours: seq<TeamColour>)
  {
    forall k :: 0 <= k < |teams| ==> Colourable(teams[k], colours)
  }

  /**
   * The bucket after a run whose teams leg succeeded: the teams document
   * replaced, the games and players documents replaced when their legs
   * succeeded, every other object as it was.
   */
  function Persisted(objects: map<string, Blob>, teams: seq<Team>, games: Option<seq<Game>>,
                     players: Option<seq<PlayerEntry>>): (r: map<string, Blob>)
    ensures r.Keys == objects.Keys + {TeamsKey}
                      + (if games.Some? then {GamesKey} else {})
                      + (if players.Some? then {PlayersKey} else {})
    ensures r[TeamsKey] == TeamsDoc(teams)
    ensures games.Some? ==> r[GamesKey] == GamesDoc(games.value)
    ensures players.Some? ==> r[PlayersKey] == PlayersDoc(players.value)
    ensures forall k ::
      (k in objects && k != TeamsKey && (games.Some? ==> k != GamesKey) && (players.Some? ==> k != PlayersKey))
      ==> r[k] == objects[k]
  {
    var withTeams := objects[TeamsKey := TeamsDoc(teams)];
    var withGames := if games.Some? then withTeams[GamesKey := GamesDoc(games.value)] else withTeams;
    if players.Some? then withGames[PlayersKey := PlayersDoc(players.value)] else withGames
  }

  /** Fetches every league's standings in league order; None when one fails. */
  method FetchAllTeams(leagues: seq<string>, feeds: map<string, seq<TeamEntry>>) returns (r: Option<seq<Team>>)
    ensures r.Some? <==> Covers(leagues, feeds)
    ensures r.Some? ==> r.value == MergedTeams(leagues, feeds)
  {
    var all: seq<Team> := [];
    for i := 0 to |leagues|
      invariant Covers(leagues[..i], feeds)
      invariant all == MergedTeams(leagues[..i], feeds)
    {
      if leagues[i] !in feeds {
        return None;
      }
      var fetched := FetchTeams(feeds[leagues[i]], leagues[i]);
      assert leagues[..i + 1][..i] == leagues[..i];
      all := all + fetched;
    }
    assert leagues[..|leagues|] == leagues;
    r := Some(all);
  }

  /** Fetches every league's schedule in league order; None when one fails. */
  method FetchAllGames(leagues: seq<string>, feeds: map<string, seq<Game>>, teams: seq<Team>)
    returns (r: Option<seq<Game>>)
    ensures r.Some? <==> GamesUsable(leagues, feeds, teams)
    ensures r.Some? ==> r.value == MergedGames(leagues, feeds, teams)
  {
    var all: seq<Game> := [];
    for i := 0 to |leagues|
      invariant GamesUsable(leagues[..i], feeds, teams)
      invariant all == MergedGames(leagues[..i], feeds, teams)
    {
      var league := leagues[i];
      if league !in feeds || !(forall k :: 0 <= k < |feeds[league]| ==> GameResolvable(feeds[league][k], teams)) {
        return None;
      }
      var fetched := FetchGames(feeds[league], league, teams);
      assert leagues[..i + 1][..i] == leagues[..i];
      all := all + fetched;
    }
    assert leagues[..|leagues|] == leagues;
    r := Some(all);
  }

  /** Fetches every league's stats in league order; None when one fails. */
  method FetchAllPlayers(rev: Revision, leagues: seq<string>, feeds: map<string, seq<PlayerEntry>>,
                         teams: seq<Team>, positions: map<string, string>) returns (r: Option<seq<PlayerEntry>>)
    ensures r.Some? <==> PlayersUsable(leagues, feeds, teams)
    ensures r.Some? ==> r.value == MergedPlayers(rev, leagues, feeds, teams, positions)
  {
    var all: seq<PlayerEntry> := [];
    for i := 0 to |leagues|
      invariant PlayersUsable(leagues[..i], feeds, teams)
      invariant all == MergedPlayers(rev, leagues[..i], feeds, teams, positions)
    {
      var league := leagues[i];
      if league !in feeds || !(forall k :: 0 <= k < |feeds[league]| ==> PlayerShapeable(feeds[league][k], teams)) {
        return None;
      }
      var fetched := FetchPlayers(rev, feeds[league], league, teams, positions);
      assert leagues[..i + 1][..i] == leagues[..i];
      all := all + fetched;
    }
    assert leagues[..|leagues|] == leagues;
    r := Some(all);
  }

  /**
   * `readAllDataFromApi`: merges the standings, colours the teams and stores
   * them; then, with those teams, fetches and stores games and players, each
   * document only when all of its leagues succeed. Returns what the teams
   * promise settles with once both later legs succeed (the handler itself
   * discards it).
   */
  method InitData(rev: Revision, up: Upstream, positions: map<string, string>, store: Store)
    returns (settled: Option<seq<Team>>)
    modifies store
    ensures ColouredTeams(rev, up, old(store.objects)).None? ==>
      settled.None? && store.objects == old(store.objects)
    ensures ColouredTeams(rev, up, old(store.objects)).Some? ==>
      var teams := ColouredTeams(rev, up, old(store.objects)).value;
      var leagues := Leagues(rev);
      var games := if GamesUsable(leagues, up.gameFeeds, teams)
                   then Some(MergedGames(leagues, up.gameFeeds, teams)) else None;
      var players := if PlayersUsable(leagues, up.playerFeeds, teams)
                     then Some(MergedPlayers(rev, leagues, up.playerFeeds, teams, positions)) else None;
      store.objects == Persisted(old(store.objects), teams, games, players) &&
      settled == (if games.Some? && players.Some? then Some(teams) else None)
  {
    var leagues := Leagues(rev);
    var fromApi := FetchAllTeams(leagues, up.teamFeeds);
    var blob := store.Get(ColoursKey);
    if fromApi.None? || blob.None? || !blob.value.ColoursDoc? {
      return None;
    }
    var colours := blob.value.colours;
    if !AllColourable(fromApi.value, colours) {
      return None;
    }
    var teams := AddColoursToTeams(fromApi.value, colours);
    store.Put(TeamsKey, TeamsDoc(teams));

    var games := FetchAllGames(leagues, up.gameFeeds, teams);
    if games.Some? {
      store.Put(GamesKey, GamesDoc(games.value));
    }

    var players := FetchAllPlayers(rev, leagues, up.playerFeeds, teams, positions);
    if players.Some? {
      store.Put(PlayersKey, PlayersDoc(players.value));
    }

    settled := if games.Some? && players.Some? then Some(teams) else None;
  }

  /** The standings are merged in the handler's league order. */
  lemma MergedTeamsOrder(feeds: map<string, seq<TeamEntry>>)
    requires Covers(Leagues(HandlerJs), feeds)
    ensures Covers(Leagues(HandlerTs), feeds)
    ensures MergedTeams(Leagues(HandlerTs), feeds) ==
      LeagueTeams(feeds["nhl"], "nhl") + LeagueTeams(feeds["nba"], "nba") + LeagueTeams(feeds["nfl"], "nfl")
    ensures MergedTeams(Leagues(HandlerJs), feeds) ==
      MergedTeams(Leagues(HandlerTs), feeds) + LeagueTeams(feeds["mlb"], "mlb")
  {
    assert Leagues(HandlerTs) == ["nhl", "nba", "nfl"];
    assert Leagues(HandlerJs) == ["nhl", "nba", "nfl", "mlb"];
    assert MergedTeams(["nhl"], feeds) == LeagueTeams(feeds["nhl"], "nhl") by {
      assert ["nhl"][..0] == [];
    }
    assert MergedTeams(["nhl", "nba"], feeds) == MergedTeams(["nhl"], feeds) + LeagueTeams(feeds["nba"], "nba") by {
      assert ["nhl", "nba"][..1] == ["nhl"];
    }
    assert MergedTeams(["nhl", "nba", "nfl"], feeds) ==
      MergedTeams(["nhl", "nba"], feeds) + LeagueTeams(feeds["nfl"], "nfl") by {
      assert ["nhl", "nba", "nfl"][..2] == ["nhl", "nba"];
    }
    assert ["nhl", "nba", "nfl", "mlb"][..3] == ["nhl", "nba", "nfl"];
  }

  /**
   * With no teams at all, `findTeam` never reads a game's team field, so a
   * schedule is usable as soon as it is present, even with a game that lacks
   * a team.
   */
  lemma GamesUsableWithoutTeams(leagues: seq<string>, feeds: map<string, seq<Game>>)
    ensures GamesUsable(leagues, feeds, []) <==> Covers(leagues, feeds)
  {
  }

  /** The schedules are merged in the same order, each tagged with its own league. */
  lemma MergedGamesAppend(leagues: seq<string>, league: string, feeds: map<string, seq<Game>>, teams: seq<Team>)
    requires GamesUsable(leagues + [league], feeds, teams)
    ensures GamesUsable(leagues, feeds, teams)
    ensures MergedGames(leagues + [league], feeds, teams) ==
      MergedGames(leagues, feeds, teams) + LeagueGames(feeds[league], league, teams)
  {
    assert (leagues + [league])[..|leagues|] == leagues;
  }

  /** Merging one more league appends that league's shaped players after the others. */
  lemma MergedPlayersAppend(rev: Revision, leagues: seq<string>, league: string,
                            feeds: map<string, seq<PlayerEntry>>, teams: seq<Team>,
                            positions: map<string, string>)
    requires PlayersUsable(leagues + [league], feeds, teams)
    ensures PlayersUsable(leagues, feeds, teams)
    ensures MergedPlayers(rev, leagues + [league], feeds, teams, positions) ==
      MergedPlayers(rev, leagues, feeds, teams, positions) + LeaguePlayers(rev, feeds[league], league, teams, positions)
  {
    assert (leagues + [league])[..|leagues|] == leagues;
  }

  /** The games endpoint over a merged schedule answers league by league. */
  lemma GamesOnMerged(leagues: seq<string>, league: string, feeds: map<string, seq<Game>>,
                      teams: seq<Team>, today: string)
    requires GamesUsable(leagues + [league], feeds, teams)
    ensures GamesUsable(leagues, feeds, teams)
    ensures GamesOn(MergedGames(leagues + [league], feeds, teams), today) ==
      GamesOn(MergedGames(leagues, feeds, teams), today) + GamesOn(LeagueGames(feeds[league], league, teams), today)
  {
    MergedGamesAppend(leagues, league, feeds, teams);
    GamesOnAppend(MergedGames(leagues, feeds, teams), LeagueGames(feeds[league], league, teams), today);
  }

  /** The teams endpoint: the stored teams document, verbatim. */
  method ServeTeams(store: Store) returns (r: Option<seq<Team>>)
    ensures r.Some? <==> TeamsKey in store.objects && store.objects[TeamsKey].TeamsDoc?
    ensures r.Some? ==> r.value == store.objects[TeamsKey].teams
  {
    var blob := store.Get(TeamsKey);
    if blob.Some? && blob.value.TeamsDoc? {
      r := Some(blob.value.teams);
    } else {
      r := None;
    }
  }

  /**
   * The players endpoint: the empty list without reading the bucket when no
   * team is requested, otherwise the stored players filtered by team; None
   * when the document is missing or the filter fails.
   */
  method ServePlayers(rev: Revision, params: Option<map<string, string>>, store: Store)
    returns (r: Option<seq<PlayerEntry>>)
    ensures RequestedTeam(params).None? ==> r == Some([])
    ensures RequestedTeam(params).Some? ==>
      (r.Some? ==> PlayersKey in store.objects && store.objects[PlayersKey].PlayersDoc?) &&
      (PlayersKey in store.objects && store.objects[PlayersKey].PlayersDoc? ==>
         r == PlayersQuery(rev, params, store.objects[PlayersKey].players))
  {
    if RequestedTeam(params).None? {
      return Some([]);
    }
    var blob := store.Get(PlayersKey);
    if blob.Some? && blob.value.PlayersDoc? {
      r := PlayersQuery(rev, params, blob.value.players);
    } else {
      r := None;
    }
  }

  /** The games endpoint: the stored games dated `today` (the Pacific date, given). */
  method ServeGames(today: string, store: Store) returns (r: Option<seq<Game>>)
    ensures r.Some? <==> GamesKey in store.objects && store.objects[GamesKey].GamesDoc?
    ensures r.Some? ==> r.value == GamesOn(store.objects[GamesKey].games, today)
    ensures r.Some? ==> forall g :: g in r.value <==> g in store.objects[GamesKey].games && g.date == today
  {
    var blob := store.Get(GamesKey);
    if blob.Some? && blob.value.GamesDoc? {
      r := Some(GamesOn(blob.value.games, today));
    } else {
      r := None;
    }
  }
}
