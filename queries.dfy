/**
 * The read side of the service: the `players` and `games` endpoints filter
 * a persisted document. The storage round trip and the response envelope
 * live in the Pipeline module; here are the filters themselves.
 */
module Queries {
  import opened Wrappers
  import opened Records

  /** `Array.prototype.filter`: the elements that pass `keep`, in their order. */
  function Filter<T(!new)>(xs: seq<T>, keep: T -> bool): (r: seq<T>)
    ensures |r| <= |xs|
    ensures forall x :: x in r <==> x in xs && keep(x)
  {
    if xs == [] then []
    else (if keep(xs[0]) then [xs[0]] else []) + Filter(xs[1..], keep)
  }

  /** Filtering distributes over concatenation, so the kept elements keep their relative order. */
  lemma {:induction false} FilterAppend<T(!new)>(xs: seq<T>, ys: seq<T>, keep: T -> bool)
    ensures Filter(xs + ys, keep) == Filter(xs, keep) + Filter(ys, keep)
  {
    if xs == [] {
      assert xs + ys == ys;
    } else {
      assert (xs + ys)[1..] == xs[1..] + ys;
      FilterAppend(xs[1..], ys, keep);
    }
  }

  /** Filtering twice with the same test is filtering once. */
  lemma {:induction false} FilterIdempotent<T(!new)>(xs: seq<T>, keep: T -> bool)
    ensures Filter(Filter(xs, keep), keep) == Filter(xs, keep)
  {
    if xs != [] {
      var head := if keep(xs[0]) then [xs[0]] else [];
      FilterAppend(head, Filter(xs[1..], keep), keep);
      FilterIdempotent(xs[1..], keep);
      if keep(xs[0]) {
        assert Filter(head, keep) == head by {
          assert head[1..] == [];
        }
      }
    }
  }

  /**
   * The `team` query parameter the players endpoint uses: absent when there
   * are no query parameters, when `team` is missing, or when it is the empty
   * string (falsy in the handler's `if (!team)` test).
   */
  function RequestedTeam(params: Option<map<string, string>>): (r: Option<string>)
    ensures r.Some? <==> params.Some? && "team" in params.value && params.value["team"] != ""
    ensures r.Some? ==> r.value == params.value["team"]
  {
    match params
    case None => None
    case Some(ps) => if "team" in ps && ps["team"] != "" then Some(ps["team"]) else None
  }

  /** The `team.id` a persisted player entry carries, if its team is defined. */
  function TeamIdOf(e: PlayerEntry): Option<string>
  {
    match e.team
    case Stub(id) => Some(id)
    case Resolved(t) => Some(t.id)
    case Unresolved => None
  }

  predicate OnTeam(e: PlayerEntry, teamId: string)
  {
    TeamIdOf(e) == Some(teamId)
  }

  /**
   * `players.filter(player => player.team.id === teamId)` as written in
   * handler.ts: the test reads `.id` of an undefined team, so the walk stops
   * with a TypeError (None) at the first entry whose team is undefined.
   */
  function UnguardedFilter(players: seq<PlayerEntry>, teamId: string): (r: Option<seq<PlayerEntry>>)
    ensures r.None? <==> exists e :: e in players && e.team.Unresolved?
    ensures r.Some? ==> r.value == Filter(players, (e: PlayerEntry) => OnTeam(e, teamId))
  {
    if players == [] then Some([])
    else if players[0].team.Unresolved? then None
    else
      match UnguardedFilter(players[1..], teamId)
      case None =>
        assert exists e :: e in players[1..] && e.team.Unresolved?;
        None
      case Some(rest) =>
        assert forall e :: e in players ==> e == players[0] || e in players[1..];
        Some((if OnTeam(players[0], teamId) then [players[0]] else []) + rest)
  }

  /**
   * The body of the players endpoint's response: the empty list when no team
   * is requested, otherwise the entries whose team has the requested id.
   * handler.ts fails (None) on an entry without a team; handler.js guards the
   * test with `player.team &&` and skips such entries.
   */
  function PlayersQuery(rev: Revision, params: Option<map<string, string>>,
                        players: seq<PlayerEntry>): (r: Option<seq<PlayerEntry>>)
    ensures RequestedTeam(params).None? ==> r == Some([])
    ensures rev == HandlerJs ==> r.Some?
    ensures rev == HandlerTs && RequestedTeam(params).Some? ==>
      (r.None? <==> exists e :: e in players && e.team.Unresolved?)
    ensures r.Some? && RequestedTeam(params).Some? ==>
      forall e :: e in r.value <==> e in players && OnTeam(e, RequestedTeam(params).value)
  {
    match RequestedTeam(params)
    case None => Some([])
    case Some(teamId) =>
      if rev == HandlerTs then UnguardedFilter(players, teamId)
      else Some(GuardedFilter(players, teamId))
  }

  /**
   * `players.filter(player => player.team && player.team.id === teamId)` as
   * in handler.js: entries without a team are skipped.
   */
  function GuardedFilter(players: seq<PlayerEntry>, teamId: string): (r: seq<PlayerEntry>)
    ensures forall e :: e in r <==> e in players && OnTeam(e, teamId)
  {
    Filter(players, (e: PlayerEntry) => !e.team.Unresolved? && TeamIdOf(e) == Some(teamId))
  }

  /** When every persisted entry has a team, both revisions answer the same. */
  lemma PlayersQueryRevisionsAgree(params: Option<map<string, string>>, players: seq<PlayerEntry>)
    requires forall e :: e in players ==> !e.team.Unresolved?
    ensures PlayersQuery(HandlerTs, params, players) == PlayersQuery(HandlerJs, params, players)
  {
    if RequestedTeam(params).Some? {
      var teamId := RequestedTeam(params).value;
      FilterSameTest(players, (e: PlayerEntry) => OnTeam(e, teamId),
                     (e: PlayerEntry) => !e.team.Unresolved? && TeamIdOf(e) == Some(teamId));
    }
  }

  /** Two tests that agree on every element filter a sequence alike. */
  lemma {:induction false} FilterSameTest<T(!new)>(xs: seq<T>, p: T -> bool, q: T -> bool)
    requires forall x :: x in xs ==> p(x) == q(x)
    ensures Filter(xs, p) == Filter(xs, q)
  {
    if xs != [] {
      assert forall x :: x in xs[1..] ==> x in xs;
      FilterSameTest(xs[1..], p, q);
    }
  }

  /** The body of the games endpoint's response: the games dated `today` ("yyyy-mm-dd"). */
  function GamesOn(games: seq<Game>, today: string): (r: seq<Game>)
    ensures forall g :: g in r <==> g in games && g.date == today
  {
    Filter(games, (g: Game) => g.date == today)
  }

  /** The games of a merged schedule dated `today` are those of each league's part, in league order. */
  lemma GamesOnAppend(first: seq<Game>, second: seq<Game>, today: string)
    ensures GamesOn(first + second, today) == GamesOn(first, today) + GamesOn(second, today)
  {
    FilterAppend(first, second, (g: Game) => g.date == today);
  }

  /**
   * One stats entry whose team was not found among the standings is enough
   * for handler.ts's filter to fail, even for a team that has players;
   * handler.js answers with that team's players.
   */
  lemma UnguardedFilterFailsOnMissingTeam(orphan: PlayerEntry, member: PlayerEntry, teamId: string)
    requires orphan.team.Unresolved? && TeamIdOf(member) == Some(teamId)
    ensures UnguardedFilter([orphan, member], teamId).None?
    ensures PlayersQuery(HandlerJs, Some(map["team" := teamId]), [orphan, member]) ==
      (if teamId == "" then Some([]) else Some([member]))
  {
    if teamId != "" {
      assert [orphan, member][1..] == [member];
      assert [member][1..] == [];
      var keep := (e: PlayerEntry) => !e.team.Unresolved? && TeamIdOf(e) == Some(teamId);
      assert !keep(orphan) && keep(member);
      assert Filter([member], keep) == [member];
      assert Filter([orphan, member], keep) == [member];
      assert GuardedFilter([orphan, member], teamId) == Filter([orphan, member], keep);
    }
  }
}
