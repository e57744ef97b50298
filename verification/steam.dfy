/**
 * What app/services/steam.py does around its four upstream calls: the API-key
 * gate, vanity resolution, the top-10 re-sort by playtime and the fragment.
 */
module Steam {
  import opened Json
  import opened Text
  import opened Wrappers
  import opened Seqs

  /** A game entry; `None` playtimes stand for a missing field, read as 0. */
  datatype Game = Game(name: Value, playtimeForever: Option<int>, playtime2Weeks: Option<int>)

  /** The `response` object of ResolveVanityURL (missing fields read as None). */
  datatype ResolveReply = ResolveReply(success: Value, steamid: Value)

  /** One entry of GetPlayerSummaries' `players`. */
  datatype PlayerSummary = PlayerSummary(personaname: Value, profileurl: Value)

  /** How many games the top list and the recent list keep. */
  const ListLimit := 10

  /** `is_ready()`: an API key is configured and non-empty. */
  predicate IsReady(apiKey: Option<string>)
  {
    apiKey.Some? && apiKey.value != ""
  }

  /** Python's `value == 1`, which also holds for True and 1.0. */
  predicate IsOne(v: Value)
  {
    v == VInt(1) || v == VBool(true) || (v.VFrac? && v.den != 0 && v.num == v.den)
  }

  /**
   * `_resolve_vanity`: the steamid when the reply says `success == 1`, else None;
   * a failed request (`None` here) also gives None.
   */
  function ResolveVanity(reply: Option<ResolveReply>): (id: Value)
    ensures Truthy(id) ==> reply.Some? && IsOne(reply.value.success) && id == reply.value.steamid
    ensures reply.Some? && IsOne(reply.value.success) ==> id == reply.value.steamid
  {
    if reply.Some? && IsOne(reply.value.success) then reply.value.steamid else VNone
  }

  /** The steam id the adapter ends up with: the explicit one, else the resolved vanity name. */
  function ResolvedId(steamId: Value, vanity: Value, reply: Option<ResolveReply>): (id: Value)
    ensures Truthy(steamId) ==> id == steamId
    ensures !Truthy(steamId) && Truthy(vanity) ==> id == ResolveVanity(reply)
    ensures !Truthy(steamId) && !Truthy(vanity) ==> !Truthy(id)
  {
    if !Truthy(steamId) && Truthy(vanity) then ResolveVanity(reply) else steamId
  }

  /** `g.get("playtime_forever", 0)`. */
  function Minutes(g: Game): int
  {
    g.playtimeForever.GetOr(0)
  }

  function TotalMinutes(games: seq<Game>): int
  {
    if games == [] then 0 else Minutes(games[0]) + TotalMinutes(games[1..])
  }

  /** `sorted(games, key=playtime_forever, reverse=True)[:10]`. */
  function TopGames(games: seq<Game>): seq<Game>
  {
    Take(SortDesc(games, Minutes), ListLimit)
  }

  /**
   * The top list has at most ten games, most played first, each taken from the
   * owned list; no owned game left out was played more than one kept; and games
   * with equal playtime keep their upstream order.
   */
  lemma TopGamesCorrect(games: seq<Game>)
    ensures |TopGames(games)| == if |games| <= ListLimit then |games| else ListLimit
    ensures SortedDesc(TopGames(games), Minutes)
    ensures forall g :: g in TopGames(games) ==> g in games
    ensures |games| > ListLimit ==>
      forall g :: g in games && g !in TopGames(games) ==>
        Minutes(g) <= Minutes(TopGames(games)[ListLimit - 1])
    ensures forall m :: WithKey(TopGames(games), Minutes, m) <= WithKey(games, Minutes, m)
  {
    TopByKey(games, Minutes, ListLimit);
    var sorted := SortDesc(games, Minutes);
    SortDescCorrect(games, Minutes);
    var top := TopGames(games);
    forall m ensures WithKey(top, Minutes, m) <= WithKey(games, Minutes, m) {
      assert sorted == top + sorted[|top|..];
      WithKeyAppend(top, sorted[|top|..], Minutes, m);
    }
  }

  /** `f"{name} ({round(minutes / 60, 1)}h)"`. */
  function TopLabel(g: Game): string
  {
    Show(g.name) + " (" + Show(VFrac(Minutes(g), 60)) + "h)"
  }

  /** `f"{name} ({round(playtime_2weeks / 60, 1)}h last 2w)"`. */
  function RecentLabel(g: Game): string
  {
    Show(g.name) + " (" + Show(VFrac(g.playtime2Weeks.GetOr(0), 60)) + "h last 2w)"
  }

  function Labels(games: seq<Game>, recent: bool): (r: seq<Value>)
    ensures |r| == |games|
    ensures forall i :: 0 <= i < |games| ==> r[i] == VStr(if recent then RecentLabel(games[i]) else TopLabel(games[i]))
  {
    seq(|games|, i requires 0 <= i < |games| => VStr(if recent then RecentLabel(games[i]) else TopLabel(games[i])))
  }

  /** The keys of the fragment, in the order the adapter builds it. */
  const FragmentKeys := ["steam_id", "player_name", "profile_url", "total_playtime_hours",
                         "top_games", "recent_games", "type"]

  /**
   * `SteamService.get_roast_data`. The three lookups after id resolution are
   * given as `None` when their request raised; their outcome is absorbed.
   */
  method GetRoastData(apiKey: Option<string>, steamId: Value, vanity: Value,
                      resolveReply: Option<ResolveReply>, summary: Option<seq<PlayerSummary>>,
                      owned: Option<seq<Game>>, recent: Option<seq<Game>>)
    returns (r: Dict)
    ensures r == [] <==> !IsReady(apiKey) || !Truthy(ResolvedId(steamId, vanity, resolveReply))
    ensures r != [] ==> r == Fragment(ResolvedId(steamId, vanity, resolveReply), summary, owned, recent)
  {
    if !IsReady(apiKey) {
      return [];
    }
    var id := steamId;
    if !Truthy(id) && Truthy(vanity) {
      id := ResolveVanity(resolveReply);
    }
    if !Truthy(id) {
      return [];
    }
    r := Fragment(id, summary, owned, recent);
  }

  /**
   * The fragment for a resolved id: the first player's name and profile URL (None
   * without one), total hours, the top ten by playtime, the first ten recent games.
   */
  function Fragment(id: Value, summary: Option<seq<PlayerSummary>>, owned: Option<seq<Game>>,
                    recent: Option<seq<Game>>): (r: Dict)
    ensures r != [] && Keys(r) == FragmentKeys
    ensures r[6].1 == VStr("steam") && r[0].1 == id
    ensures summary.None? || summary.value == [] ==> r[1].1 == VNone && r[2].1 == VNone
    ensures summary.Some? && summary.value != [] ==>
      r[1].1 == summary.value[0].personaname && r[2].1 == summary.value[0].profileurl
    ensures var games := owned.GetOr([]);
      && r[3].1 == (if games == [] then VInt(0) else VFrac(TotalMinutes(games), 60))
      && r[4].1 == VList(Labels(TopGames(games), false))
    ensures r[5].1 == VList(Labels(Take(recent.GetOr([]), ListLimit), true))
  {
    var player := if summary.Some? && summary.value != [] then Some(summary.value[0]) else None;
    var games := owned.GetOr([]);
    var K := FragmentKeys;
    [(K[0], id),
     (K[1], if player.Some? then player.value.personaname else VNone),
     (K[2], if player.Some? then player.value.profileurl else VNone),
     (K[3], if games != [] then VFrac(TotalMinutes(games), 60) else VInt(0)),
     (K[4], VList(Labels(TopGames(games), false))),
     (K[5], VList(Labels(Take(recent.GetOr([]), ListLimit), true))),
     (K[6], VStr("steam"))]
  }
}
