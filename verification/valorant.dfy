/**
 * What app/services/valorant.py does with the two upstream replies (rank, then
 * match history): rank defaults, the loop over the last five matches, the guarded
 * ratios, the win count and the most frequent agent.
 */
module Valorant {
  import opened Json
  import opened Text
  import opened Wrappers
  import opened Seqs

  /** `data.current` of the MMR reply: the tier name and the elo. */
  datatype Current = Current(tierName: Value, elo: Value)

  /** The MMR reply: its status and, when present and non-empty, `data.current`. */
  datatype MmrReply = MmrReply(status: int, current: Option<Current>)

  datatype Stats = Stats(kills: int, deaths: int, headshots: int, bodyshots: int, legshots: int)

  datatype Player = Player(name: string, tag: string, teamId: string, agent: string, stats: Stats)

  /** A team of a match; `won` is the truthiness of its `won` field. */
  datatype Team = Team(teamId: string, won: bool)

  datatype Match = Match(players: seq<Player>, teams: seq<Team>)

  /** The match-history reply: its status and its `data` list (missing reads as empty). */
  datatype MatchesReply = MatchesReply(status: int, data: seq<Match>)

  /** How many matches are looked at. */
  const MatchWindow := 5

  /** Whether `p` is the searched player: name and tag both equal up to case. */
  predicate IsMe(p: Player, name: string, tag: string)
  {
    Lower(p.name) == Lower(name) && Lower(p.tag) == Lower(tag)
  }

  /** The player matching name and tag case-insensitively, first one wins. */
  function FindMe(players: seq<Player>, name: string, tag: string): (r: Option<Player>)
    ensures r.Some? ==> IsMe(r.value, name, tag)
    ensures r.Some? ==>
      exists k :: 0 <= k < |players| && players[k] == r.value && forall j :: 0 <= j < k ==> !IsMe(players[j], name, tag)
    ensures r.None? <==> forall p :: p in players ==> !IsMe(p, name, tag)
  {
    if players == [] then None
    else if IsMe(players[0], name, tag) then Some(players[0])
    else
      var rest := FindMe(players[1..], name, tag);
      if rest.Some? then
        var k :| 0 <= k < |players[1..]| && players[1..][k] == rest.value &&
          forall j :: 0 <= j < k ==> !IsMe(players[1..][j], name, tag);
        assert players[k + 1] == rest.value;
        assert forall j :: 0 <= j < k + 1 ==> !IsMe(players[j], name, tag) by {
          forall j | 0 <= j < k + 1 ensures !IsMe(players[j], name, tag) {
            if j > 0 { assert players[j] == players[1..][j - 1]; }
          }
        }
        rest
      else
        assert forall p :: p in players ==> p == players[0] || p in players[1..];
        rest
  }

  /** The `team_id` of the first team marked as having won, if any. */
  function WinningTeam(teams: seq<Team>): Option<string>
  {
    if teams == [] then None
    else if teams[0].won then Some(teams[0].teamId)
    else WinningTeam(teams[1..])
  }

  /** Whether `me`'s team is the winning team of the match. */
  predicate Won(m: Match, me: Player)
  {
    var w := WinningTeam(m.teams);
    w.Some? && w.value != "" && Lower(w.value) == Lower(me.teamId)
  }

  /** The running totals of the match loop. */
  datatype Totals = Totals(kills: int, deaths: int, headshots: int, shots: int, wins: nat, agents: seq<string>)

  /** One iteration of the match loop. */
  function Step(t: Totals, m: Match, name: string, tag: string): Totals
  {
    match FindMe(m.players, name, tag)
    case None => t
    case Some(me) =>
      Totals(t.kills + me.stats.kills, t.deaths + me.stats.deaths, t.headshots + me.stats.headshots,
             t.shots + me.stats.headshots + me.stats.bodyshots + me.stats.legshots,
             t.wins + (if Won(m, me) then 1 else 0), t.agents + [me.agent])
  }

  /** The totals after looping over `ms`. */
  function Tally(ms: seq<Match>, name: string, tag: string): Totals
  {
    if ms == [] then Totals(0, 0, 0, 0, 0, [])
    else Step(Tally(ms[..|ms| - 1], name, tag), ms[|ms| - 1], name, tag)
  }

  /** The number of matches in which the player was found. */
  function Played(ms: seq<Match>, name: string, tag: string): nat
  {
    if ms == [] then 0
    else Played(ms[..|ms| - 1], name, tag) + (if FindMe(ms[|ms| - 1].players, name, tag).Some? then 1 else 0)
  }

  /** Each found match adds one agent and at most one win; the others are skipped. */
  lemma {:induction false} TallyCounts(ms: seq<Match>, name: string, tag: string)
    ensures |Tally(ms, name, tag).agents| == Played(ms, name, tag)
    ensures Tally(ms, name, tag).wins <= Played(ms, name, tag) <= |ms|
  {
    if ms != [] {
      TallyCounts(ms[..|ms| - 1], name, tag);
    }
  }

  /** How often `x` occurs in `s`. */
  function Count(s: seq<string>, x: string): nat
  {
    if s == [] then 0 else (if s[0] == x then 1 else 0) + Count(s[1..], x)
  }

  lemma {:induction false} CountPositive(s: seq<string>, i: nat)
    requires i < |s|
    ensures Count(s, s[i]) > 0
  {
    if i > 0 {
      CountPositive(s[1..], i - 1);
    }
  }

  /** The index of the first occurrence of `x` in `s`. */
  function FirstIndex(s: seq<string>, x: string): (i: nat)
    requires x in s
    ensures i < |s| && s[i] == x && forall j :: 0 <= j < i ==> s[j] != x
  {
    if s[0] == x then 0 else 1 + FirstIndex(s[1..], x)
  }

  /** The leader among `s[..k]`: a later element replaces it only with a strictly higher count. */
  function LeaderUpTo(s: seq<string>, k: nat): string
    requires 0 < k <= |s|
  {
    if k == 1 then s[0]
    else
      var best := LeaderUpTo(s, k - 1);
      if Count(s, s[k - 1]) > Count(s, best) then s[k - 1] else best
  }

  /** `Counter(agents).most_common(1)[0][0]`. */
  function MostCommon(s: seq<string>): string
    requires s != []
  {
    LeaderUpTo(s, |s|)
  }

  lemma {:induction false} LeaderUpToIsFirstMaximum(s: seq<string>, k: nat)
    requires 0 < k <= |s|
    ensures exists i :: 0 <= i < k && s[i] == LeaderUpTo(s, k)
    ensures forall j :: 0 <= j < k ==> Count(s, s[j]) <= Count(s, LeaderUpTo(s, k))
    ensures forall j :: 0 <= j < FirstIndex(s, LeaderUpTo(s, k)) ==> Count(s, s[j]) < Count(s, LeaderUpTo(s, k))
  {
    if k > 1 {
      LeaderUpToIsFirstMaximum(s, k - 1);
      var best := LeaderUpTo(s, k - 1);
      if Count(s, s[k - 1]) > Count(s, best) {
        assert LeaderUpTo(s, k) == s[k - 1];
      }
    } else {
      assert s[0] == LeaderUpTo(s, k);
    }
  }

  /**
   * The main agent occurs most often, and no agent that occurs first in the
   * list occurs as often: ties go to the agent seen first.
   */
  lemma MostCommonIsFirstMaximum(s: seq<string>)
    requires s != []
    ensures MostCommon(s) in s
    ensures forall x :: x in s ==> Count(s, x) <= Count(s, MostCommon(s))
    ensures forall j :: 0 <= j < FirstIndex(s, MostCommon(s)) ==> Count(s, s[j]) < Count(s, MostCommon(s))
  {
    LeaderUpToIsFirstMaximum(s, |s|);
    forall x | x in s
      ensures Count(s, x) <= Count(s, MostCommon(s))
    {
      var j :| 0 <= j < |s| && s[j] == x;
    }
  }

  /** `f"{name}#{tag}"`. */
  function Ign(name: string, tag: string): string
  {
    name + "#" + tag
  }

  /** `f"{wins}W/{n - wins}L last {n}"`. */
  function Performance(wins: int, n: int): string
  {
    IntToString(wins) + "W/" + IntToString(n - wins) + "L last " + IntToString(n)
  }

  /** The float a ratio field holds, or the numerator when there is nothing to divide by. */
  predicate Defined(v: Value)
  {
    v.VFrac? ==> v.den != 0
  }

  /** What `get_roast_data(name, tag, region)` returns for the two upstream replies. */
  function RoastData(name: string, tag: string, mmr: MmrReply, matches: MatchesReply): Dict
  {
    if mmr.status != 200 then []
    else
      var rank := if mmr.current.Some? then mmr.current.value.tierName else VStr("Unranked");
      var elo := if mmr.current.Some? then mmr.current.value.elo else VInt(0);
      if matches.status != 200 then
        [("type", VStr("valorant")), ("ign", VStr(Ign(name, tag))), ("rank", rank), ("elo", elo)]
      else
        var ms := Take(matches.data, MatchWindow);
        var t := Tally(ms, name, tag);
        [("type", VStr("valorant")), ("ign", VStr(Ign(name, tag))), ("rank", rank), ("elo", elo),
         ("k_d_ratio", KillDeath(t)),
         ("main_agent", VStr(if t.agents != [] then MostCommon(t.agents) else "Unknown")),
         ("recent_matches", VStr(Performance(t.wins, |ms|))),
         ("headshot_rate", HeadshotRate(t))]
  }

  /** `total_kills / total_deaths`, or `total_kills` when there were no deaths. */
  function KillDeath(t: Totals): (v: Value)
    ensures Defined(v)
    ensures t.deaths != 0 ==> v == VFrac(t.kills, t.deaths)
    ensures t.deaths == 0 ==> v == VInt(t.kills)
  {
    if t.deaths != 0 then VFrac(t.kills, t.deaths) else VInt(t.kills)
  }

  /** `total_headshots / total_shots * 100`, or 0 when no shot was counted. */
  function HeadshotRate(t: Totals): (v: Value)
    ensures Defined(v)
    ensures t.shots != 0 ==> v == VFrac(t.headshots * 100, t.shots)
    ensures t.shots == 0 ==> v == VInt(0)
  {
    if t.shots != 0 then VFrac(t.headshots * 100, t.shots) else VInt(0)
  }

  /**
   * A failed rank lookup gives `{}`; otherwise the fragment is typed "valorant",
   * carries `name#tag`, and takes rank and elo from `current` when present and
   * defaults them to "Unranked" and 0.
   */
  lemma RoastDataShape(name: string, tag: string, mmr: MmrReply, matches: MatchesReply)
    ensures RoastData(name, tag, mmr, matches) == [] <==> mmr.status != 200
    ensures mmr.status == 200 ==>
      var r := RoastData(name, tag, mmr, matches);
      && Get(r, "type") == VStr("valorant") && Get(r, "ign") == VStr(Ign(name, tag))
      && (mmr.current.None? ==> Get(r, "rank") == VStr("Unranked") && Get(r, "elo") == VInt(0))
      && (mmr.current.Some? ==> Get(r, "rank") == mmr.current.value.tierName && Get(r, "elo") == mmr.current.value.elo)
  {
    if mmr.status == 200 {
      var r := RoastData(name, tag, mmr, matches);
      GetAt(r, 1, "ign");
      GetAt(r, 2, "rank");
      GetAt(r, 3, "elo");
    }
  }

  /**
   * After a good match reply, the main agent is the most common one, or
   * "Unknown" when the player was found in no match.
   */
  lemma MainAgentShape(name: string, tag: string, mmr: MmrReply, matches: MatchesReply)
    ensures mmr.status == 200 && matches.status == 200 ==>
      var agents := Tally(Take(matches.data, MatchWindow), name, tag).agents;
      && (agents == [] ==> Get(RoastData(name, tag, mmr, matches), "main_agent") == VStr("Unknown"))
      && (agents != [] ==> Get(RoastData(name, tag, mmr, matches), "main_agent") == VStr(MostCommon(agents)))
  {
    if mmr.status == 200 && matches.status == 200 {
      var r := RoastData(name, tag, mmr, matches);
      var t := Tally(Take(matches.data, MatchWindow), name, tag);
      assert r[5] == ("main_agent", VStr(if t.agents != [] then MostCommon(t.agents) else "Unknown"));
      GetAt(r, 5, "main_agent");
    }
  }

  /** A failed match lookup gives exactly the four keys type, ign, rank and elo. */
  lemma MatchFailureKeys(name: string, tag: string, mmr: MmrReply, matches: MatchesReply)
    requires mmr.status == 200 && matches.status != 200
    ensures Keys(RoastData(name, tag, mmr, matches)) == ["type", "ign", "rank", "elo"]
  {
  }

  /** Both ratios are always defined: a zero divisor never reaches the fragment. */
  lemma RatiosGuarded(name: string, tag: string, mmr: MmrReply, matches: MatchesReply)
    requires mmr.status == 200 && matches.status == 200
    ensures var r := RoastData(name, tag, mmr, matches);
      Defined(Get(r, "k_d_ratio")) && Defined(Get(r, "headshot_rate"))
  {
    var r := RoastData(name, tag, mmr, matches);
    var t := Tally(Take(matches.data, MatchWindow), name, tag);
    assert r[4] == ("k_d_ratio", KillDeath(t)) && r[7] == ("headshot_rate", HeadshotRate(t));
    GetAt(r, 4, "k_d_ratio");
    GetAt(r, 7, "headshot_rate");
  }

  /** The loss count in the performance line is never negative: wins never exceed the five matches. */
  lemma WinsBounded(name: string, tag: string, matches: MatchesReply)
    ensures var ms := Take(matches.data, MatchWindow);
      Tally(ms, name, tag).wins <= |ms| <= MatchWindow
  {
    TallyCounts(Take(matches.data, MatchWindow), name, tag);
  }

  /** Matches after the fifth never change the fragment. */
  lemma OnlyFirstFive(name: string, tag: string, mmr: MmrReply, data: seq<Match>, extra: seq<Match>)
    requires |data| == MatchWindow
    ensures RoastData(name, tag, mmr, MatchesReply(200, data + extra))
         == RoastData(name, tag, mmr, MatchesReply(200, data))
  {
    assert Take(data + extra, MatchWindow) == data;
  }

  /** `ValorantService.get_roast_data`: the match loop accumulates the totals step by step. */
  method GetRoastData(name: string, tag: string, mmr: MmrReply, matches: MatchesReply) returns (r: Dict)
    ensures r == RoastData(name, tag, mmr, matches)
  {
    var rank := VStr("Unranked");
    var elo := VInt(0);
    if mmr.status == 200 {
      if mmr.current.Some? {
        rank := mmr.current.value.tierName;
        elo := mmr.current.value.elo;
      }
    } else {
      return [];
    }
    if matches.status != 200 {
      return [("type", VStr("valorant")), ("ign", VStr(Ign(name, tag))), ("rank", rank), ("elo", elo)];
    }
    var ms := Take(matches.data, MatchWindow);
    var totalKills, totalDeaths, totalHeadshots, totalShots := 0, 0, 0, 0;
    var agents: seq<string> := [];
    var wins: nat := 0;
    var i := 0;
    while i < |ms|
      invariant 0 <= i <= |ms|
      invariant Tally(ms[..i], name, tag) == Totals(totalKills, totalDeaths, totalHeadshots, totalShots, wins, agents)
    {
      assert ms[..i + 1][..i] == ms[..i];
      var m := ms[i];
      var me := FindMe(m.players, name, tag);
      if me.Some? {
        var p := me.value;
        totalKills := totalKills + p.stats.kills;
        totalDeaths := totalDeaths + p.stats.deaths;
        totalHeadshots := totalHeadshots + p.stats.headshots;
        totalShots := totalShots + p.stats.headshots + p.stats.bodyshots + p.stats.legshots;
        agents := agents + [p.agent];
        var winTeam := WinningTeam(m.teams);
        if winTeam.Some? && winTeam.value != "" && Lower(winTeam.value) == Lower(p.teamId) {
          wins := wins + 1;
        }
      }
      i := i + 1;
    }
    assert ms[..i] == ms;
    var t := Totals(totalKills, totalDeaths, totalHeadshots, totalShots, wins, agents);
    var mainAgent := if agents != [] then MostCommon(agents) else "Unknown";
    r := [("type", VStr("valorant")), ("ign", VStr(Ign(name, tag))), ("rank", rank), ("elo", elo),
          ("k_d_ratio", KillDeath(t)), ("main_agent", VStr(mainAgent)),
          ("recent_matches", VStr(Performance(wins, |ms|))), ("headshot_rate", HeadshotRate(t))];
  }
}
