/**
 * The request-handling logic of app/routes/api_routes.py: the per-client rate
 * limit, which adapters are consulted and what stands in for a failed one, the
 * session's list of own roasts, and the per-user "recently viewed" rows.
 *
 * Time is an integer number of microseconds (the resolution of `datetime`).
 * The adapters' and the generator's outcomes, the clock and the new roast id are
 * parameters.
 */
module ApiRoutes {
  import opened Json
  import opened Text
  import opened Wrappers
  import opened Seqs
  import opened UserData

  // ---------------------------------------------------------------- rate limit

  const MicrosPerSecond := 1_000_000

  /** Five minutes, the cooldown between two accepted requests of one client. */
  const Cooldown := 300 * MicrosPerSecond

  /** `int(elapsed.total_seconds())`: whole seconds, truncated toward zero. */
  function TruncSeconds(micros: int): (s: int)
    ensures micros >= 0 ==> 0 <= s * MicrosPerSecond <= micros < (s + 1) * MicrosPerSecond
    ensures micros < 0 ==> (s - 1) * MicrosPerSecond < micros <= s * MicrosPerSecond <= 0
  {
    if micros >= 0 then micros / MicrosPerSecond else -((-micros) / MicrosPerSecond)
  }

  /** `300 - int(elapsed.total_seconds())`: the seconds a rejected client is told to wait. */
  function WaitSeconds(elapsed: int): (w: int)
    ensures 0 <= elapsed < Cooldown ==> 1 <= w <= 300
    ensures 0 <= elapsed ==> w * MicrosPerSecond <= Cooldown - elapsed + MicrosPerSecond - 1
    ensures elapsed < 0 ==> w >= 300
  {
    300 - TruncSeconds(elapsed)
  }

  /**
   * The rate-limit decision: `Some(wait)` rejects the request, `None` lets it
   * through. A client is rejected exactly when it has an entry younger than the
   * cooldown.
   */
  function RateLimitWait(store: map<string, int>, client: string, now: int): (w: Option<int>)
    ensures w.Some? <==> client in store && now - store[client] < Cooldown
    ensures w.Some? && store[client] <= now ==> 1 <= w.value <= 300
  {
    if client in store && now - store[client] < Cooldown then Some(WaitSeconds(now - store[client]))
    else None
  }

  /** An accepted request makes the same client wait out the cooldown, and only that client. */
  lemma {:induction false} AcceptedStartsCooldown(store: map<string, int>, client: string, now: int,
                                                  other: string, later: int)
    requires now <= later
    ensures RateLimitWait(store[client := now], client, later).Some? <==> later - now < Cooldown
    ensures RateLimitWait(store[client := now], client, later).Some? ==>
      RateLimitWait(store[client := now], client, later).value == 300 - (later - now) / MicrosPerSecond
    ensures other != client ==> RateLimitWait(store[client := now], other, later) == RateLimitWait(store, other, later)
  {
    var s := store[client := now];
    assert client in s && s[client] == now;
    if later - now < Cooldown {
      assert TruncSeconds(later - now) == (later - now) / MicrosPerSecond;
    }
    if other != client {
      assert (other in s) == (other in store);
      if other in store {
        assert s[other] == store[other];
      }
    }
  }

  /** The module-level `rate_limit_store`: client address to time of its last accepted request. */
  class RateLimiter {
    var store: map<string, int>

    constructor ()
      ensures store == map[]
    {
      store := map[];
    }

    /** The check at the top of `generate_roast`; a rejection leaves the store alone. */
    method Admit(client: string, now: int) returns (wait: Option<int>)
      modifies this
      ensures wait == RateLimitWait(old(store), client, now)
      ensures wait.Some? ==> store == old(store)
      ensures wait.None? ==> store == old(store)[client := now]
    {
      if client in store {
        var elapsed := now - store[client];
        if elapsed < Cooldown {
          return Some(WaitSeconds(elapsed));
        }
      }
      store := store[client := now];
      return None;
    }
  }

  // ------------------------------------------------------- fragment selection

  /** The form or JSON fields of a roast request (missing ones are `VNone`). */
  datatype RoastRequest = RoastRequest(valorantName: Value, valorantTag: Value, valorantRegion: Value,
                                       anilistUser: Value, steamId: Value, steamVanity: Value)

  /** `user_inputs`, with the region defaulted to "na", plus `spotify_name`. */
  function UserInputs(req: RoastRequest, spotifyName: Value): (d: Dict)
    ensures Keys(d) == ["valorant_name", "valorant_tag", "valorant_region", "anilist_user",
                        "steam_id", "steam_vanity", "spotify_name"]
    ensures Truthy(d[2].1) && (Truthy(req.valorantRegion) ==> d[2].1 == req.valorantRegion)
    ensures !Truthy(req.valorantRegion) ==> d[2].1 == VStr("na")
    ensures d[0].1 == req.valorantName && d[1].1 == req.valorantTag && d[3].1 == req.anilistUser
    ensures d[4].1 == req.steamId && d[5].1 == req.steamVanity && d[6].1 == spotifyName
  {
    [("valorant_name", req.valorantName), ("valorant_tag", req.valorantTag),
     ("valorant_region", Or(req.valorantRegion, VStr("na"))), ("anilist_user", req.anilistUser),
     ("steam_id", req.steamId), ("steam_vanity", req.steamVanity), ("spotify_name", spotifyName)]
  }

  /** Only with a ready Spotify service is its profile fetched. */
  function SpotifyFragment(ready: bool, fetched: Dict): (d: Dict)
    ensures !ready ==> d == []
    ensures ready ==> d == fetched
  {
    if ready then fetched else []
  }

  /**
   * The Valorant fragment: `{}` unless both name and tag are given; the
   * adapter's result when it has one; otherwise a placeholder carrying the handle.
   */
  function ValorantFragment(name: Value, tag: Value, fetched: Dict): (d: Dict)
    ensures d == [] <==> !(Truthy(name) && Truthy(tag))
    ensures Truthy(name) && Truthy(tag) && fetched != [] ==> d == fetched
    ensures Truthy(name) && Truthy(tag) && fetched == [] ==>
      && Keys(d) == ["type", "ign", "notes"]
      && Get(d, "type") == VStr("valorant") && Get(d, "ign") == VStr(Show(name) + "#" + Show(tag))
  {
    if !(Truthy(name) && Truthy(tag)) then []
    else if fetched != [] then fetched
    else
      var d := [("type", VStr("valorant")), ("ign", VStr(Show(name) + "#" + Show(tag))),
                ("notes", VStr("Valorant API unavailable; rely on handle only."))];
      GetAt(d, 0, "type");
      GetAt(d, 1, "ign");
      d
  }

  /** The AniList fragment: `{}` without a user name, else the adapter's result or a placeholder. */
  function AnimeFragment(user: Value, fetched: Dict): (d: Dict)
    ensures d == [] <==> !Truthy(user)
    ensures Truthy(user) && fetched != [] ==> d == fetched
    ensures Truthy(user) && fetched == [] ==>
      && Keys(d) == ["type", "username", "notes"]
      && Get(d, "type") == VStr("anime") && Get(d, "username") == user
  {
    if !Truthy(user) then []
    else if fetched != [] then fetched
    else
      var d := [("type", VStr("anime")), ("username", user),
                ("notes", VStr("AniList data unavailable at generation time."))];
      GetAt(d, 0, "type");
      GetAt(d, 1, "username");
      d
  }

  /** The Steam fragment: `{}` without id or vanity name, else the adapter's result or a placeholder. */
  function SteamFragment(id: Value, vanity: Value, fetched: Dict): (d: Dict)
    ensures d == [] <==> !(Truthy(id) || Truthy(vanity))
    ensures (Truthy(id) || Truthy(vanity)) && fetched != [] ==> d == fetched
    ensures (Truthy(id) || Truthy(vanity)) && fetched == [] ==>
      && Keys(d) == ["type", "steam_id", "notes"]
      && Get(d, "type") == VStr("steam") && Get(d, "steam_id") == (if Truthy(id) then id else vanity)
  {
    if !(Truthy(id) || Truthy(vanity)) then []
    else if fetched != [] then fetched
    else
      var d := [("type", VStr("steam")), ("steam_id", Or(id, vanity)),
                ("notes", VStr("Steam stats unavailable; id provided only."))];
      GetAt(d, 0, "type");
      GetAt(d, 1, "steam_id");
      d
  }

  /** What the adapters and the Spotify service returned for one request. */
  datatype Fetched = Fetched(spotifyReady: bool, spotify: Dict, valorant: Dict, anime: Dict, steam: Dict)

  /** The `CombinedUserData` that `generate_roast` builds. */
  function RequestData(req: RoastRequest, f: Fetched, sessionUserName: Value): CombinedUserData
  {
    var spotifyName := if f.spotifyReady then sessionUserName else VNone;
    Combine(Some(SpotifyFragment(f.spotifyReady, f.spotify)),
            Some(ValorantFragment(req.valorantName, req.valorantTag, f.valorant)),
            Some(AnimeFragment(req.anilistUser, f.anime)),
            Some(SteamFragment(req.steamId, req.steamVanity, f.steam)),
            Some(UserInputs(req, spotifyName)))
  }

  /**
   * A source is listed exactly when its identifier was given (for Spotify: when
   * the service is ready and returned a profile), whatever its adapter returned.
   */
  lemma SourcesFollowIdentifiers(req: RoastRequest, f: Fetched, sessionUserName: Value)
    ensures var c := RequestData(req, f, sessionUserName);
      && ("Spotify" in c.Sources() <==> f.spotifyReady && f.spotify != [])
      && ("Valorant" in c.Sources() <==> Truthy(req.valorantName) && Truthy(req.valorantTag))
      && ("AniList" in c.Sources() <==> Truthy(req.anilistUser))
      && ("Steam" in c.Sources() <==> Truthy(req.steamId) || Truthy(req.steamVanity))
  {
    var c := RequestData(req, f, sessionUserName);
    SourcesExact(c, "Spotify");
    SourcesExact(c, "Valorant");
    SourcesExact(c, "AniList");
    SourcesExact(c, "Steam");
  }

  /** The stored roast text: the generated one, or the failure message. */
  function RoastText(generated: Result<string, string>): (text: string)
    ensures generated.Failure? ==> text == "Failed To Generate Roast: " + generated.error
    ensures generated.Success? ==> text == generated.value
  {
    match generated
    case Success(t) => t
    case Failure(e) => "Failed To Generate Roast: " + e
  }

  // ------------------------------------------------------------- own roasts

  /** How many ids the session keeps in `my_roast_ids`. */
  const MyRoastsLimit := 20

  /** `list.remove(x)` when `x` is present: drops its first occurrence only. */
  function RemoveFirst(ids: seq<string>, id: string): seq<string>
  {
    if ids == [] then []
    else if ids[0] == id then ids[1..]
    else [ids[0]] + RemoveFirst(ids[1..], id)
  }

  /** The position of the first occurrence of `id`. */
  function IndexOf(ids: seq<string>, id: string): (k: nat)
    requires id in ids
    ensures k < |ids| && ids[k] == id && id !in ids[..k]
  {
    if ids[0] == id then 0 else 1 + IndexOf(ids[1..], id)
  }

  /** Removing the first occurrence keeps everything else, in order. */
  lemma {:induction false} RemoveFirstSplits(ids: seq<string>, id: string)
    ensures id !in ids ==> RemoveFirst(ids, id) == ids
    ensures id in ids ==> RemoveFirst(ids, id) == ids[..IndexOf(ids, id)] + ids[IndexOf(ids, id) + 1..]
  {
    if ids != [] && ids[0] != id {
      RemoveFirstSplits(ids[1..], id);
      if id in ids {
        assert id in ids[1..];
        var k := IndexOf(ids[1..], id);
        assert ids[..k + 1] == [ids[0]] + ids[1..][..k];
      } else {
        assert ids == [ids[0]] + ids[1..];
      }
    }
  }

  predicate NoDuplicates(ids: seq<string>)
  {
    forall i, j :: 0 <= i < j < |ids| ==> ids[i] != ids[j]
  }

  /** The `my_roast_ids` update: move or add `id` to the front, keep at most 20. */
  function PushRecent(ids: seq<string>, id: string): seq<string>
  {
    Take([id] + RemoveFirst(ids, id), MyRoastsLimit)
  }

  /** Dropping one position of a list without duplicates leaves no duplicates and no copy of the dropped element. */
  lemma DropAtNoDuplicates(ids: seq<string>, k: nat)
    requires NoDuplicates(ids) && k < |ids|
    ensures NoDuplicates(ids[..k] + ids[k + 1..]) && ids[k] !in ids[..k] + ids[k + 1..]
  {
    var rest := ids[..k] + ids[k + 1..];
    assert forall i :: 0 <= i < |rest| ==> rest[i] == if i < k then ids[i] else ids[i + 1];
  }

  /** Removing the first occurrence from a list without duplicates removes every occurrence. */
  lemma RemoveFirstNoDuplicates(ids: seq<string>, id: string)
    requires NoDuplicates(ids)
    ensures NoDuplicates(RemoveFirst(ids, id)) && id !in RemoveFirst(ids, id)
  {
    RemoveFirstSplits(ids, id);
    if id in ids {
      DropAtNoDuplicates(ids, IndexOf(ids, id));
    }
  }

  /**
   * After the update the new id is first, the others keep their relative order,
   * there are at most 20, and a list without duplicates stays without them, so
   * the new id is in it once.
   */
  lemma PushRecentCorrect(ids: seq<string>, id: string)
    ensures var r := PushRecent(ids, id);
      && |r| >= 1 && r[0] == id && |r| <= MyRoastsLimit
      && r[1..] == Take(RemoveFirst(ids, id), MyRoastsLimit - 1)
      && (NoDuplicates(ids) ==> NoDuplicates(r) && id !in r[1..])
  {
    var r := PushRecent(ids, id);
    var rest := RemoveFirst(ids, id);
    assert r[1..] == Take(rest, MyRoastsLimit - 1);
    if NoDuplicates(ids) {
      RemoveFirstNoDuplicates(ids, id);
      forall i, j | 0 <= i < j < |r| ensures r[i] != r[j] {
        assert r[j] == rest[j - 1];
        if i > 0 {
          assert r[i] == rest[i - 1];
        }
      }
    }
  }

  // ------------------------------------------------------- recently viewed

  /** A row of `roasts`; `to_dict` and the owner relationship are not modelled. */
  datatype Roast = Roast(id: string, userId: Option<int>, text: string, sources: seq<string>,
                         raw: Dict, inputs: Dict, createdAt: int, isPublic: bool)

  /** A row of `recent_roasts`: a user viewed a roast at a time. */
  datatype RecentView = RecentView(userId: int, roastId: string, viewedAt: int)

  /** How many recently viewed rows a user keeps. */
  const RecentLimit := 20

  /** How many entries the history endpoint returns. */
  const HistoryLimit := 10

  function ViewedAt(v: RecentView): int
  {
    v.viewedAt
  }

  /** Whether two rows are for the same user and roast. */
  predicate SameView(a: RecentView, b: RecentView)
  {
    a.userId == b.userId && a.roastId == b.roastId
  }

  /** At most one row per user and roast. */
  predicate UniqueViews(rows: seq<RecentView>)
  {
    forall i, j :: 0 <= i < j < |rows| ==> !SameView(rows[i], rows[j])
  }

  /** `filter_by(user_id=u)`, in table order. */
  function OfUser(rows: seq<RecentView>, u: int): seq<RecentView>
  {
    if rows == [] then [] else (if rows[0].userId == u then [rows[0]] else []) + OfUser(rows[1..], u)
  }

  /** The rows of every other user, in table order. */
  function OfOthers(rows: seq<RecentView>, u: int): seq<RecentView>
  {
    if rows == [] then [] else (if rows[0].userId != u then [rows[0]] else []) + OfOthers(rows[1..], u)
  }

  /**
   * The first half of `track_recent_roast`: refresh the (u, r) row's time, or add
   * the row when there is none.
   */
  function Upsert(rows: seq<RecentView>, u: int, r: string, now: int): seq<RecentView>
  {
    if rows == [] then [RecentView(u, r, now)]
    else if rows[0].userId == u && rows[0].roastId == r then [RecentView(u, r, now)] + rows[1..]
    else [rows[0]] + Upsert(rows[1..], u, r, now)
  }

  /** `order_by(viewed_at.desc()).offset(20)` over the user's rows: the rows to delete. */
  function Stale(rows: seq<RecentView>, u: int): seq<RecentView>
  {
    var newest := SortDesc(OfUser(rows, u), ViewedAt);
    if |newest| <= RecentLimit then [] else newest[RecentLimit..]
  }

  /** `db.session.delete(x)`: the first row equal to `x` goes. */
  function RemoveRow(rows: seq<RecentView>, x: RecentView): seq<RecentView>
  {
    if rows == [] then []
    else if rows[0] == x then rows[1..]
    else [rows[0]] + RemoveRow(rows[1..], x)
  }

  /** Deleting each row of `xs` in turn. */
  function RemoveAll(rows: seq<RecentView>, xs: seq<RecentView>): seq<RecentView>
  {
    if xs == [] then rows else RemoveRow(RemoveAll(rows, xs[..|xs| - 1]), xs[|xs| - 1])
  }

  /** The table after `track_recent_roast(u, r)` at time `now`. */
  function Tracked(rows: seq<RecentView>, u: int, r: string, now: int): seq<RecentView>
  {
    var upserted := Upsert(rows, u, r, now);
    RemoveAll(upserted, Stale(upserted, u))
  }

  lemma {:induction false} OfUserMembers(rows: seq<RecentView>, u: int)
    ensures forall x :: x in OfUser(rows, u) <==> x in rows && x.userId == u
  {
    if rows != [] {
      OfUserMembers(rows[1..], u);
      assert rows == [rows[0]] + rows[1..];
    }
  }

  lemma {:induction false} OfUserAppend(a: seq<RecentView>, b: seq<RecentView>, u: int)
    ensures OfUser(a + b, u) == OfUser(a, u) + OfUser(b, u)
  {
    if a == [] {
      assert a + b == b;
    } else {
      var head := if a[0].userId == u then [a[0]] else [];
      var ra, rb := OfUser(a[1..], u), OfUser(b, u);
      assert OfUser(a + b, u) == head + OfUser(a[1..] + b, u) by {
        assert (a + b)[0] == a[0] && (a + b)[1..] == a[1..] + b;
      }
      assert OfUser(a[1..] + b, u) == ra + rb by {
        OfUserAppend(a[1..], b, u);
      }
      assert head + (ra + rb) == (head + ra) + rb;
    }
  }

  lemma {:induction false} OfOthersAppend(a: seq<RecentView>, b: seq<RecentView>, u: int)
    ensures OfOthers(a + b, u) == OfOthers(a, u) + OfOthers(b, u)
  {
    if a == [] {
      assert a + b == b;
    } else {
      var head := if a[0].userId != u then [a[0]] else [];
      var ra, rb := OfOthers(a[1..], u), OfOthers(b, u);
      assert OfOthers(a + b, u) == head + OfOthers(a[1..] + b, u) by {
        assert (a + b)[0] == a[0] && (a + b)[1..] == a[1..] + b;
      }
      assert OfOthers(a[1..] + b, u) == ra + rb by {
        OfOthersAppend(a[1..], b, u);
      }
      assert head + (ra + rb) == (head + ra) + rb;
    }
  }

  lemma SplitAppend(a: seq<RecentView>, b: seq<RecentView>, u: int)
    ensures OfUser(a + b, u) == OfUser(a, u) + OfUser(b, u)
    ensures OfOthers(a + b, u) == OfOthers(a, u) + OfOthers(b, u)
  {
    OfUserAppend(a, b, u);
    OfOthersAppend(a, b, u);
  }

  /** The upsert replaces the first (u, r) row, at `i`, or appends when there is none. */
  lemma {:induction false} UpsertAt(rows: seq<RecentView>, u: int, r: string, now: int, i: nat)
    requires i <= |rows|
    requires forall k :: 0 <= k < i ==> !(rows[k].userId == u && rows[k].roastId == r)
    requires i < |rows| ==> rows[i].userId == u && rows[i].roastId == r
    ensures Upsert(rows, u, r, now) ==
      if i < |rows| then rows[i := RecentView(u, r, now)] else rows + [RecentView(u, r, now)]
  {
    if i > 0 {
      UpsertAt(rows[1..], u, r, now, i - 1);
      assert rows == [rows[0]] + rows[1..];
    } else if rows != [] {
      assert rows == [rows[0]] + rows[1..];
    }
  }

  /** The upsert leaves the other users' rows as they were. */
  lemma {:induction false} UpsertKeepsOthers(rows: seq<RecentView>, u: int, r: string, now: int)
    ensures OfOthers(Upsert(rows, u, r, now), u) == OfOthers(rows, u)
  {
    var y := RecentView(u, r, now);
    assert OfOthers([y], u) == [] by {
      assert [y][1..] == [];
    }
    if rows != [] {
      var head, tail := rows[0], rows[1..];
      assert rows == [head] + tail;
      OfOthersAppend([head], tail, u);
      if head.userId == u && head.roastId == r {
        OfOthersAppend([y], tail, u);
        assert OfOthers([head], u) == [] by {
          assert [head][1..] == [];
        }
      } else {
        UpsertKeepsOthers(tail, u, r, now);
        OfOthersAppend([head], Upsert(tail, u, r, now), u);
      }
    }
  }

  /** After the upsert the fresh row is there, and every other row was there before. */
  lemma {:induction false} UpsertMembers(rows: seq<RecentView>, u: int, r: string, now: int)
    ensures RecentView(u, r, now) in Upsert(rows, u, r, now)
    ensures forall x :: x in Upsert(rows, u, r, now) ==> x == RecentView(u, r, now) || x in rows
  {
    if rows != [] && !(rows[0].userId == u && rows[0].roastId == r) {
      UpsertMembers(rows[1..], u, r, now);
      assert rows == [rows[0]] + rows[1..];
    }
  }

  /** The upsert keeps at most one row per user and roast. */
  lemma {:induction false} UpsertUnique(rows: seq<RecentView>, u: int, r: string, now: int)
    requires UniqueViews(rows)
    ensures UniqueViews(Upsert(rows, u, r, now))
  {
    var y := RecentView(u, r, now);
    if rows != [] {
      UniqueUncons(rows);
      if rows[0].userId == u && rows[0].roastId == r {
        forall z | z in rows[1..] ensures !SameView(y, z) {
          assert !SameView(rows[0], z);
        }
        UniqueCons(y, rows[1..]);
      } else {
        var rest := Upsert(rows[1..], u, r, now);
        UpsertUnique(rows[1..], u, r, now);
        UpsertMembers(rows[1..], u, r, now);
        forall z | z in rest ensures !SameView(rows[0], z) {
          if z != y {
            assert z in rows[1..];
          }
        }
        UniqueCons(rows[0], rest);
      }
    }
  }

  lemma {:induction false} RemoveRowMultiset(rows: seq<RecentView>, x: RecentView)
    ensures multiset(RemoveRow(rows, x)) == multiset(rows) - multiset{x}
  {
    if rows != [] {
      assert rows == [rows[0]] + rows[1..];
      if rows[0] != x {
        RemoveRowMultiset(rows[1..], x);
      }
    }
  }

  lemma {:induction false} RemoveRowSplits(rows: seq<RecentView>, x: RecentView)
    ensures OfOthers(RemoveRow(rows, x), x.userId) == OfOthers(rows, x.userId)
    ensures OfUser(RemoveRow(rows, x), x.userId) == RemoveRow(OfUser(rows, x.userId), x)
  {
    if rows != [] {
      var u := x.userId;
      var head, tail := rows[0], rows[1..];
      assert rows == [head] + tail;
      SplitAppend([head], tail, u);
      assert [head][1..] == [];
      if head == x {
        assert OfUser(rows, u) == [x] + OfUser(tail, u);
      } else {
        RemoveRowSplits(tail, x);
        var rest := RemoveRow(tail, x);
        assert RemoveRow(rows, x) == [head] + rest;
        SplitAppend([head], rest, u);
        if head.userId == u {
          assert OfUser(rows, u) == [head] + OfUser(tail, u);
          assert RemoveRow(OfUser(rows, u), x) == [head] + RemoveRow(OfUser(tail, u), x);
        } else {
          assert OfUser(rows, u) == OfUser(tail, u);
        }
      }
    }
  }

  lemma UniqueCons(a: RecentView, rest: seq<RecentView>)
    requires UniqueViews(rest) && forall y :: y in rest ==> !SameView(a, y)
    ensures UniqueViews([a] + rest)
  {
    var out := [a] + rest;
    forall i, j | 0 <= i < j < |out| ensures !SameView(out[i], out[j]) {
      assert out[j] == rest[j - 1];
      if i > 0 {
        assert out[i] == rest[i - 1];
      }
    }
  }

  lemma UniqueUncons(rows: seq<RecentView>)
    requires UniqueViews(rows) && rows != []
    ensures UniqueViews(rows[1..]) && forall y :: y in rows[1..] ==> !SameView(rows[0], y)
  {
    forall y | y in rows[1..] ensures !SameView(rows[0], y) {
      var k :| 0 <= k < |rows[1..]| && rows[1..][k] == y;
      assert rows[k + 1] == y;
    }
  }

  lemma {:induction false} RemoveRowUnique(rows: seq<RecentView>, x: RecentView)
    requires UniqueViews(rows)
    ensures UniqueViews(RemoveRow(rows, x))
  {
    if rows != [] {
      UniqueUncons(rows);
      if rows[0] != x {
        RemoveRowUnique(rows[1..], x);
        RemoveRowMultiset(rows[1..], x);
        var rest := RemoveRow(rows[1..], x);
        forall y | y in rest ensures !SameView(rows[0], y) {
          assert y in multiset(rest);
        }
        UniqueCons(rows[0], rest);
      }
    }
  }

  lemma {:induction false} RemoveAllSplits(rows: seq<RecentView>, xs: seq<RecentView>, u: int)
    requires forall x :: x in xs ==> x.userId == u
    ensures OfOthers(RemoveAll(rows, xs), u) == OfOthers(rows, u)
    ensures multiset(OfUser(RemoveAll(rows, xs), u)) == multiset(OfUser(rows, u)) - multiset(xs)
  {
    if xs != [] {
      var init, last := xs[..|xs| - 1], xs[|xs| - 1];
      assert xs == init + [last];
      RemoveAllSplits(rows, init, u);
      var mid := RemoveAll(rows, init);
      RemoveRowSplits(mid, last);
      RemoveRowMultiset(OfUser(mid, u), last);
    }
  }

  lemma {:induction false} RemoveAllSubset(rows: seq<RecentView>, xs: seq<RecentView>)
    ensures forall x :: x in RemoveAll(rows, xs) ==> x in rows
    ensures UniqueViews(rows) ==> UniqueViews(RemoveAll(rows, xs))
  {
    if xs != [] {
      var init, last := xs[..|xs| - 1], xs[|xs| - 1];
      RemoveAllSubset(rows, init);
      var mid := RemoveAll(rows, init);
      RemoveRowMultiset(mid, last);
      forall x | x in RemoveAll(rows, xs) ensures x in rows {
        assert x in multiset(RemoveRow(mid, last));
      }
      if UniqueViews(rows) {
        RemoveRowUnique(mid, last);
      }
    }
  }

  /** The pruning keeps other users' rows and, of this user's, the 20 newest. */
  lemma PruneKeepsNewest(rows: seq<RecentView>, u: int)
    ensures OfOthers(RemoveAll(rows, Stale(rows, u)), u) == OfOthers(rows, u)
    ensures multiset(OfUser(RemoveAll(rows, Stale(rows, u)), u))
         == multiset(Take(SortDesc(OfUser(rows, u), ViewedAt), RecentLimit))
    ensures UniqueViews(rows) ==> UniqueViews(RemoveAll(rows, Stale(rows, u)))
  {
    var newest := SortDesc(OfUser(rows, u), ViewedAt);
    SortDescCorrect(OfUser(rows, u), ViewedAt);
    var stale := Stale(rows, u);
    var kept := Take(newest, RecentLimit);
    assert newest == kept + stale;
    OfUserMembers(rows, u);
    forall x | x in stale ensures x.userId == u {
      assert x in multiset(newest);
    }
    RemoveAllSplits(rows, stale, u);
    RemoveAllSubset(rows, stale);
  }

  /** Rows with the same user and roast as the tracked one carry the new time. */
  predicate Refreshed(rows: seq<RecentView>, u: int, r: string, now: int)
  {
    forall x :: x in rows && x.userId == u && x.roastId == r ==> x.viewedAt == now
  }

  /** `track_recent_roast` leaves other users' rows as they were. */
  lemma TrackedKeepsOthers(rows: seq<RecentView>, u: int, r: string, now: int)
    ensures OfOthers(Tracked(rows, u, r, now), u) == OfOthers(rows, u)
  {
    UpsertKeepsOthers(rows, u, r, now);
    PruneKeepsNewest(Upsert(rows, u, r, now), u);
  }

  /** The user keeps at most 20 rows; with 20 or fewer after the upsert nothing is deleted. */
  lemma TrackedBounded(rows: seq<RecentView>, u: int, r: string, now: int)
    ensures |OfUser(Tracked(rows, u, r, now), u)| <= RecentLimit
    ensures |OfUser(Upsert(rows, u, r, now), u)| <= RecentLimit ==>
      Tracked(rows, u, r, now) == Upsert(rows, u, r, now)
  {
    var up := Upsert(rows, u, r, now);
    var t := Tracked(rows, u, r, now);
    PruneKeepsNewest(up, u);
    var newest := SortDesc(OfUser(up, u), ViewedAt);
    var kept := Take(newest, RecentLimit);
    assert |OfUser(t, u)| == |multiset(OfUser(t, u))| == |multiset(kept)| == |kept|;
    if |OfUser(up, u)| <= RecentLimit {
      SortDescCorrect(OfUser(up, u), ViewedAt);
      assert |newest| == |multiset(newest)| == |OfUser(up, u)|;
      assert Stale(up, u) == [];
      assert t == RemoveAll(up, []);
    }
  }

  /**
   * The rows the user keeps are the newest: every row of theirs that was deleted
   * is no newer than any row kept.
   */
  lemma TrackedKeepsNewest(rows: seq<RecentView>, u: int, r: string, now: int)
    ensures forall x :: x in Tracked(rows, u, r, now) ==> x in Upsert(rows, u, r, now)
    ensures forall x, y ::
      (x in OfUser(Tracked(rows, u, r, now), u) && y in OfUser(Upsert(rows, u, r, now), u) &&
       y !in Tracked(rows, u, r, now)) ==> y.viewedAt <= x.viewedAt
  {
    var up := Upsert(rows, u, r, now);
    PruneKeepsNewest(up, u);
    RemoveAllSubset(up, Stale(up, u));
    KeptNewest(up, Tracked(rows, u, r, now), u);
  }

  lemma KeptNewest(up: seq<RecentView>, t: seq<RecentView>, u: int)
    requires multiset(OfUser(t, u)) == multiset(Take(SortDesc(OfUser(up, u), ViewedAt), RecentLimit))
    ensures forall x, y :: x in OfUser(t, u) && y in OfUser(up, u) && y !in t ==> y.viewedAt <= x.viewedAt
  {
    var kept := OfUser(t, u);
    KeptAreLargest(OfUser(up, u), ViewedAt, RecentLimit, kept);
    forall x, y | x in kept && y in OfUser(up, u) && y !in t ensures y.viewedAt <= x.viewedAt {
      assert y !in kept by {
        OfUserMembers(t, u);
      }
      assert ViewedAt(y) <= ViewedAt(x);
    }
  }

  /** Whether every row of `u` was viewed before `now`: the clock moved on since their last view. */
  predicate AllBefore(rows: seq<RecentView>, u: int, now: int)
  {
    forall x :: x in rows && x.userId == u ==> x.viewedAt < now
  }

  /** The user keeps at least one row: the upsert gives them one and the pruning keeps up to 20. */
  lemma TrackedKeepsSome(rows: seq<RecentView>, u: int, r: string, now: int)
    ensures |OfUser(Tracked(rows, u, r, now), u)| >= 1
  {
    var up := Upsert(rows, u, r, now);
    var t := Tracked(rows, u, r, now);
    assert |OfUser(up, u)| >= 1 by {
      UpsertMembers(rows, u, r, now);
      OfUserMembers(up, u);
      assert RecentView(u, r, now) in OfUser(up, u);
    }
    PruneKeepsNewest(up, u);
    SortDescCorrect(OfUser(up, u), ViewedAt);
    var newest := SortDesc(OfUser(up, u), ViewedAt);
    assert |newest| == |multiset(newest)| == |OfUser(up, u)|;
    assert |OfUser(t, u)| == |multiset(OfUser(t, u))|;
  }

  /** When the clock moved on, the row just viewed is the user's newest, so the pruning keeps it. */
  lemma TrackedKeepsViewed(rows: seq<RecentView>, u: int, r: string, now: int)
    requires AllBefore(rows, u, now)
    ensures RecentView(u, r, now) in Tracked(rows, u, r, now)
  {
    var up := Upsert(rows, u, r, now);
    var t := Tracked(rows, u, r, now);
    var y := RecentView(u, r, now);
    if y !in t {
      TrackedKeepsSome(rows, u, r, now);
      var x := OfUser(t, u)[0];
      assert x in t && x.userId == u by {
        OfUserMembers(t, u);
      }
      assert y.viewedAt <= x.viewedAt && x in up by {
        assert y in OfUser(up, u) by {
          UpsertMembers(rows, u, r, now);
          OfUserMembers(up, u);
        }
        TrackedKeepsNewest(rows, u, r, now);
      }
      UpsertMembers(rows, u, r, now);
      assert false;
    }
  }

  /**
   * With at most one row per user and roast before, the same holds after, and that row is fresh;
   * when the clock moved on since the user's last view, the row is there.
   */
  lemma TrackedRefreshes(rows: seq<RecentView>, u: int, r: string, now: int)
    requires UniqueViews(rows)
    ensures UniqueViews(Tracked(rows, u, r, now))
    ensures Refreshed(Tracked(rows, u, r, now), u, r, now)
    ensures AllBefore(rows, u, now) ==> RecentView(u, r, now) in Tracked(rows, u, r, now)
  {
    if AllBefore(rows, u, now) {
      TrackedKeepsViewed(rows, u, r, now);
    }
    var up := Upsert(rows, u, r, now);
    var t := Tracked(rows, u, r, now);
    UpsertMembers(rows, u, r, now);
    UpsertUnique(rows, u, r, now);
    RemoveAllSubset(up, Stale(up, u));
    forall x | x in t && x.userId == u && x.roastId == r ensures x.viewedAt == now {
      var y := RecentView(u, r, now);
      var i :| 0 <= i < |up| && up[i] == x;
      var j :| 0 <= j < |up| && up[j] == y;
      assert i == j;
    }
  }

  /** `[by_id[i] for i in ids if i in by_id]`: the known roasts, in the order of `ids`. */
  function Lookup(ids: seq<string>, roasts: map<string, Roast>): seq<Roast>
  {
    if ids == [] then []
    else (if ids[0] in roasts then [roasts[ids[0]]] else []) + Lookup(ids[1..], roasts)
  }

  lemma {:induction false} LookupAppend(a: seq<string>, b: seq<string>, roasts: map<string, Roast>)
    ensures Lookup(a + b, roasts) == Lookup(a, roasts) + Lookup(b, roasts)
  {
    if a == [] {
      assert a + b == b;
    } else {
      var head := if a[0] in roasts then [roasts[a[0]]] else [];
      var ra, rb := Lookup(a[1..], roasts), Lookup(b, roasts);
      assert Lookup(a + b, roasts) == head + Lookup(a[1..] + b, roasts) by {
        assert (a + b)[0] == a[0] && (a + b)[1..] == a[1..] + b;
      }
      assert Lookup(a[1..] + b, roasts) == ra + rb by {
        LookupAppend(a[1..], b, roasts);
      }
      assert head + (ra + rb) == (head + ra) + rb;
    }
  }

  /**
   * The lookup goes id by id, in order: a single id gives its roast or nothing, and any split
   * of the ids splits the result the same way.
   */
  lemma LookupInOrder(ids: seq<string>, roasts: map<string, Roast>)
    ensures forall i :: Lookup([i], roasts) == if i in roasts then [roasts[i]] else []
    ensures forall k :: 0 <= k <= |ids| ==>
      Lookup(ids, roasts) == Lookup(ids[..k], roasts) + Lookup(ids[k..], roasts)
  {
    forall i ensures Lookup([i], roasts) == if i in roasts then [roasts[i]] else [] {
      assert [i][1..] == [];
    }
    forall k | 0 <= k <= |ids|
      ensures Lookup(ids, roasts) == Lookup(ids[..k], roasts) + Lookup(ids[k..], roasts)
    {
      assert ids[..k] + ids[k..] == ids;
      LookupAppend(ids[..k], ids[k..], roasts);
    }
  }

  /**
   * The lookup keeps exactly the known ids' roasts: it holds no more entries than ids, its
   * members are the known ids' roasts, and it is the plain mapping when every id is known.
   */
  lemma {:induction false} LookupCorrect(ids: seq<string>, roasts: map<string, Roast>)
    ensures |Lookup(ids, roasts)| <= |ids|
    ensures forall x :: x in Lookup(ids, roasts) <==> exists i :: i in ids && i in roasts && roasts[i] == x
    ensures (forall i :: i in ids ==> i in roasts) ==>
      |Lookup(ids, roasts)| == |ids| && forall k :: 0 <= k < |ids| ==> Lookup(ids, roasts)[k] == roasts[ids[k]]
  {
    if ids != [] {
      LookupCorrect(ids[1..], roasts);
      assert ids == [ids[0]] + ids[1..];
      var rest := Lookup(ids[1..], roasts);
      forall x ensures x in Lookup(ids, roasts) <==> exists i :: i in ids && i in roasts && roasts[i] == x {
        if x in rest {
          var i :| i in ids[1..] && i in roasts && roasts[i] == x;
          assert i in ids;
        }
        if exists i :: i in ids && i in roasts && roasts[i] == x {
          var i :| i in ids && i in roasts && roasts[i] == x;
          if i != ids[0] {
            assert i in ids[1..];
          }
        }
      }
    }
  }

  /** `get_my_roasts`: the session's own roasts that still exist, in session-list order. */
  function MyRoasts(ids: seq<string>, roasts: map<string, Roast>): (r: seq<Roast>)
    ensures r == Lookup(ids, roasts)
  {
    if ids == [] then [] else Lookup(ids, roasts)
  }

  /** `if user_id:`: a session user id counts only when present and non-zero. */
  predicate SignedIn(userId: Option<int>)
  {
    userId.Some? && userId.value != 0
  }

  /** The user's ten most recently viewed rows, newest first. */
  function HistoryEntries(rows: seq<RecentView>, u: int): seq<RecentView>
  {
    Take(SortDesc(OfUser(rows, u), ViewedAt), HistoryLimit)
  }

  function RoastIds(entries: seq<RecentView>): (ids: seq<string>)
    ensures |ids| == |entries| && forall i :: 0 <= i < |entries| ==> ids[i] == entries[i].roastId
  {
    seq(|entries|, i requires 0 <= i < |entries| => entries[i].roastId)
  }

  /** `get_history`: the roasts behind the newest ten rows, skipping rows whose roast is gone. */
  function History(rows: seq<RecentView>, roasts: map<string, Roast>, userId: Option<int>): seq<Roast>
  {
    if !SignedIn(userId) then [] else Lookup(RoastIds(HistoryEntries(rows, userId.value)), roasts)
  }

  /**
   * The history has at most ten entries; they come from the user's newest rows,
   * newest first; and a row of theirs left out is no newer than the oldest one used.
   */
  lemma HistoryCorrect(rows: seq<RecentView>, roasts: map<string, Roast>, userId: Option<int>)
    ensures |History(rows, roasts, userId)| <= HistoryLimit
    ensures !SignedIn(userId) ==> History(rows, roasts, userId) == []
    ensures SignedIn(userId) ==>
      var entries := HistoryEntries(rows, userId.value);
      && History(rows, roasts, userId) == Lookup(RoastIds(entries), roasts)
      && SortedDesc(entries, ViewedAt)
      && |entries| == (if |OfUser(rows, userId.value)| <= HistoryLimit then |OfUser(rows, userId.value)| else HistoryLimit)
      && (forall e :: e in entries ==> e in rows && e.userId == userId.value)
      && (|OfUser(rows, userId.value)| > HistoryLimit ==>
            forall e :: e in OfUser(rows, userId.value) && e !in entries ==>
              e.viewedAt <= entries[HistoryLimit - 1].viewedAt)
  {
    if SignedIn(userId) {
      var u := userId.value;
      var entries := HistoryEntries(rows, u);
      TopByKey(OfUser(rows, u), ViewedAt, HistoryLimit);
      OfUserMembers(rows, u);
      LookupCorrect(RoastIds(entries), roasts);
    }
  }

  // ------------------------------------------------------------ state

  /** The parts of the Flask session the routes read and write. */
  class Session {
    var myRoastIds: seq<string>
    var hasSpotifyToken: bool
    var userId: Option<int>
    var userName: Value

    constructor (userId: Option<int>, userName: Value)
      ensures this.userId == userId && this.userName == userName
      ensures myRoastIds == [] && !hasSpotifyToken
    {
      this.userId := userId;
      this.userName := userName;
      myRoastIds := [];
      hasSpotifyToken := false;
    }

    /** The own-roasts list of a session: no repeats, at most 20. */
    predicate Valid()
      reads this
    {
      NoDuplicates(myRoastIds) && |myRoastIds| <= MyRoastsLimit
    }

    /** The `my_roast_ids` update of `generate_roast`. */
    method Remember(id: string)
      modifies this
      requires Valid()
      ensures Valid()
      ensures myRoastIds == PushRecent(old(myRoastIds), id)
      ensures myRoastIds[0] == id && id !in myRoastIds[1..]
      ensures hasSpotifyToken == old(hasSpotifyToken) && userId == old(userId) && userName == old(userName)
    {
      PushRecentCorrect(myRoastIds, id);
      myRoastIds := PushRecent(myRoastIds, id);
    }
  }

  /** The `roasts` table by id, and the `recent_roasts` table. */
  class Database {
    var roasts: map<string, Roast>
    var recent: seq<RecentView>

    constructor ()
      ensures roasts == map[] && recent == []
    {
      roasts := map[];
      recent := [];
    }

    /** At most one recently-viewed row per user and roast. */
    predicate Valid()
      reads this
    {
      UniqueViews(recent)
    }

    /**
     * `track_recent_roast`: refresh or add the (u, r) row, then delete the user's
     * rows past the 20 newest.
     */
    method TrackRecentRoast(u: int, r: string, now: int)
      modifies this
      requires Valid()
      ensures Valid()
      ensures recent == Tracked(old(recent), u, r, now) && roasts == old(roasts)
      ensures OfOthers(recent, u) == OfOthers(old(recent), u)
      ensures |OfUser(recent, u)| <= RecentLimit && Refreshed(recent, u, r, now)
      ensures AllBefore(old(recent), u, now) ==> RecentView(u, r, now) in recent
    {
      ghost var rows := recent;
      RefreshView(u, r, now);
      PruneViews(u);
      TrackedKeepsOthers(rows, u, r, now);
      TrackedBounded(rows, u, r, now);
      TrackedRefreshes(rows, u, r, now);
    }

    /** The first half of `track_recent_roast`: update the (u, r) row's time or add the row. */
    method RefreshView(u: int, r: string, now: int)
      modifies this
      ensures recent == Upsert(old(recent), u, r, now) && roasts == old(roasts)
    {
      var i := 0;
      while i < |recent| && !(recent[i].userId == u && recent[i].roastId == r)
        invariant 0 <= i <= |recent|
        invariant forall k :: 0 <= k < i ==> !(recent[k].userId == u && recent[k].roastId == r)
      {
        i := i + 1;
      }
      UpsertAt(recent, u, r, now, i);
      if i < |recent| {
        recent := recent[i := RecentView(u, r, now)];
      } else {
        recent := recent + [RecentView(u, r, now)];
      }
    }

    /** The second half: delete each of the user's rows past the 20 newest. */
    method PruneViews(u: int)
      modifies this
      ensures recent == RemoveAll(old(recent), Stale(old(recent), u)) && roasts == old(roasts)
    {
      ghost var rows := recent;
      var stale := Stale(recent, u);
      var k := 0;
      while k < |stale|
        invariant 0 <= k <= |stale| && recent == RemoveAll(rows, stale[..k]) && roasts == old(roasts)
      {
        assert stale[..k + 1][..k] == stale[..k] && stale[..k + 1][k] == stale[k];
        recent := RemoveRow(recent, stale[k]);
        k := k + 1;
      }
      assert stale[..|stale|] == stale;
    }
  }

  // ------------------------------------------------------------ endpoints

  /** What `generate_roast` answers. */
  datatype RoastResponse =
    | RateLimited(waitSeconds: int)
    | Created(id: string, sources: seq<string>, roast: string, raw: Dict, inputs: Dict)
      /** The new id is already taken: the insert fails and the request ends in a server error. */
    | StoreFailed

  /**
   * `generate_roast`. `fetched` holds what the Spotify service and the adapters
   * returned for this request, `generate` is the generator as a function of the
   * prompt (its text, or the message of the exception it raised), and `roastId`
   * the fresh short id.
   */
  method GenerateRoast(limiter: RateLimiter, session: Session, db: Database, client: string, now: int,
                       req: RoastRequest, fetched: Fetched, generate: string -> Result<string, string>,
                       roastId: string)
    returns (resp: RoastResponse)
    modifies limiter, session, db
    requires session.Valid() && db.Valid()
    ensures session.Valid() && db.Valid()
    ensures resp.RateLimited? <==> RateLimitWait(old(limiter.store), client, now).Some?
    ensures resp.RateLimited? ==>
      && resp.waitSeconds == RateLimitWait(old(limiter.store), client, now).value
      && limiter.store == old(limiter.store)
      && unchanged(session) && unchanged(db)
    ensures !resp.RateLimited? ==> limiter.store == old(limiter.store)[client := now]
    ensures resp.StoreFailed? <==> !resp.RateLimited? && roastId in old(db.roasts)
    ensures resp.StoreFailed? ==>
      unchanged(db) && session.myRoastIds == old(session.myRoastIds)
      && session.hasSpotifyToken == (old(session.hasSpotifyToken) && fetched.spotifyReady)
    ensures resp.Created? ==>
      var c := RequestData(req, fetched, old(session.userName));
      var spotifyName := if fetched.spotifyReady then old(session.userName) else VNone;
      && resp == Created(roastId, c.Sources(), RoastText(generate(c.PromptBlock())), c.AsDict(),
                         UserInputs(req, spotifyName))
      && db.roasts == old(db.roasts)[roastId := Roast(roastId, old(session.userId), resp.roast,
                                                        c.Sources(), c.AsDict(), resp.inputs, now, true)]
      && db.recent == (if SignedIn(old(session.userId))
                       then Tracked(old(db.recent), old(session.userId).value, roastId, now)
                       else old(db.recent))
      && session.myRoastIds == PushRecent(old(session.myRoastIds), roastId)
      && !session.hasSpotifyToken
  {
    var wait := limiter.Admit(client, now);
    if wait.Some? {
      return RateLimited(wait.value);
    }
    var combined := RequestData(req, fetched, session.userName);
    var spotifyName := if fetched.spotifyReady then session.userName else VNone;
    var inputs := UserInputs(req, spotifyName);
    var payload := combined.AsDict();
    var text := RoastText(generate(combined.PromptBlock()));
    var stored := StoreRoast(session, db, Roast(roastId, session.userId, text, combined.Sources(), payload, inputs, now, true),
                             fetched.spotifyReady);
    if !stored {
      return StoreFailed;
    }
    return Created(roastId, combined.Sources(), text, payload, inputs);
  }

  /**
   * What `generate_roast` does with the new row once the client is past the rate
   * limit: drop the Spotify token when Spotify was not ready, insert the row, track
   * it for a signed-in user, remember its id and drop the token.
   */
  method StoreRoast(session: Session, db: Database, roast: Roast, spotifyReady: bool) returns (stored: bool)
    modifies session, db
    requires session.Valid() && db.Valid()
    ensures session.Valid() && db.Valid()
    ensures session.userId == old(session.userId) && session.userName == old(session.userName)
    ensures stored <==> roast.id !in old(db.roasts)
    ensures !stored ==>
      unchanged(db) && session.myRoastIds == old(session.myRoastIds)
      && session.hasSpotifyToken == (old(session.hasSpotifyToken) && spotifyReady)
    ensures stored ==>
      && db.roasts == old(db.roasts)[roast.id := roast]
      && db.recent == (if SignedIn(session.userId)
                       then Tracked(old(db.recent), session.userId.value, roast.id, roast.createdAt)
                       else old(db.recent))
      && session.myRoastIds == PushRecent(old(session.myRoastIds), roast.id)
      && !session.hasSpotifyToken
  {
    if !spotifyReady {
      session.hasSpotifyToken := false;
    }
    if roast.id in db.roasts {
      return false;
    }
    db.roasts := db.roasts[roast.id := roast];
    if SignedIn(session.userId) {
      db.TrackRecentRoast(session.userId.value, roast.id, roast.createdAt);
    }
    session.Remember(roast.id);
    session.hasSpotifyToken := false;
    return true;
  }

  /** `get_roast`: a known roast is returned and, for a signed-in user, tracked as viewed. */
  method ViewRoast(session: Session, db: Database, roastId: string, now: int) returns (r: Option<Roast>)
    modifies db
    requires db.Valid()
    ensures db.Valid()
    ensures r.None? <==> roastId !in old(db.roasts)
    ensures r.Some? ==> r.value == old(db.roasts)[roastId]
    ensures db.roasts == old(db.roasts)
    ensures db.recent == (if r.Some? && SignedIn(session.userId)
                          then Tracked(old(db.recent), session.userId.value, roastId, now)
                          else old(db.recent))
  {
    if roastId !in db.roasts {
      return None;
    }
    r := Some(db.roasts[roastId]);
    if SignedIn(session.userId) {
      db.TrackRecentRoast(session.userId.value, roastId, now);
    }
  }
}
