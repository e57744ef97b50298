# Cooked-Roasted-Life core, modelled in Dafny

Cooked-Roasted-Life writes a "roast" of a user from their activity on four services. These are Spotify (music), Valorant (Henrik's match API), AniList (anime and manga) and Steam (games). For each roast request the application does the following:

- It rate-limits the client.
- It asks the Valorant, AniList and Steam adapters for a profile fragment, each only when the user gave an identifier for that source, and substitutes a placeholder when such an adapter returns nothing. It asks Spotify for the signed-in profile whenever the Spotify service is ready, with no placeholder.
- It combines the fragments into a `CombinedUserData`, which derives a `sources` list and renders a prompt block.
- It hands the prompt to a text generator and stores the roast.
- It remembers the roast in the session's "my roasts" list and, for a signed-in user, in the "recently viewed" table.

This project models that logic, from the point where the upstream replies arrive, and proves what it promises.

| module | file | models |
|---|---|---|
| `Formatter` | formatter.dfy | app/utils/formatter.py: `strip_empty` and the `flatten_for_prompt` loop |
| `UserData` | user_data.dfy | app/models/user_data.py: construction, `as_dict`, `prompt_block`, `_format_input_summary` |
| `Valorant` | valorant.dfy | app/services/valorant.py: rank defaults, the match loop, ratio guards, wins, main agent |
| `Steam` | steam.dfy | app/services/steam.py: key gate, vanity resolution, top-10 by playtime, recent games, fragment |
| `Anime` | anime.dfy | app/services/anime.py: error gates, `status_count`, `extract_titles`, `extract_from_lists`, fragment |
| `ApiRoutes` | api_routes.dfy | app/routes/api_routes.py: rate limiter, fragment selection, `my_roast_ids`, `track_recent_roast`, `get_roast`, history, "my roasts" |
| `Json`, `Text`, `Seqs`, `Wrappers` | json.dfy, text.dfy, seqs.dfy, wrappers.dfy | Python values and truthiness, `dict.get`, `or`, `str.join`, ASCII case mapping, slicing, the stable `sorted(..., reverse=True)`, Option/Result |

A Python dict is its list of items in insertion order (`Dict = seq<(string, Value)>`). Its truthiness is non-emptiness, and `d.get(k)` returns the first item with key `k`. How a value is rendered inside an f-string is the function `Show`.

The upstream replies are input datatypes. A field that GraphQL may return as null is an `Option`. A request that raised, or whose reply does not decode, is `None`. Time is an integer number of microseconds. The clock, the client address and the new roast id are parameters. The text generator is a function parameter from the prompt to its text or the message of the exception it raised.

Code that works step by step is written as methods with loops and is proved against a specification function, with the properties proved about that function. This covers the match loop, the title-extraction loops, `status_count`, `flatten_for_prompt`, the row update in `track_recent_roast` and the pruning loop. The rate-limit store, the session and the two tables are classes whose methods modify them.

## Model

| member | source | states |
|---|---|---|
| Formatter.StripEmptyKeepsTruthy | app/utils/formatter.py:1-2 | an item survives exactly when it was in the dict and its value is truthy; values are unchanged |
| Formatter.StripEmptyKeysSubset | app/utils/formatter.py:1-2 | every key of the result is a key of the input |
| Formatter.StripEmptyIdempotent | app/utils/formatter.py:1-2 | applying it twice equals applying it once |
| Formatter.StripEmptyGet | app/utils/formatter.py:1-2 | for a dict with distinct keys, looking a key up in the result gives the original value when truthy, else None |
| Formatter.FlattenForPrompt | app/utils/formatter.py:5-14 | the loop's text is the newline-join of every item's lines, in iteration order |
| Formatter.CollectItem | app/utils/formatter.py:8-13 | one item contributes nothing when it is "sources" or not a dict, else "[source]" and one "k: v" line per entry, in order |
| Formatter.FlattenSnoc | app/utils/formatter.py:7-13 | lines accumulate item by item: one more item appends exactly its lines |
| Formatter.EntryLinesSnoc | app/utils/formatter.py:12-13 | one more entry appends exactly its "k: v" line |
| Formatter.FlattenOnlyRendered | app/utils/formatter.py:8-10 | the "sources" item and every non-dict value contribute no line: the lines are those of the dict items only |
| Formatter.FlattenLinesNonEmpty | app/utils/formatter.py:11-13 | every collected line has text |
| Formatter.FlattenEmptyIff | app/utils/formatter.py:14 | the output is "" exactly when no item other than "sources" holds a dict |
| UserData.Normalize | app/models/user_data.py:10-14 | a missing or empty argument becomes the empty dict; a non-empty one is kept as it is |
| UserData.CombinedUserData.AsDict | app/models/user_data.py:16-28 | keys spotify, valorant, anime, steam, inputs, sources in that order; the stored fragments and inputs unchanged; sources rendered element by element |
| UserData.SourcesFollowPriority | app/models/user_data.py:23-28 | `sources` is the order Spotify, Valorant, AniList, Steam filtered to the non-empty fragments |
| UserData.SourcesExact | app/models/user_data.py:23-28 | a name is in `sources` exactly when it is one of the four sources and its fragment is non-empty |
| UserData.DataPartsFacts | app/models/user_data.py:33-67 | each data section appears exactly when its fragment is non-empty, under the heading "<source> Data" |
| UserData.IdentifiersPartFacts | app/models/user_data.py:68-70 | the identifier section appears exactly when the summary is non-empty |
| UserData.SectionsFollowSources | app/models/user_data.py:31-70 | the section headings are one "<source> Data" per entry of `sources`, in order, then "User Provided Identifiers" when the summary is non-empty |
| UserData.PromptStartsWithFirstHeading | app/models/user_data.py:72-75 | with any section, the prompt begins with the first section's heading line |
| UserData.PromptNeverEmpty | app/models/user_data.py:72-75 | the prompt block is never empty |
| UserData.PromptIsSentinelIff | app/models/user_data.py:72-73 | the prompt is the sentinel exactly when every fragment is empty and the identifier summary is empty |
| UserData.JoinSectionsIsSentinelIff | app/models/user_data.py:72-75 | sections whose headings do not start like the sentinel join to it only when there are none |
| UserData.IdentifiersAloneFormPrompt | app/models/user_data.py:68-75 | with no fragment but some identifier line, the prompt is exactly the identifier section |
| UserData.SummaryLinesShape | app/models/user_data.py:81-100 | every summary line starts with "- " |
| UserData.LineParts | app/models/user_data.py:81-100 | each line group is a bullet list; only the Valorant group, of at most one line, starts "- Valorant IGN " |
| UserData.SummaryEmptyIff | app/models/user_data.py:77-105 | the summary is "" exactly when no Spotify name, no name-and-tag pair, no AniList user and no Steam id or vanity is truthy |
| UserData.ValorantLineNeedsNameAndTag | app/models/user_data.py:86-92 | a Valorant line is present exactly when both name and tag are truthy, and then it carries both and the region |
| UserData.Region | app/models/user_data.py:89 | the region holds no lower-case letter; a given region is kept letter for letter up to case (same length, same lower-cased text); "NA" when none was given |
| UserData.SteamLinePrefersId | app/models/user_data.py:98-100 | the Steam lines are exactly one line showing `steam_id` when it is given, exactly one showing `steam_vanity` when only it is given, none when neither is; the line is in the summary |
| Valorant.GetRoastData | app/services/valorant.py:12-95 | the method with the match loop returns the fragment `RoastData` describes |
| Valorant.FindMe | app/services/valorant.py:45-53 | the player found matches name and tag case-insensitively and is the first such player of the match; none is found exactly when no player matches |
| Valorant.TallyCounts | app/services/valorant.py:44-76 | a match adds one agent exactly when the player is in it; wins are at most the matches the player was found in, which are at most the matches taken |
| Valorant.WinsBounded | app/services/valorant.py:75-84 | wins never exceed the matches taken, at most five, so the loss count is never negative |
| Valorant.OnlyFirstFive | app/services/valorant.py:38 | matches after the fifth never change the fragment |
| Valorant.KillDeath | app/services/valorant.py:78 | K/D is the fraction kills/deaths when there were deaths, and the kill count when there were none; never a zero divisor |
| Valorant.HeadshotRate | app/services/valorant.py:79-81 | the headshot rate is the fraction headshots*100/shots when a shot was counted, and 0 when none was; never a zero divisor |
| Valorant.RatiosGuarded | app/services/valorant.py:78-91 | both ratio fields of a full fragment are defined |
| Valorant.RoastDataShape | app/services/valorant.py:15-36 | the fragment is `{}` exactly when the rank lookup failed; otherwise it has type "valorant" and ign `name#tag`, rank and elo from `current` when present and "Unranked" and 0 otherwise |
| Valorant.MainAgentShape | app/services/valorant.py:83-92 | after a good match reply the main agent is the most common agent, or "Unknown" when the player was found in no match |
| Valorant.MatchFailureKeys | app/services/valorant.py:30-36 | a failed match lookup gives exactly the keys type, ign, rank, elo |
| Valorant.MostCommonIsFirstMaximum | app/services/valorant.py:83 | the main agent is one played, occurs at least as often as any other, and beats every agent seen before it |
| Steam.ResolveVanity | app/services/steam.py:12-24 | a resolved id is the reply's steamid, and only when `success == 1` |
| Steam.ResolvedId | app/services/steam.py:30-31 | an explicit id wins; the vanity name is resolved only without one |
| Steam.GetRoastData | app/services/steam.py:26-34 | `{}` exactly without an API key or a resolved id; otherwise the fragment for the resolved id |
| Steam.Fragment | app/services/steam.py:37-109 | the fragment: keys in order, type "steam", the resolved id, player name and URL from the first player or None, total hours (0 without games), the top list and the first ten recent games |
| Steam.TopGamesCorrect | app/services/steam.py:77-83 | at most ten games, most played first, all owned, none left out played more than the last kept, ties in upstream order |
| Steam.Labels | app/services/steam.py:80-99 | one label per game, in order |
| Anime.StatusCount | app/services/anime.py:95-99 | the count of the first status equal to the key, else 0; a null list raises |
| Anime.ExtractTitles | app/services/anime.py:106-113 | the english-or-romaji title of each of the first `limit` nodes, `min(limit, len(nodes))` of them; a null among those titles raises |
| Anime.FavouriteTitles | app/services/anime.py:157-165 | a favourites page's first ten titles, `None` when it is null |
| Anime.ExtractFromLists | app/services/anime.py:115-132 | the method with nested loops and breaks returns what `ListTitles` describes |
| Anime.ListTitlesComplete | app/services/anime.py:115-132 | on a collection with nothing null, the result is the first `limit` non-empty titles in list-then-entry order |
| Anime.FromListsComplete | app/services/anime.py:118-131 | the outer loop appends each list's titles, stopping once `limit` is reached |
| Anime.FromEntriesComplete | app/services/anime.py:119-128 | the inner loop appends non-empty titles until `limit` is reached |
| Anime.ListTitlesBounded | app/services/anime.py:115-132 | at most `limit` titles, each non-empty |
| Anime.Genres | app/services/anime.py:156-164 | genre names in upstream order |
| Anime.Fragment.AsDict | app/services/anime.py:147-167 | the 19 keys in order, type "anime", and each of the 18 field values under its own key |
| Anime.GetRoastData | app/services/anime.py:75-170 | `{}` on a non-200 status, an `errors` body or a null on a path read; never `{}` on a complete reply; otherwise the user's name, URL, days, episodes, chapters, volumes, four title lists and genres |
| ApiRoutes.TruncSeconds | app/routes/api_routes.py:46 | whole seconds, truncated toward zero |
| ApiRoutes.WaitSeconds | app/routes/api_routes.py:45-46 | inside the cooldown the wait is 1..300 seconds, and it is never a full second longer than the time actually left |
| ApiRoutes.RateLimitWait | app/routes/api_routes.py:41-49 | a client is rejected exactly when its entry is younger than five minutes, with a wait of 1..300 |
| ApiRoutes.RateLimiter.constructor | app/routes/api_routes.py:16 | the store starts empty |
| ApiRoutes.RateLimiter.Admit | app/routes/api_routes.py:41-51 | a rejection leaves the store unchanged; an admission sets the client's entry to now |
| ApiRoutes.AcceptedStartsCooldown | app/routes/api_routes.py:41-51 | after an admission the same client is rejected for five minutes with `300 - elapsed seconds`; other clients are unaffected |
| ApiRoutes.UserInputs | app/routes/api_routes.py:53-69 | the inputs dict, keys in order, each field as given; the region is the given one when truthy and "na" otherwise; plus `spotify_name` |
| ApiRoutes.SpotifyFragment | app/routes/api_routes.py:71-77 | the Spotify profile only with a ready service, `{}` otherwise |
| ApiRoutes.ValorantFragment | app/routes/api_routes.py:81-91 | `{}` unless name and tag are both given; the adapter's result, or a placeholder with ign `name#tag` |
| ApiRoutes.AnimeFragment | app/routes/api_routes.py:93-101 | `{}` without a user; the adapter's result, or a placeholder with the username |
| ApiRoutes.SteamFragment | app/routes/api_routes.py:103-113 | `{}` without id or vanity; the adapter's result, or a placeholder with `steam_id or steam_vanity` |
| ApiRoutes.SourcesFollowIdentifiers | app/routes/api_routes.py:81-122 | a source is listed exactly when its identifier was given, whatever its adapter returned |
| ApiRoutes.RoastText | app/routes/api_routes.py:125-130 | the generated text, or "Failed To Generate Roast: " and the error |
| ApiRoutes.RemoveFirstSplits | app/routes/api_routes.py:154-155 | `remove` drops only the first occurrence and keeps the rest in order |
| ApiRoutes.RemoveFirstNoDuplicates | app/routes/api_routes.py:154-155 | from a list without repeats, the id is gone after `remove` |
| ApiRoutes.PushRecentCorrect | app/routes/api_routes.py:151-158 | the new id first, once; the others in their prior order; at most 20 |
| ApiRoutes.Session.Remember | app/routes/api_routes.py:151-158 | the session list is updated that way, stays without repeats and within 20, and nothing else in the session changes |
| ApiRoutes.UpsertAt | app/routes/api_routes.py:191-198 | the first matching row has its time replaced, or a new row is appended |
| ApiRoutes.UpsertKeepsOthers | app/routes/api_routes.py:191-198 | the upsert leaves other users' rows as they were |
| ApiRoutes.UpsertMembers | app/routes/api_routes.py:191-198 | the refreshed row is present and every other row was there before |
| ApiRoutes.UpsertUnique | app/routes/api_routes.py:191-198 | at most one row per user and roast stays true |
| ApiRoutes.PruneKeepsNewest | app/routes/api_routes.py:200-207 | the deletion keeps other users' rows and exactly the user's 20 newest rows |
| ApiRoutes.RemoveAllSplits | app/routes/api_routes.py:206-207 | deleting the user's rows leaves other users' rows, and removes exactly those rows from the user's |
| ApiRoutes.RemoveAllSubset | app/routes/api_routes.py:206-207 | deleting rows only removes rows, and keeps at most one row per user and roast |
| ApiRoutes.TrackedKeepsOthers | app/routes/api_routes.py:190-207 | `track_recent_roast` leaves other users' rows untouched |
| ApiRoutes.TrackedBounded | app/routes/api_routes.py:200-207 | the user keeps at most 20 rows, and with 20 or fewer nothing is deleted |
| ApiRoutes.TrackedKeepsNewest | app/routes/api_routes.py:200-207 | no row of the user that was deleted is newer than any row kept |
| ApiRoutes.TrackedRefreshes | app/routes/api_routes.py:191-207 | at most one row per user and roast is kept; any row for the pair carries the new time; when every earlier row of the user is older than now, that row is in the table |
| ApiRoutes.TrackedKeepsSome | app/routes/api_routes.py:191-207 | after tracking, the user has at least one row |
| ApiRoutes.TrackedKeepsViewed | app/routes/api_routes.py:191-207 | when every earlier row of the user is older than now, the row just viewed survives the pruning |
| ApiRoutes.Database.RefreshView | app/routes/api_routes.py:191-198 | the search loop and the update give the upsert |
| ApiRoutes.Database.PruneViews | app/routes/api_routes.py:200-207 | the deletion loop removes exactly the rows past the 20 newest |
| ApiRoutes.Database.TrackRecentRoast | app/routes/api_routes.py:190-207 | the table after tracking: any row for the pair is fresh, and it is there when every earlier row of the user is older than now; at most 20 rows for the user; other users untouched |
| ApiRoutes.LookupCorrect | app/routes/api_routes.py:259-262 | no more roasts than ids; a roast is listed exactly when some id maps to it; the plain id-by-id mapping when all ids are known |
| ApiRoutes.LookupInOrder | app/routes/api_routes.py:262 | session-list order: one id gives its roast or nothing, and splitting the ids anywhere splits the result the same way |
| ApiRoutes.LookupAppend | app/routes/api_routes.py:262 | the lookup of two id lists joined is the two lookups joined |
| ApiRoutes.MyRoasts | app/routes/api_routes.py:252-264 | the early return on an empty list agrees with the lookup: the result is always the lookup of the session's ids |
| ApiRoutes.HistoryCorrect | app/routes/api_routes.py:210-225 | nothing without a user; otherwise at most 10 roasts from the user's newest rows, newest first, missing roasts skipped |
| ApiRoutes.GenerateRoast | app/routes/api_routes.py:37-162 | rate limit first; then the combined data, the roast text the generator gives for that data's prompt block (or the failure message), the stored roast, the recent row for a signed-in user, the session list and the dropped Spotify token |
| ApiRoutes.StoreRoast | app/routes/api_routes.py:132-162 | an insert under a taken id fails and changes no table; otherwise the roast is stored, tracked for a signed-in user and remembered, and the token is dropped |
| ApiRoutes.ViewRoast | app/routes/api_routes.py:176-187 | an unknown id is not found and changes nothing; a known roast is returned and tracked for a signed-in user |
| Seqs.SortDescCorrect | app/services/steam.py:77-79 | the descending sort is ordered, a permutation of its input, and stable on ties |
| Seqs.TopByKey | app/routes/api_routes.py:217-222 | the first n of the sort: at most n, ordered, from the input, none left out larger than the last kept |
| Seqs.KeptAreLargest | app/routes/api_routes.py:200-205 | rows holding the same elements as the first n of the sort keep the largest keys |

## Left out

- HTTP: every `requests` call and the Spotify and Gemini services. Their outcomes are inputs; a request that raised or a reply that does not decode is `None`.
- Floating point: `round(..., 1)` and `round(..., 2)` and decimal rendering of days, hours, K/D and headshot rate. These values are exact fractions (`VFrac`), and `Show` renders them abstractly.
- `str()` and `repr()` of values are an abstract rendering, `Show` and `Repr`. String escaping is not modelled.
- `str.lower` and `str.upper` are modelled on ASCII letters only.
- The Valorant adapter has no `try`. A transport error or a malformed payload there raises out of `generate_roast` and ends the request in a server error. The model's inputs are typed, so that failure is not modelled.
- The Spotify and AniList adapters catch every error and return `{}`.
- The Steam adapter catches each failed request and carries on with empty data: a failed owned-games or recent-games request gives a fragment with empty game lists, not `{}`. Its post-processing of the replies (app/services/steam.py:71-99) is not guarded. A null `response` or a null `playtime_forever` raises there and ends the request in a server error. The model's typed `Game` and `Option<seq<Game>>` inputs cannot express those payloads, so that failure is not modelled.
- The Steam fragment holds `player_name` and `profile_url` as None after a failed summary call, next to the games that were fetched; the model keeps those None values.
- A `valorant_region` that is not a string: `.upper()` would raise, but the model renders it through `Show`.
- `GenerateRoast` does not model the inner `try` around `my_roast_ids`: the session list is a list of strings here, so it cannot raise.
- `GenerateRoast`: an id collision on insert ends in `StoreFailed`. The real request ends in a 500 after the commit fails. Session effects before that point are kept (the token dropped when Spotify is not ready).
- Anime.GetRoastData: does not restate in its own contract the four status counts and the two favourites lists. `StatusCount` and `FavouriteTitles` state those values on their own.
- Anime.GetRoastData: a reply that is not `Complete` may still yield a fragment; the contract states that a complete reply never gives `{}`, not the exact set of replies that do.
- `ping`, `auth_status`, the public-roasts pagination endpoint, `Roast.to_dict` and the response timestamp are left out. They are Flask, SQLAlchemy and serialisation plumbing.
- SQL ordering among rows with equal `viewed_at` is unspecified. The model uses a stable sort in table order.
- ApiRoutes.Database.TrackRecentRoast: states that the row just viewed is still in the table only when every earlier row of the user is older than `now`. When 20 or more other rows share the newest time, which rows the pruning keeps depends on that unspecified order.
- ApiRoutes.TrackedRefreshes: the same time condition as `TrackRecentRoast` for the row's survival.
- `uuid4` ids and `datetime.utcnow()` are parameters, and concurrent requests are not modelled: the model is sequential.
- GraphQL lists are taken to hold no null elements; a null field is `None`.
