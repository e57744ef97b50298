/**
 * What app/services/anime.py does with the AniList GraphQL reply: the error
 * gates, the status and title helpers, and the 19-key fragment.
 *
 * GraphQL returns every requested field, possibly null; a nullable field is an
 * `Option` here and `None` stands for null. Subscripting or iterating a null
 * raises, and every exception ends in the `{}` result.
 */
module Anime {
  import opened Json
  import opened Wrappers
  import opened Seqs

  datatype Title = Title(english: Value, romaji: Value)
  datatype Media = Media(title: Option<Title>)
  datatype Entry = Entry(media: Option<Media>)
  datatype ListGroup = ListGroup(entries: Option<seq<Entry>>)
  /** One `MediaListCollection` alias (animeWatching, animeCompleted, ...). */
  datatype Collection = Collection(lists: Option<seq<ListGroup>>)

  datatype StatusEntry = StatusEntry(status: Value, count: Value)
  datatype GenreEntry = GenreEntry(genre: Value, count: Value)
  datatype AnimeStats = AnimeStats(minutesWatched: Value, episodesWatched: Value,
                                   statuses: Option<seq<StatusEntry>>, genres: Option<seq<GenreEntry>>)
  datatype MangaStats = MangaStats(chaptersRead: Value, volumesRead: Value,
                                   statuses: Option<seq<StatusEntry>>, genres: Option<seq<GenreEntry>>)
  datatype Statistics = Statistics(anime: Option<AnimeStats>, manga: Option<MangaStats>)

  datatype FavNode = FavNode(title: Option<Title>)
  datatype FavPage = FavPage(nodes: Option<seq<FavNode>>)
  datatype Favourites = Favourites(anime: Option<FavPage>, manga: Option<FavPage>)
  datatype User = User(name: Value, siteUrl: Value, statistics: Option<Statistics>,
                       favourites: Option<Favourites>)

  datatype AniData = AniData(user: Option<User>, animeWatching: Option<Collection>,
                             animeCompleted: Option<Collection>, mangaReading: Option<Collection>,
                             mangaCompleted: Option<Collection>)
  /** The decoded body: whether it has an `errors` key, and its `data` member. */
  datatype Body = Body(hasErrors: bool, data: Option<AniData>)
  /** The HTTP reply; `body` is `None` when the body does not decode. */
  datatype Reply = Reply(status: int, body: Option<Body>)

  /** How many titles each list and each favourites list keeps. */
  const TitleLimit: nat := 10

  /** The keys of a fragment, in the order the adapter builds it. */
  const FragmentKeys := ["type", "username", "days_wasted", "total_episodes", "anime_watching",
    "anime_completed", "anime_watching_list", "anime_completed_list", "top_anime_genres",
    "favorite_anime", "chapters_read", "volumes_read", "manga_reading", "manga_completed",
    "manga_reading_list", "manga_completed_list", "top_manga_genres", "favorite_manga",
    "profile_url"]

  /**
   * `status_count`: the count of the first entry whose status is `key`, else 0;
   * a null status list raises.
   */
  method StatusCount(statuses: Option<seq<StatusEntry>>, key: string) returns (r: Option<Value>)
    ensures r.None? <==> statuses.None?
    ensures statuses.Some? && (forall i :: 0 <= i < |statuses.value| ==> statuses.value[i].status != VStr(key))
      ==> r == Some(VInt(0))
    ensures forall i :: 0 <= i < |statuses.GetOr([])| && statuses.value[i].status == VStr(key) &&
                        (forall j :: 0 <= j < i ==> statuses.value[j].status != VStr(key)) ==>
                          r == Some(statuses.value[i].count)
  {
    if statuses.None? {
      return None;
    }
    var ss := statuses.value;
    var i := 0;
    while i < |ss|
      invariant 0 <= i <= |ss|
      invariant forall j :: 0 <= j < i ==> ss[j].status != VStr(key)
    {
      if ss[i].status == VStr(key) {
        return Some(ss[i].count);
      }
      i := i + 1;
    }
    return Some(VInt(0));
  }

  /** `english or romaji`. */
  function TitleText(t: Title): Value
  {
    Or(t.english, t.romaji)
  }

  function Min(a: nat, b: nat): nat
  {
    if a <= b then a else b
  }

  /**
   * `extract_titles`: the english-or-romaji title of each of the first `limit`
   * nodes, empty ones included; a null among those nodes' titles raises.
   */
  method ExtractTitles(nodes: Option<seq<FavNode>>, limit: nat) returns (r: Option<seq<Value>>)
    ensures r.Some? <==> nodes.Some? && forall i :: 0 <= i < Min(limit, |nodes.value|) ==> nodes.value[i].title.Some?
    ensures r.Some? ==> |r.value| == Min(limit, |nodes.value|)
    ensures r.Some? ==> forall i :: 0 <= i < |r.value| ==> r.value[i] == TitleText(nodes.value[i].title.value)
  {
    if nodes.None? {
      return None;
    }
    var ns := nodes.value;
    var n := Min(limit, |ns|);
    var titles: seq<Value> := [];
    var i := 0;
    while i < n
      invariant 0 <= i <= n && |titles| == i
      invariant forall j :: 0 <= j < i ==> ns[j].title.Some? && titles[j] == TitleText(ns[j].title.value)
    {
      if ns[i].title.None? {
        return None;
      }
      titles := titles + [TitleText(ns[i].title.value)];
      i := i + 1;
    }
    return Some(titles);
  }

  /** The title of one list entry, or `None` when its media or title is null. */
  function EntryTitle(e: Entry): Option<Value>
  {
    var media :- e.media;
    var title :- media.title;
    Some(TitleText(title))
  }

  /**
   * The inner loop of `extract_from_lists`: stop as soon as `acc` is full,
   * otherwise read the next entry and keep its title when it is non-empty.
   */
  function FromEntries(entries: seq<Entry>, acc: seq<Value>, limit: nat): Option<seq<Value>>
  {
    if |acc| >= limit || entries == [] then Some(acc)
    else
      var t :- EntryTitle(entries[0]);
      FromEntries(entries[1..], if Truthy(t) then acc + [t] else acc, limit)
  }

  /** The outer loop: each list's entries in turn, stopping once `acc` is full. */
  function FromLists(lists: seq<ListGroup>, acc: seq<Value>, limit: nat): Option<seq<Value>>
  {
    if lists == [] then Some(acc)
    else
      var entries :- lists[0].entries;
      var next :- FromEntries(entries, acc, limit);
      if |next| >= limit then Some(next) else FromLists(lists[1..], next, limit)
  }

  /** What `extract_from_lists` returns for one collection, `None` when it raises. */
  function ListTitles(c: Option<Collection>, limit: nat): Option<seq<Value>>
  {
    var coll :- c;
    var lists :- coll.lists;
    var titles :- FromLists(lists, [], limit);
    Some(Take(titles, limit))
  }

  /** `extract_from_lists`, with its nested loops and early breaks. */
  method ExtractFromLists(c: Option<Collection>, limit: nat) returns (r: Option<seq<Value>>)
    ensures r == ListTitles(c, limit)
  {
    if c.None? || c.value.lists.None? {
      return None;
    }
    var lists := c.value.lists.value;
    var titles: seq<Value> := [];
    var i := 0;
    while i < |lists|
      invariant 0 <= i <= |lists|
      invariant FromLists(lists, [], limit) == FromLists(lists[i..], titles, limit)
    {
      if lists[i].entries.None? {
        return None;
      }
      var entries := lists[i].entries.value;
      ghost var before := titles;
      var j := 0;
      while j < |entries|
        invariant 0 <= j <= |entries|
        invariant FromEntries(entries, before, limit) == FromEntries(entries[j..], titles, limit)
      {
        if |titles| >= limit {
          break;
        }
        var e := entries[j];
        if e.media.None? || e.media.value.title.None? {
          return None;
        }
        var t := TitleText(e.media.value.title.value);
        if Truthy(t) {
          titles := titles + [t];
        }
        assert entries[j..][1..] == entries[j + 1..];
        j := j + 1;
      }
      assert FromEntries(entries, before, limit) == Some(titles);
      if |titles| >= limit {
        return Some(Take(titles, limit));
      }
      assert lists[i..][1..] == lists[i + 1..];
      i := i + 1;
    }
    return Some(Take(titles, limit));
  }

  /** A collection in which nothing on the path to a title is null. */
  predicate CollectionComplete(c: Option<Collection>)
  {
    c.Some? && c.value.lists.Some? && ListsComplete(c.value.lists.value)
  }

  /** Every list has its entries and every entry a readable title. */
  predicate ListsComplete(lists: seq<ListGroup>)
  {
    forall l :: l in lists ==> l.entries.Some? && EntriesComplete(l.entries.value)
  }

  predicate EntriesComplete(entries: seq<Entry>)
  {
    forall e :: e in entries ==> EntryTitle(e).Some?
  }

  /** The non-empty titles of `entries`, in order. */
  function EntryTitles(entries: seq<Entry>): seq<Value>
  {
    if entries == [] then []
    else
      var t := EntryTitle(entries[0]);
      (if t.Some? && Truthy(t.value) then [t.value] else []) + EntryTitles(entries[1..])
  }

  /** The non-empty titles of every list, list after list. */
  function ListsTitles(lists: seq<ListGroup>): seq<Value>
  {
    if lists == [] then [] else EntryTitles(lists[0].entries.GetOr([])) + ListsTitles(lists[1..])
  }

  lemma {:induction false} FromEntriesComplete(entries: seq<Entry>, acc: seq<Value>, limit: nat)
    requires |acc| <= limit
    requires EntriesComplete(entries)
    ensures FromEntries(entries, acc, limit) == Some(Take(acc + EntryTitles(entries), limit))
  {
    if |acc| >= limit {
    } else if entries == [] {
      assert acc + EntryTitles(entries) == acc;
    } else {
      var t := EntryTitle(entries[0]).value;
      var next := if Truthy(t) then acc + [t] else acc;
      FromEntriesComplete(entries[1..], next, limit);
      assert next + EntryTitles(entries[1..]) == acc + EntryTitles(entries);
    }
  }

  lemma {:induction false} FromListsComplete(lists: seq<ListGroup>, acc: seq<Value>, limit: nat)
    requires |acc| <= limit
    requires ListsComplete(lists)
    ensures FromLists(lists, acc, limit) == Some(Take(acc + ListsTitles(lists), limit))
  {
    if lists == [] {
      assert acc + ListsTitles(lists) == acc;
    } else {
      assert lists[0] in lists;
      var entries := lists[0].entries.value;
      var first := EntryTitles(entries);
      var rest := ListsTitles(lists[1..]);
      var next := Take(acc + first, limit);
      assert FromEntries(entries, acc, limit) == Some(next) by {
        FromEntriesComplete(entries, acc, limit);
      }
      FromListsStep(lists, acc, limit, next);
      assert acc + ListsTitles(lists) == (acc + first) + rest;
      if |next| >= limit {
        TakeFull(acc + first, rest, limit);
      } else {
        assert ListsComplete(lists[1..]) by {
          forall l | l in lists[1..] ensures l in lists {
          }
        }
        FromListsComplete(lists[1..], next, limit);
      }
    }
  }

  /** One turn of the outer loop, once the first list's entries are read. */
  lemma FromListsStep(lists: seq<ListGroup>, acc: seq<Value>, limit: nat, next: seq<Value>)
    requires lists != [] && lists[0].entries.Some?
    requires FromEntries(lists[0].entries.value, acc, limit) == Some(next)
    ensures FromLists(lists, acc, limit) ==
      if |next| >= limit then Some(next) else FromLists(lists[1..], next, limit)
  {
  }

  /**
   * On a complete collection `extract_from_lists` cannot fail and returns the
   * first `limit` non-empty titles in list-then-entry order.
   */
  lemma ListTitlesComplete(c: Option<Collection>, limit: nat)
    requires CollectionComplete(c)
    ensures ListTitles(c, limit) == Some(Take(ListsTitles(c.value.lists.value), limit))
    ensures |ListTitles(c, limit).value| <= limit
  {
    FromListsComplete(c.value.lists.value, [], limit);
    assert [] + ListsTitles(c.value.lists.value) == ListsTitles(c.value.lists.value);
  }

  /** Every title `extract_from_lists` keeps is non-empty, and there are at most `limit`. */
  lemma {:induction false} FromEntriesTruthy(entries: seq<Entry>, acc: seq<Value>, limit: nat)
    requires forall i :: 0 <= i < |acc| ==> Truthy(acc[i])
    ensures FromEntries(entries, acc, limit).Some? ==>
      var r := FromEntries(entries, acc, limit).value;
      (forall i :: 0 <= i < |r| ==> Truthy(r[i])) && (|acc| <= limit ==> |r| <= limit)
  {
    if |acc| < limit && entries != [] && EntryTitle(entries[0]).Some? {
      var t := EntryTitle(entries[0]).value;
      FromEntriesTruthy(entries[1..], if Truthy(t) then acc + [t] else acc, limit);
    }
  }

  lemma {:induction false} FromListsTruthy(lists: seq<ListGroup>, acc: seq<Value>, limit: nat)
    requires forall i :: 0 <= i < |acc| ==> Truthy(acc[i])
    ensures FromLists(lists, acc, limit).Some? ==>
      forall i :: 0 <= i < |FromLists(lists, acc, limit).value| ==> Truthy(FromLists(lists, acc, limit).value[i])
  {
    if lists != [] && lists[0].entries.Some? {
      FromEntriesTruthy(lists[0].entries.value, acc, limit);
      var next := FromEntries(lists[0].entries.value, acc, limit);
      if next.Some? && |next.value| < limit {
        FromListsTruthy(lists[1..], next.value, limit);
      }
    }
  }

  lemma ListTitlesBounded(c: Option<Collection>, limit: nat)
    ensures ListTitles(c, limit).Some? ==>
      |ListTitles(c, limit).value| <= limit
      && forall i :: 0 <= i < |ListTitles(c, limit).value| ==> Truthy(ListTitles(c, limit).value[i])
  {
    if c.Some? && c.value.lists.Some? {
      FromListsTruthy(c.value.lists.value, [], limit);
    }
  }

  /** `minutes / 60 / 24` before rounding; a non-number raises. */
  function DaysWasted(minutes: Value): Option<Value>
  {
    match minutes
    case VInt(m) => Some(VFrac(m, 1440))
    case VBool(b) => Some(VFrac(if b then 1 else 0, 1440))
    case VFrac(n, d) => if d == 0 then None else Some(VFrac(n, d * 1440))
    case _ => None
  }

  /** `[g["genre"] for g in genres]`: upstream order. */
  function Genres(genres: seq<GenreEntry>): (r: seq<Value>)
    ensures |r| == |genres| && forall i :: 0 <= i < |r| ==> r[i] == genres[i].genre
  {
    seq(|genres|, i requires 0 <= i < |genres| => genres[i].genre)
  }

  /** Whether the reply passes the status and `errors` gates. */
  predicate Accepted(reply: Option<Reply>)
  {
    reply.Some? && reply.value.status == 200 && reply.value.body.Some? && !reply.value.body.value.hasErrors
  }

  /** A favourites page whose first `limit` nodes all have a title. */
  predicate PageComplete(p: Option<FavPage>)
  {
    p.Some? && p.value.nodes.Some? && forall n :: n in p.value.nodes.value ==> n.title.Some?
  }

  /** An accepted reply in which nothing the adapter reads is null. */
  predicate Complete(reply: Option<Reply>)
  {
    && Accepted(reply)
    && var data := reply.value.body.value.data;
    && data.Some? && data.value.user.Some?
    && var user := data.value.user.value;
    && user.statistics.Some? && user.favourites.Some?
    && var stats := user.statistics.value;
    && stats.anime.Some? && stats.manga.Some?
    && DaysWasted(stats.anime.value.minutesWatched).Some?
    && stats.anime.value.statuses.Some? && stats.anime.value.genres.Some?
    && stats.manga.value.statuses.Some? && stats.manga.value.genres.Some?
    && PageComplete(user.favourites.value.anime) && PageComplete(user.favourites.value.manga)
    && CollectionComplete(data.value.animeWatching) && CollectionComplete(data.value.animeCompleted)
    && CollectionComplete(data.value.mangaReading) && CollectionComplete(data.value.mangaCompleted)
  }

  /** Reads one favourites page the way `user["favourites"][kind]["nodes"]` does. */
  method FavouriteTitles(page: Option<FavPage>) returns (r: Option<seq<Value>>)
    ensures page.None? ==> r.None?
    ensures PageComplete(page) ==> r.Some? && |r.value| == Min(TitleLimit, |page.value.nodes.value|)
    ensures r.Some? ==> page.Some? && page.value.nodes.Some? &&
                        |r.value| == Min(TitleLimit, |page.value.nodes.value|)
    ensures r.Some? ==> forall i :: 0 <= i < |r.value| ==>
                          page.value.nodes.value[i].title.Some? &&
                          r.value[i] == TitleText(page.value.nodes.value[i].title.value)
  {
    if page.None? {
      return None;
    }
    r := ExtractTitles(page.value.nodes, TitleLimit);
  }

  /** The values of a fragment, before they are laid out as a dictionary. */
  datatype Fragment = Fragment(
    username: Value, daysWasted: Value, totalEpisodes: Value,
    animeWatching: Value, animeCompleted: Value,
    animeWatchingList: seq<Value>, animeCompletedList: seq<Value>,
    topAnimeGenres: seq<Value>, favoriteAnime: seq<Value>,
    chaptersRead: Value, volumesRead: Value,
    mangaReading: Value, mangaCompleted: Value,
    mangaReadingList: seq<Value>, mangaCompletedList: seq<Value>,
    topMangaGenres: seq<Value>, favoriteManga: seq<Value>,
    profileUrl: Value)
  {
    /** The fragment dictionary, keys in `FragmentKeys` order, tagged "anime". */
    function AsDict(): (r: Dict)
      ensures Keys(r) == FragmentKeys
      ensures r[0].1 == VStr("anime") && r[1].1 == username && r[2].1 == daysWasted
      ensures r[3].1 == totalEpisodes && r[4].1 == animeWatching && r[5].1 == animeCompleted
      ensures r[6].1 == VList(animeWatchingList) && r[7].1 == VList(animeCompletedList)
      ensures r[8].1 == VList(topAnimeGenres) && r[9].1 == VList(favoriteAnime)
      ensures r[10].1 == chaptersRead && r[11].1 == volumesRead
      ensures r[12].1 == mangaReading && r[13].1 == mangaCompleted
      ensures r[14].1 == VList(mangaReadingList) && r[15].1 == VList(mangaCompletedList)
      ensures r[16].1 == VList(topMangaGenres) && r[17].1 == VList(favoriteManga)
      ensures r[18].1 == profileUrl
    {
      var K := FragmentKeys;
      [(K[0], VStr("anime")), (K[1], username), (K[2], daysWasted),
       (K[3], totalEpisodes),
       (K[4], animeWatching), (K[5], animeCompleted),
       (K[6], VList(animeWatchingList)),
       (K[7], VList(animeCompletedList)),
       (K[8], VList(topAnimeGenres)), (K[9], VList(favoriteAnime)),
       (K[10], chaptersRead), (K[11], volumesRead),
       (K[12], mangaReading), (K[13], mangaCompleted),
       (K[14], VList(mangaReadingList)),
       (K[15], VList(mangaCompletedList)),
       (K[16], VList(topMangaGenres)), (K[17], VList(favoriteManga)),
       (K[18], profileUrl)]
    }
  }

  /**
   * What a fragment built from an accepted reply holds: the fixed keys, the
   * tag, the user's name and URL, the days wasted, the counters and the lists
   * read from the reply.
   */
  ghost predicate Describes(r: Dict, reply: Option<Reply>)
    requires Accepted(reply) && reply.value.body.value.data.Some? && reply.value.body.value.data.value.user.Some?
  {
    var data := reply.value.body.value.data.value;
    var user := data.user.value;
    && Keys(r) == FragmentKeys
    && r[0].1 == VStr("anime") && r[1].1 == user.name && r[18].1 == user.siteUrl
    && user.statistics.Some? && user.statistics.value.anime.Some? && user.statistics.value.manga.Some?
    && var anime := user.statistics.value.anime.value;
    && var manga := user.statistics.value.manga.value;
    && Some(r[2].1) == DaysWasted(anime.minutesWatched)
    && r[3].1 == anime.episodesWatched
    && r[10].1 == manga.chaptersRead && r[11].1 == manga.volumesRead
    && ListTitles(data.animeWatching, TitleLimit).Some? && r[6].1 == VList(ListTitles(data.animeWatching, TitleLimit).value)
    && ListTitles(data.animeCompleted, TitleLimit).Some? && r[7].1 == VList(ListTitles(data.animeCompleted, TitleLimit).value)
    && ListTitles(data.mangaReading, TitleLimit).Some? && r[14].1 == VList(ListTitles(data.mangaReading, TitleLimit).value)
    && ListTitles(data.mangaCompleted, TitleLimit).Some? && r[15].1 == VList(ListTitles(data.mangaCompleted, TitleLimit).value)
    && anime.genres.Some? && r[8].1 == VList(Genres(anime.genres.value))
    && manga.genres.Some? && r[16].1 == VList(Genres(manga.genres.value))
  }

  /** `AnimeService.get_roast_data`, given the reply (`None` when the request raised). */
  method GetRoastData(reply: Option<Reply>) returns (r: Dict)
    ensures !Accepted(reply) ==> r == []
    ensures Complete(reply) ==> r != []
    ensures r != [] ==> (Accepted(reply) && reply.value.body.value.data.Some? &&
                         reply.value.body.value.data.value.user.Some?)
    ensures r != [] ==> Describes(r, reply)
  {
    if !Accepted(reply) || reply.value.body.value.data.None? {
      return [];
    }
    var data := reply.value.body.value.data.value;
    if data.user.None? || data.user.value.statistics.None? {
      return [];
    }
    var user := data.user.value;
    var stats := user.statistics.value;
    if stats.anime.None? || stats.manga.None? {
      return [];
    }
    var anime, manga := stats.anime.value, stats.manga.value;
    var days := DaysWasted(anime.minutesWatched);
    if days.None? {
      return [];
    }
    var animeWatching := StatusCount(anime.statuses, "CURRENT");
    var animeCompleted := StatusCount(anime.statuses, "COMPLETED");
    var mangaReading := StatusCount(manga.statuses, "CURRENT");
    var mangaCompleted := StatusCount(manga.statuses, "COMPLETED");
    if animeWatching.None? || mangaReading.None? {
      return [];
    }
    var watchingList := ExtractFromLists(data.animeWatching, TitleLimit);
    var completedList := ExtractFromLists(data.animeCompleted, TitleLimit);
    var readingList := ExtractFromLists(data.mangaReading, TitleLimit);
    var readList := ExtractFromLists(data.mangaCompleted, TitleLimit);
    if Complete(reply) {
      ListTitlesComplete(data.animeWatching, TitleLimit);
      ListTitlesComplete(data.animeCompleted, TitleLimit);
      ListTitlesComplete(data.mangaReading, TitleLimit);
      ListTitlesComplete(data.mangaCompleted, TitleLimit);
    }
    if watchingList.None? || completedList.None? || readingList.None? || readList.None? {
      return [];
    }
    if anime.genres.None? || manga.genres.None? || user.favourites.None? {
      return [];
    }
    var favAnime := FavouriteTitles(user.favourites.value.anime);
    var favManga := FavouriteTitles(user.favourites.value.manga);
    if favAnime.None? || favManga.None? {
      return [];
    }
    var fragment := Fragment(user.name, days.value, anime.episodesWatched,
                             animeWatching.value, animeCompleted.value, watchingList.value, completedList.value,
                             Genres(anime.genres.value), favAnime.value,
                             manga.chaptersRead, manga.volumesRead, mangaReading.value, mangaCompleted.value,
                             readingList.value, readList.value, Genres(manga.genres.value), favManga.value,
                             user.siteUrl);
    r := fragment.AsDict();
  }
}
