/**
 * The combined profile of app/models/user_data.py: four per-source fragments plus
 * the user-supplied identifiers, the derived `sources` list and the prompt block.
 */
module UserData {
  import opened Json
  import opened Text
  import opened Wrappers

  /** What the prompt says when no section was produced. */
  const Sentinel := "No telemetry received. " + "Invent a roast anyway."

  /** The fixed priority order of the four sources. */
  const SourceOrder: seq<string> := ["Spotify", "Valorant", "AniList", "Steam"]

  const IdentifiersHeading := "User Provided Identifiers"

  /** The heading of a source's data section, e.g. "Steam Data". */
  function DataHeading(name: string): string
  {
    name + " Data"
  }

  /** A piece of an f-string: literal text or an interpolated value. */
  datatype Piece = Lit(text: string) | Val(value: Value)

  /** The f-string's text: literals as they are, values as `str` renders them. */
  function Interpolate(pieces: seq<Piece>): string
  {
    if pieces == [] then ""
    else (match pieces[0] case Lit(t) => t case Val(v) => Show(v)) + Interpolate(pieces[1..])
  }

  /** A prompt section: its heading line and its body, an f-string. */
  datatype Section = Section(heading: string, body: seq<Piece>) {
    function Render(): string
    {
      heading + ":\n" + Interpolate(body)
    }
  }

  /** `spotify or {}`: a missing or empty argument becomes the empty dict. */
  function Normalize(arg: Option<Dict>): (d: Dict)
    ensures d != [] <==> arg.Some? && arg.value != []
    ensures d != [] ==> d == arg.value
  {
    if arg.Some? && arg.value != [] then arg.value else []
  }

  /** `CombinedUserData(spotify, valorant, anime, steam, inputs)`. */
  function Combine(spotify: Option<Dict>, valorant: Option<Dict>, anime: Option<Dict>,
                   steam: Option<Dict>, inputs: Option<Dict>): CombinedUserData
  {
    CombinedUserData(Normalize(spotify), Normalize(valorant), Normalize(anime),
                     Normalize(steam), Normalize(inputs))
  }

  datatype CombinedUserData = CombinedUserData(
    spotify: Dict, valorant: Dict, anime: Dict, steam: Dict, inputs: Dict)
  {
    /** The fragment a source name stands for. */
    function Fragment(name: string): Dict
    {
      if name == "Spotify" then spotify
      else if name == "Valorant" then valorant
      else if name == "AniList" then anime
      else if name == "Steam" then steam
      else []
    }

    /** The `sources` list of `as_dict`. */
    function Sources(): seq<string>
    {
      (if spotify != [] then ["Spotify"] else [])
      + (if valorant != [] then ["Valorant"] else [])
      + (if anime != [] then ["AniList"] else [])
      + (if steam != [] then ["Steam"] else [])
    }

    /** `as_dict()`: the stored fragments and inputs, unchanged, and the sources. */
    function AsDict(): (r: Dict)
      ensures Keys(r) == ["spotify", "valorant", "anime", "steam", "inputs", "sources"]
      ensures Get(r, "spotify") == VDict(spotify) && Get(r, "valorant") == VDict(valorant)
      ensures Get(r, "anime") == VDict(anime) && Get(r, "steam") == VDict(steam)
      ensures Get(r, "inputs") == VDict(inputs)
      ensures Get(r, "sources").VList? && |Get(r, "sources").items| == |Sources()|
      ensures forall i :: 0 <= i < |Sources()| ==> Get(r, "sources").items[i] == VStr(Sources()[i])
    {
      var names := Sources();
      var r := [("spotify", VDict(spotify)), ("valorant", VDict(valorant)), ("anime", VDict(anime)),
                ("steam", VDict(steam)), ("inputs", VDict(inputs)),
                ("sources", VList(seq(|names|, i requires 0 <= i < |names| => VStr(names[i]))))];
      assert r[1..][1..] == r[2..] && r[2..][1..] == r[3..] && r[3..][1..] == r[4..] && r[4..][1..] == r[5..];
      assert Get(r[5..], "sources") == r[5].1;
      assert Get(r[4..], "inputs") == VDict(inputs) && Get(r[4..], "sources") == r[5].1;
      assert Get(r[3..], "steam") == VDict(steam) && Get(r[3..], "inputs") == VDict(inputs);
      assert Get(r[3..], "sources") == r[5].1;
      assert Get(r[2..], "anime") == VDict(anime) && Get(r[2..], "steam") == VDict(steam);
      assert Get(r[2..], "inputs") == VDict(inputs) && Get(r[2..], "sources") == r[5].1;
      assert Get(r, "inputs") == VDict(inputs) && Get(r, "sources") == r[5].1;
      r
    }

    function SpotifySection(): Section
    {
      Section(DataHeading("Spotify"),
        [Lit("Top Artists: "), Val(Get(spotify, "top_artists")),
         Lit("\nRecent Tracks: "), Val(Get(spotify, "recent_tracks"))])
    }

    function ValorantSection(): Section
    {
      Section(DataHeading("Valorant"),
        [Lit("IGN: "), Val(Get(valorant, "ign")),
         Lit("\nRank: "), Val(Get(valorant, "rank")),
         Lit(" (ELO "), Val(Get(valorant, "elo")),
         Lit(")\nK/D Ratio: "), Val(Get(valorant, "k_d_ratio")),
         Lit("\nHeadshot Rate: "), Val(Get(valorant, "headshot_rate")),
         Lit("%\nMain Agent: "), Val(Get(valorant, "main_agent")),
         Lit("\nRecent Matches: "), Val(Get(valorant, "recent_matches"))])
    }

    function AnimeSection(): Section
    {
      Section(DataHeading("AniList"),
        [Lit("Username: "), Val(Get(anime, "username")),
         Lit("\nDays Wasted Watching: "), Val(Get(anime, "days_wasted")),
         Lit("\nTotal Episodes Watched: "), Val(Get(anime, "total_episodes")),
         Lit("\nAnime Watching Count: "), Val(Get(anime, "anime_watching")),
         Lit("\nAnime Completed Count: "), Val(Get(anime, "anime_completed")),
         Lit("\nCurrently Watching: "), Val(Get(anime, "anime_watching_list")),
         Lit("\nCompleted Anime (Top 10): "), Val(Get(anime, "anime_completed_list")),
         Lit("\nTop Anime Genres: "), Val(Get(anime, "top_anime_genres")),
         Lit("\nFavorite Anime: "), Val(Get(anime, "favorite_anime")),
         Lit("\nChapters Read: "), Val(Get(anime, "chapters_read")),
         Lit("\nVolumes Read: "), Val(Get(anime, "volumes_read")),
         Lit("\nManga Reading Count: "), Val(Get(anime, "manga_reading")),
         Lit("\nManga Completed Count: "), Val(Get(anime, "manga_completed")),
         Lit("\nCurrently Reading Manga: "), Val(Get(anime, "manga_reading_list")),
         Lit("\nCompleted Manga (Top 10): "), Val(Get(anime, "manga_completed_list")),
         Lit("\nTop Manga Genres: "), Val(Get(anime, "top_manga_genres")),
         Lit("\nFavorite Manga: "), Val(Get(anime, "favorite_manga"))])
    }

    function SteamSection(): Section
    {
      Section(DataHeading("Steam"),
        [Lit("Player: "), Val(Get(steam, "player_name")),
         Lit(" (SteamID: "), Val(Get(steam, "steam_id")),
         Lit(")\nProfile: "), Val(Get(steam, "profile_url")),
         Lit("\nTotal Playtime: "), Val(Get(steam, "total_playtime_hours")),
         Lit("h\nTop Games: "), Val(Get(steam, "top_games")),
         Lit("\nRecent Games: "), Val(Get(steam, "recent_games"))])
    }

    function SpotifyPart(): seq<Section>
    {
      if spotify != [] then [SpotifySection()] else []
    }

    function ValorantPart(): seq<Section>
    {
      if valorant != [] then [ValorantSection()] else []
    }

    function AnimePart(): seq<Section>
    {
      if anime != [] then [AnimeSection()] else []
    }

    function SteamPart(): seq<Section>
    {
      if steam != [] then [SteamSection()] else []
    }

    function IdentifiersPart(): seq<Section>
    {
      var summary := InputSummary();
      if summary != "" then [Section(IdentifiersHeading, [Lit(summary)])] else []
    }

    /** The sections `prompt_block` collects in `parts`, in order. */
    function Sections(): seq<Section>
    {
      SpotifyPart() + ValorantPart() + AnimePart() + SteamPart() + IdentifiersPart()
    }

    /** `prompt_block()`. */
    function PromptBlock(): string
    {
      JoinSections(Sections())
    }

    function SpotifyLines(): seq<string>
    {
      var spotifyName := Get(inputs, "spotify_name");
      if Truthy(spotifyName) then [SpotifyLine(spotifyName)] else []
    }

    function ValorantLines(): seq<string>
    {
      var valorantName := Get(inputs, "valorant_name");
      var valorantTag := Get(inputs, "valorant_tag");
      if Truthy(valorantName) && Truthy(valorantTag)
      then [ValorantLine(valorantName, valorantTag, Region(inputs))] else []
    }

    function AniListLines(): seq<string>
    {
      var anilistUser := Get(inputs, "anilist_user");
      if Truthy(anilistUser) then [AniListLine(anilistUser)] else []
    }

    function SteamLines(): seq<string>
    {
      var steamId := SteamIdentifier(inputs);
      if Truthy(steamId) then [SteamLine(steamId)] else []
    }

    /** The lines `_format_input_summary` collects, in order. */
    function SummaryLines(): seq<string>
    {
      SpotifyLines() + ValorantLines() + AniListLines() + SteamLines()
    }

    /** `_format_input_summary()`. */
    function InputSummary(): string
    {
      if inputs == [] then ""
      else
        var lines := SummaryLines();
        if lines == [] then "" else Join(lines, "\n")
    }
  }

  /** The sections rendered and separated by blank lines, or the sentinel when there are none. */
  function JoinSections(parts: seq<Section>): string
  {
    if parts == [] then Sentinel
    else Join(seq(|parts|, i requires 0 <= i < |parts| => parts[i].Render()), "\n\n")
  }

  function SpotifyLine(name: Value): string
  {
    "- Spotify account connected as " + Show(name) + "."
  }

  function ValorantLine(name: Value, tag: Value, region: string): string
  {
    "- Valorant IGN " + Show(name) + "#" + Show(tag) + " (" + region + ") provided even if stats are missing."
  }

  function AniListLine(user: Value): string
  {
    "- AniList profile submitted: " + Show(user) + "."
  }

  function SteamLine(id: Value): string
  {
    "- Steam identifier: " + Show(id) + "."
  }

  /** `steam_id or steam_vanity`. */
  function SteamIdentifier(inputs: Dict): Value
  {
    Or(Get(inputs, "steam_id"), Get(inputs, "steam_vanity"))
  }

  /**
   * `(valorant_region or "NA").upper()`: never holds a lower-case letter, spells the given region
   * letter for letter up to case, and is "NA" when no region was given.
   */
  function Region(inputs: Dict): (r: string)
    ensures forall i :: 0 <= i < |r| ==> !('a' <= r[i] <= 'z')
    ensures Truthy(Get(inputs, "valorant_region")) ==>
      |r| == |Show(Get(inputs, "valorant_region"))| && Lower(r) == Lower(Show(Get(inputs, "valorant_region")))
    ensures !Truthy(Get(inputs, "valorant_region")) ==> r == "NA"
  {
    var given := Get(inputs, "valorant_region");
    if Truthy(given) then
      var u := Upper(Show(given));
      assert forall i :: 0 <= i < |u| ==> Lower(u)[i] == Lower(Show(given))[i];
      u
    else
      assert Upper("NA") == "NA";
      Upper("NA")
  }

  /** The names of `names` whose fragments are non-empty, in the order of `names`. */
  function Present(c: CombinedUserData, names: seq<string>): seq<string>
  {
    if names == [] then []
    else (if c.Fragment(names[0]) != [] then [names[0]] else []) + Present(c, names[1..])
  }

  /** `sources` is the priority order filtered down to the non-empty fragments. */
  lemma SourcesFollowPriority(c: CombinedUserData)
    ensures c.Sources() == Present(c, SourceOrder)
  {
    var order := SourceOrder;
    assert order[1..] == ["Valorant", "AniList", "Steam"];
    assert order[1..][1..] == ["AniList", "Steam"];
    assert order[1..][1..][1..] == ["Steam"];
    assert Present(c, ["Steam"]) == (if c.steam != [] then ["Steam"] else []) + Present(c, []);
    assert Present(c, ["AniList", "Steam"]) == (if c.anime != [] then ["AniList"] else []) + Present(c, ["Steam"]);
    assert Present(c, ["Valorant", "AniList", "Steam"])
        == (if c.valorant != [] then ["Valorant"] else []) + Present(c, ["AniList", "Steam"]);
  }

  /** A name is in `sources` exactly when it is one of the four sources and its fragment is non-empty. */
  lemma SourcesExact(c: CombinedUserData, name: string)
    ensures name in c.Sources() <==> name in SourceOrder && c.Fragment(name) != []
  {
  }

  function Headings(sections: seq<Section>): seq<string>
  {
    if sections == [] then [] else [sections[0].heading] + Headings(sections[1..])
  }

  function DataHeadings(names: seq<string>): seq<string>
  {
    if names == [] then [] else [DataHeading(names[0])] + DataHeadings(names[1..])
  }

  lemma {:induction false} HeadingsAppend(a: seq<Section>, b: seq<Section>)
    ensures Headings(a + b) == Headings(a) + Headings(b)
  {
    if a == [] {
      assert a + b == b;
    } else {
      var ra, rb := Headings(a[1..]), Headings(b);
      assert Headings(a + b) == [a[0].heading] + Headings(a[1..] + b) by {
        assert (a + b)[0] == a[0] && (a + b)[1..] == a[1..] + b;
      }
      assert Headings(a[1..] + b) == ra + rb by {
        HeadingsAppend(a[1..], b);
      }
      assert [a[0].heading] + (ra + rb) == ([a[0].heading] + ra) + rb;
    }
  }

  lemma {:induction false} DataHeadingsAppend(a: seq<string>, b: seq<string>)
    ensures DataHeadings(a + b) == DataHeadings(a) + DataHeadings(b)
  {
    if a == [] {
      assert a + b == b;
    } else {
      var ra, rb := DataHeadings(a[1..]), DataHeadings(b);
      assert DataHeadings(a + b) == [DataHeading(a[0])] + DataHeadings(a[1..] + b) by {
        assert (a + b)[0] == a[0] && (a + b)[1..] == a[1..] + b;
      }
      assert DataHeadings(a[1..] + b) == ra + rb by {
        DataHeadingsAppend(a[1..], b);
      }
      assert [DataHeading(a[0])] + (ra + rb) == ([DataHeading(a[0])] + ra) + rb;
    }
  }

  lemma HeadingsOfOne(x: Section)
    ensures Headings([x]) == [x.heading]
  {
    assert [x][1..] == [];
  }

  lemma DataHeadingsOfOne(n: string)
    ensures DataHeadings([n]) == [DataHeading(n)]
  {
    assert [n][1..] == [];
  }

  /** A part holding the data section of `name` exactly when `present`. */
  predicate DataPart(part: seq<Section>, present: bool, name: string)
  {
    |part| <= 1 && (part != [] <==> present) && (present ==> part[0].heading == DataHeading(name))
  }

  /** Such a part contributes its heading, which does not look like the sentinel. */
  lemma DataPartFacts(part: seq<Section>, present: bool, name: string)
    requires DataPart(part, present, name) && name != "" && name[0] != 'N'
    ensures Headings(part) == DataHeadings(if present then [name] else [])
    ensures HeadingsUnlikeSentinel(part)
  {
    if present {
      HeadingsOfOne(part[0]);
      DataHeadingsOfOne(name);
      assert part == [part[0]];
    }
  }

  lemma SpotifyPartShape(c: CombinedUserData)
    ensures DataPart(c.SpotifyPart(), c.spotify != [], "Spotify")
  {
  }

  lemma ValorantPartShape(c: CombinedUserData)
    ensures DataPart(c.ValorantPart(), c.valorant != [], "Valorant")
  {
  }

  lemma AnimePartShape(c: CombinedUserData)
    ensures DataPart(c.AnimePart(), c.anime != [], "AniList")
  {
  }

  lemma SteamPartShape(c: CombinedUserData)
    ensures DataPart(c.SteamPart(), c.steam != [], "Steam")
  {
  }

  /** The identifier part holds its one section exactly when the summary is non-empty. */
  lemma IdentifiersPartFacts(c: CombinedUserData)
    ensures Headings(c.IdentifiersPart()) == if c.InputSummary() != "" then [IdentifiersHeading] else []
    ensures HeadingsUnlikeSentinel(c.IdentifiersPart())
  {
    if c.InputSummary() != "" {
      HeadingsOfOne(c.IdentifiersPart()[0]);
    }
  }

  /** The four data parts: their headings follow `sources`, and none looks like the sentinel. */
  lemma DataPartsFacts(c: CombinedUserData)
    ensures Headings(c.SpotifyPart()) == DataHeadings(if c.spotify != [] then ["Spotify"] else [])
    ensures Headings(c.ValorantPart()) == DataHeadings(if c.valorant != [] then ["Valorant"] else [])
    ensures Headings(c.AnimePart()) == DataHeadings(if c.anime != [] then ["AniList"] else [])
    ensures Headings(c.SteamPart()) == DataHeadings(if c.steam != [] then ["Steam"] else [])
    ensures HeadingsUnlikeSentinel(c.SpotifyPart()) && HeadingsUnlikeSentinel(c.ValorantPart())
    ensures HeadingsUnlikeSentinel(c.AnimePart()) && HeadingsUnlikeSentinel(c.SteamPart())
  {
    SpotifyPartShape(c);
    ValorantPartShape(c);
    AnimePartShape(c);
    SteamPartShape(c);
    DataPartFacts(c.SpotifyPart(), c.spotify != [], "Spotify");
    DataPartFacts(c.ValorantPart(), c.valorant != [], "Valorant");
    DataPartFacts(c.AnimePart(), c.anime != [], "AniList");
    DataPartFacts(c.SteamPart(), c.steam != [], "Steam");
  }

  /**
   * The prompt has one "<source> Data" section per entry of `sources`, in the same
   * order, followed by the identifier section when the summary is non-empty.
   */
  lemma SectionsFollowSources(c: CombinedUserData)
    ensures Headings(c.Sections()) ==
      DataHeadings(c.Sources()) + (if c.InputSummary() != "" then [IdentifiersHeading] else [])
  {
    var nsp := if c.spotify != [] then ["Spotify"] else [];
    var nva := if c.valorant != [] then ["Valorant"] else [];
    var nan := if c.anime != [] then ["AniList"] else [];
    var nst := if c.steam != [] then ["Steam"] else [];
    DataPartsFacts(c);
    IdentifiersPartFacts(c);
    ConcatHeadings(c.SpotifyPart(), c.ValorantPart(), c.AnimePart(), c.SteamPart(), c.IdentifiersPart(),
                   nsp, nva, nan, nst);
  }

  /** Four data parts and the identifier part, headed part by part. */
  lemma ConcatHeadings(sp: seq<Section>, va: seq<Section>, an: seq<Section>, st: seq<Section>,
                       id: seq<Section>, nsp: seq<string>, nva: seq<string>, nan: seq<string>,
                       nst: seq<string>)
    requires Headings(sp) == DataHeadings(nsp) && Headings(va) == DataHeadings(nva)
    requires Headings(an) == DataHeadings(nan) && Headings(st) == DataHeadings(nst)
    ensures Headings(sp + va + an + st + id) == DataHeadings(nsp + nva + nan + nst) + Headings(id)
  {
    HeadingsAppend(sp, va);
    HeadingsAppend(sp + va, an);
    HeadingsAppend(sp + va + an, st);
    HeadingsAppend(sp + va + an + st, id);
    DataHeadingsAppend(nsp, nva);
    DataHeadingsAppend(nsp + nva, nan);
    DataHeadingsAppend(nsp + nva + nan, nst);
  }

  /** No section heading is empty or starts like the sentinel. */
  predicate HeadingsUnlikeSentinel(sections: seq<Section>)
  {
    forall i :: 0 <= i < |sections| ==> sections[i].heading != "" && sections[i].heading[0] != 'N'
  }

  lemma SectionHeadingsUnlikeSentinel(c: CombinedUserData)
    ensures HeadingsUnlikeSentinel(c.Sections())
  {
    var sp, va, an, st, id := c.SpotifyPart(), c.ValorantPart(), c.AnimePart(), c.SteamPart(), c.IdentifiersPart();
    DataPartsFacts(c);
    IdentifiersPartFacts(c);
    UnlikeSentinelAppend(sp, va);
    UnlikeSentinelAppend(sp + va, an);
    UnlikeSentinelAppend(sp + va + an, st);
    UnlikeSentinelAppend(sp + va + an + st, id);
  }

  lemma UnlikeSentinelAppend(a: seq<Section>, b: seq<Section>)
    requires HeadingsUnlikeSentinel(a) && HeadingsUnlikeSentinel(b)
    ensures HeadingsUnlikeSentinel(a + b)
  {
    forall i | 0 <= i < |a + b|
      ensures (a + b)[i].heading != "" && (a + b)[i].heading[0] != 'N'
    {
      if i >= |a| {
        assert (a + b)[i] == b[i - |a|];
      }
    }
  }

  /** When any section exists, the prompt starts with the first section's heading line. */
  lemma PromptStartsWithFirstHeading(c: CombinedUserData)
    requires c.Sections() != []
    ensures var h := c.Sections()[0].heading + ":\n";
      |c.PromptBlock()| >= |h| && c.PromptBlock()[..|h|] == h
  {
    JoinStartsWithHeading(c.Sections());
  }

  lemma JoinStartsWithHeading(parts: seq<Section>)
    requires parts != []
    ensures var h := parts[0].heading + ":\n";
      |JoinSections(parts)| >= |h| && JoinSections(parts)[..|h|] == h
  {
    var h := parts[0].heading + ":\n";
    var rendered := seq(|parts|, i requires 0 <= i < |parts| => parts[i].Render());
    JoinStartsWithFirst(rendered, "\n\n");
    assert rendered[0] == h + Interpolate(parts[0].body);
    assert rendered[0][..|h|] == h;
  }

  /** `prompt_block` never returns an empty string. */
  lemma PromptNeverEmpty(c: CombinedUserData)
    ensures c.PromptBlock() != ""
  {
    if c.Sections() != [] {
      PromptStartsWithFirstHeading(c);
    }
  }

  /** The prompt is the sentinel exactly when every fragment is empty and no identifier line applies. */
  lemma PromptIsSentinelIff(c: CombinedUserData)
    ensures c.PromptBlock() == Sentinel <==> c.Sources() == [] && c.InputSummary() == ""
  {
    SectionHeadingsUnlikeSentinel(c);
    JoinSectionsIsSentinelIff(c.Sections());
  }

  /** Sections whose headings do not look like the sentinel join to it only when there are none. */
  lemma JoinSectionsIsSentinelIff(parts: seq<Section>)
    requires HeadingsUnlikeSentinel(parts)
    ensures JoinSections(parts) == Sentinel <==> parts == []
  {
    if parts != [] {
      JoinStartsWithHeading(parts);
      var h := parts[0].heading;
      assert JoinSections(parts)[0] == (h + ":\n")[0] == h[0] != 'N';
      assert Sentinel[0] == 'N';
    }
  }

  /** With no fragment at all, supplied identifiers alone still form the prompt. */
  lemma IdentifiersAloneFormPrompt(c: CombinedUserData)
    requires c.Sources() == [] && c.InputSummary() != ""
    ensures c.PromptBlock() == IdentifiersHeading + ":\n" + c.InputSummary()
  {
    var parts := c.Sections();
    assert parts == [Section(IdentifiersHeading, [Lit(c.InputSummary())])];
    assert Interpolate([Lit(c.InputSummary())]) == c.InputSummary() + Interpolate([]);
  }

  /** Every line is longer than two characters and starts with "- ". */
  predicate BulletLines(lines: seq<string>)
  {
    forall i :: 0 <= i < |lines| ==> |lines[i]| > 2 && lines[i][..2] == "- "
  }

  lemma BulletAppend(a: seq<string>, b: seq<string>)
    requires BulletLines(a) && BulletLines(b)
    ensures BulletLines(a + b)
  {
    forall i | 0 <= i < |a + b| ensures |(a + b)[i]| > 2 && (a + b)[i][..2] == "- " {
      if i >= |a| {
        assert (a + b)[i] == b[i - |a|];
      }
    }
  }

  /** Every summary line is non-empty and starts with "- ". */
  lemma SummaryLinesShape(c: CombinedUserData)
    ensures BulletLines(c.SummaryLines())
  {
    var sp, va, an, st := c.SpotifyLines(), c.ValorantLines(), c.AniListLines(), c.SteamLines();
    LineParts(c);
    BulletAppend(sp, va);
    BulletAppend(sp + va, an);
    BulletAppend(sp + va + an, st);
  }

  lemma SpotifyLineStart(name: Value)
    ensures var l := SpotifyLine(name); |l| > 2 && l[..2] == "- " && l[2] == 'S'
  {
  }

  lemma ValorantLineStart(name: Value, tag: Value, region: string)
    ensures var l := ValorantLine(name, tag, region); |l| > 15 && l[..15] == "- Valorant IGN "
  {
  }

  lemma AniListLineStart(user: Value)
    ensures var l := AniListLine(user); |l| > 2 && l[..2] == "- " && l[2] == 'A'
  {
  }

  lemma SteamLineStart(id: Value)
    ensures var l := SteamLine(id); |l| > 2 && l[..2] == "- " && l[2] == 'S'
  {
  }

  /** The four line groups: each a bullet list, with a 'V' in third place only in the Valorant one. */
  lemma LineParts(c: CombinedUserData)
    ensures BulletLines(c.SpotifyLines()) && VTagOnlyIf(c.SpotifyLines(), false)
    ensures BulletLines(c.ValorantLines()) && |c.ValorantLines()| <= 1
    ensures c.ValorantLines() != [] ==> IsValorantLine(c.ValorantLines()[0])
    ensures BulletLines(c.AniListLines()) && VTagOnlyIf(c.AniListLines(), false)
    ensures BulletLines(c.SteamLines()) && VTagOnlyIf(c.SteamLines(), false)
  {
    var name, tag := Get(c.inputs, "valorant_name"), Get(c.inputs, "valorant_tag");
    SpotifyLineStart(Get(c.inputs, "spotify_name"));
    ValorantLineStart(name, tag, Region(c.inputs));
    AniListLineStart(Get(c.inputs, "anilist_user"));
    SteamLineStart(SteamIdentifier(c.inputs));
    if c.ValorantLines() != [] {
      var l := c.ValorantLines()[0];
      assert l[..15][..2] == l[..2];
    }
  }

  /** The identifier summary is empty exactly when no identifier line applies. */
  lemma SummaryEmptyIff(c: CombinedUserData)
    ensures c.InputSummary() == "" <==>
      && !Truthy(Get(c.inputs, "spotify_name"))
      && !(Truthy(Get(c.inputs, "valorant_name")) && Truthy(Get(c.inputs, "valorant_tag")))
      && !Truthy(Get(c.inputs, "anilist_user"))
      && !Truthy(SteamIdentifier(c.inputs))
  {
    var lines := c.SummaryLines();
    SummaryLinesShape(c);
    JoinEmptyIff(lines, "\n");
    if c.inputs == [] {
      assert Get(c.inputs, "spotify_name") == VNone && Get(c.inputs, "valorant_name") == VNone;
      assert Get(c.inputs, "anilist_user") == VNone && Get(c.inputs, "steam_id") == VNone;
      assert Get(c.inputs, "steam_vanity") == VNone;
    }
    if |lines| == 1 {
      assert |lines[0]| > 2;
    }
  }

  predicate IsValorantLine(line: string)
  {
    |line| >= 15 && line[..15] == "- Valorant IGN "
  }

  /** Every line is longer than two characters, and a 'V' in third place only occurs when `ok`. */
  predicate VTagOnlyIf(lines: seq<string>, ok: bool)
  {
    forall i :: 0 <= i < |lines| ==> |lines[i]| > 2 && (lines[i][2] == 'V' ==> ok)
  }

  lemma VTagAppend(a: seq<string>, b: seq<string>, ok: bool)
    requires VTagOnlyIf(a, ok) && VTagOnlyIf(b, ok)
    ensures VTagOnlyIf(a + b, ok)
  {
    forall i | 0 <= i < |a + b| ensures |(a + b)[i]| > 2 && ((a + b)[i][2] == 'V' ==> ok) {
      if i >= |a| {
        assert (a + b)[i] == b[i - |a|];
      }
    }
  }

  /** A Valorant identifier line appears exactly when both the name and the tag are given. */
  lemma ValorantLineNeedsNameAndTag(c: CombinedUserData)
    ensures (exists i :: 0 <= i < |c.SummaryLines()| && IsValorantLine(c.SummaryLines()[i])) <==>
      Truthy(Get(c.inputs, "valorant_name")) && Truthy(Get(c.inputs, "valorant_tag"))
    ensures Truthy(Get(c.inputs, "valorant_name")) && Truthy(Get(c.inputs, "valorant_tag")) ==>
      ValorantLine(Get(c.inputs, "valorant_name"), Get(c.inputs, "valorant_tag"), Region(c.inputs)) in c.SummaryLines()
  {
    var ok := c.ValorantLines() != [];
    var sp, va, an, st := c.SpotifyLines(), c.ValorantLines(), c.AniListLines(), c.SteamLines();
    LineParts(c);
    VTagWeaken(sp, ok);
    VTagWeaken(an, ok);
    VTagWeaken(st, ok);
    assert VTagOnlyIf(va, ok) by {
      if ok {
        assert va[0][..15][2] == va[0][2];
      }
    }
    VTagAppend(sp, va, ok);
    VTagAppend(sp + va, an, ok);
    VTagAppend(sp + va + an, st, ok);
    var lines := c.SummaryLines();
    forall i | 0 <= i < |lines| && IsValorantLine(lines[i]) ensures ok {
      assert lines[i][2] == lines[i][..15][2] == "- Valorant IGN "[2];
    }
    if ok {
      assert lines[|sp|] == va[0];
    }
  }

  lemma VTagWeaken(lines: seq<string>, ok: bool)
    requires VTagOnlyIf(lines, false)
    ensures VTagOnlyIf(lines, ok)
  {
  }

  /**
   * The summary has exactly one Steam line, showing `steam_id` when it is given and `steam_vanity`
   * only otherwise, and none when neither is given.
   */
  lemma SteamLinePrefersId(c: CombinedUserData)
    ensures Truthy(Get(c.inputs, "steam_id")) ==>
      c.SteamLines() == [SteamLine(Get(c.inputs, "steam_id"))] &&
      SteamLine(Get(c.inputs, "steam_id")) in c.SummaryLines()
    ensures !Truthy(Get(c.inputs, "steam_id")) && Truthy(Get(c.inputs, "steam_vanity")) ==>
      c.SteamLines() == [SteamLine(Get(c.inputs, "steam_vanity"))] &&
      SteamLine(Get(c.inputs, "steam_vanity")) in c.SummaryLines()
    ensures !Truthy(Get(c.inputs, "steam_id")) && !Truthy(Get(c.inputs, "steam_vanity")) ==>
      c.SteamLines() == []
  {
    var lines := c.SummaryLines();
    if Truthy(SteamIdentifier(c.inputs)) {
      assert lines[|lines| - 1] == SteamLine(SteamIdentifier(c.inputs));
    }
  }
}
