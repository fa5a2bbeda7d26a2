/**
 * The game lists of the API server: the finished games of the loaded
 * schedule, newest first; the search filters (`latest`, `player:`,
 * `type:`, `season:` and free text); and the popular-game selection.
 * The schedule is a sequence of rows; a failed load of the data set is
 * modelled by `None`.
 */
module Schedule {
  import opened Common
  import opened Text

  /** One row of the season schedule; games not yet played have no scores. */
  datatype ScheduleRow = ScheduleRow(
    gameId: string, homeTeam: string, awayTeam: string,
    homeScore: Option<int>, awayScore: Option<int>,
    week: int, season: int, gameday: string, gametime: string)

  /** A finished game as the endpoints return it. */
  datatype Game = Game(
    gameId: string, homeTeam: string, awayTeam: string,
    homeScore: int, awayScore: int,
    week: int, season: int, gameday: string, gametime: string)

  predicate Played(row: ScheduleRow) {
    row.homeScore.Some? && row.awayScore.Some?
  }

  function GameOf(row: ScheduleRow): Game
    requires Played(row)
  {
    Game(row.gameId, row.homeTeam, row.awayTeam, row.homeScore.value, row.awayScore.value,
         row.week, row.season, row.gameday, row.gametime)
  }

  /** The rows that have both scores, as games, in schedule order. */
  function PlayedGames(rows: seq<ScheduleRow>): (r: seq<Game>)
    ensures |r| <= |rows|
    ensures forall g :: g in r <==> exists row :: row in rows && Played(row) && GameOf(row) == g
  {
    if rows == [] then []
    else
      var last := rows[|rows| - 1];
      assert forall row :: row in rows <==> row in rows[..|rows| - 1] || row == last;
      PlayedGames(rows[..|rows| - 1]) + (if Played(last) then [GameOf(last)] else [])
  }

  // ---------------------------------------------------------------------
  // Ordering by (season, week), most recent first
  // ---------------------------------------------------------------------

  /** `a` is from the same or a later (season, week) than `b`. */
  predicate AtLeastAsRecent(a: Game, b: Game) {
    a.season > b.season || (a.season == b.season && a.week >= b.week)
  }

  predicate NewestFirst(s: seq<Game>) {
    forall i, j :: 0 <= i < j < |s| ==> AtLeastAsRecent(s[i], s[j])
  }

  predicate SameKey(g: Game, season: int, week: int) {
    g.season == season && g.week == week
  }

  /** The games of one (season, week), in the order they appear. */
  function WithKey(s: seq<Game>, season: int, week: int): (r: seq<Game>)
    ensures |r| <= |s|
  {
    if s == [] then []
    else (if SameKey(s[0], season, week) then [s[0]] else []) + WithKey(s[1..], season, week)
  }

  lemma {:induction false} WithKeyMembers(s: seq<Game>, season: int, week: int, g: Game)
    ensures g in WithKey(s, season, week) <==> g in s && SameKey(g, season, week)
  {
    if s != [] {
      WithKeyMembers(s[1..], season, week, g);
      assert s == [s[0]] + s[1..];
    }
  }

  lemma WithKeySingle(g: Game, season: int, week: int)
    ensures WithKey([g], season, week) == if SameKey(g, season, week) then [g] else []
  {
    assert [g][1..] == [];
  }

  lemma {:induction false} NoneWithKey(s: seq<Game>, season: int, week: int)
    requires forall i :: 0 <= i < |s| ==> !SameKey(s[i], season, week)
    ensures WithKey(s, season, week) == []
  {
    if s != [] {
      NoneWithKey(s[1..], season, week);
    }
  }

  lemma {:induction false} WithKeyAppend(a: seq<Game>, b: seq<Game>, season: int, week: int)
    ensures WithKey(a + b, season, week) == WithKey(a, season, week) + WithKey(b, season, week)
  {
    if a == [] {
      assert a + b == b;
    } else {
      var head := if SameKey(a[0], season, week) then [a[0]] else [];
      calc {
        WithKey(a + b, season, week);
        head + WithKey((a + b)[1..], season, week);
        { assert (a + b)[1..] == a[1..] + b; WithKeyAppend(a[1..], b, season, week); }
        head + (WithKey(a[1..], season, week) + WithKey(b, season, week));
        (head + WithKey(a[1..], season, week)) + WithKey(b, season, week);
      }
    }
  }

  /**
   * Places `g` after every game at least as recent as it: inserting the
   * games of a list one by one keeps games of equal (season, week) in their
   * original order, as Python's stable `sort(..., reverse=True)` does.
   */
  function Insert(s: seq<Game>, g: Game): (r: seq<Game>)
    ensures |r| == |s| + 1
    ensures multiset(r) == multiset(s) + multiset{g}
  {
    if s == [] then [g]
    else if AtLeastAsRecent(s[0], g) then
      assert s == [s[0]] + s[1..];
      [s[0]] + Insert(s[1..], g)
    else
      [g] + s
  }

  /** Inserting into a newest-first list keeps it newest first. */
  lemma {:induction false} InsertKeepsOrder(s: seq<Game>, g: Game)
    requires NewestFirst(s)
    ensures NewestFirst(Insert(s, g))
  {
    if s != [] && AtLeastAsRecent(s[0], g) {
      var rest := Insert(s[1..], g);
      InsertKeepsOrder(s[1..], g);
      assert Insert(s, g) == [s[0]] + rest;
      forall x | x in rest ensures AtLeastAsRecent(s[0], x) {
        assert x in multiset(rest);
        if x != g {
          assert x in multiset(s[1..]);
          var j :| 0 <= j < |s[1..]| && s[1..][j] == x;
          assert s[j + 1] == x;
        }
      }
      forall i, j | 0 <= i < j < |Insert(s, g)| ensures AtLeastAsRecent(Insert(s, g)[i], Insert(s, g)[j]) {
        if i == 0 {
          assert Insert(s, g)[j] == rest[j - 1];
          assert rest[j - 1] in rest;
        } else {
          assert Insert(s, g)[i] == rest[i - 1] && Insert(s, g)[j] == rest[j - 1];
        }
      }
    }
  }

  /** A game newer than the head of a newest-first list goes in front, alone in its group. */
  lemma {:induction false} InsertInFrontGroups(s: seq<Game>, g: Game, season: int, week: int)
    requires NewestFirst(s) && s != [] && !AtLeastAsRecent(s[0], g)
    ensures WithKey([g] + s, season, week)
         == WithKey(s, season, week) + (if SameKey(g, season, week) then [g] else [])
  {
    WithKeyAppend([g], s, season, week);
    WithKeySingle(g, season, week);
    if SameKey(g, season, week) {
      forall j | 0 <= j < |s| ensures !SameKey(s[j], season, week) {
        assert j == 0 || AtLeastAsRecent(s[0], s[j]);
      }
      NoneWithKey(s, season, week);
    }
  }

  /** A game no newer than the head goes behind it, so the head's group entry stays first. */
  lemma InsertBehindGroups(s: seq<Game>, g: Game, season: int, week: int)
    requires s != [] && AtLeastAsRecent(s[0], g)
    ensures WithKey(Insert(s, g), season, week)
         == (if SameKey(s[0], season, week) then [s[0]] else []) + WithKey(Insert(s[1..], g), season, week)
    ensures WithKey(s, season, week)
         == (if SameKey(s[0], season, week) then [s[0]] else []) + WithKey(s[1..], season, week)
  {
    var r := Insert(s, g);
    assert r == [s[0]] + Insert(s[1..], g);
    assert r[0] == s[0] && r[1..] == Insert(s[1..], g);
  }

  /** Inserting a game extends its (season, week) group at the end and leaves the others alone. */
  lemma {:induction false} InsertKeepsGroups(s: seq<Game>, g: Game, season: int, week: int)
    requires NewestFirst(s)
    ensures WithKey(Insert(s, g), season, week)
         == WithKey(s, season, week) + (if SameKey(g, season, week) then [g] else [])
  {
    if s == [] {
      WithKeySingle(g, season, week);
    } else if AtLeastAsRecent(s[0], g) {
      var tail := s[1..];
      assert NewestFirst(tail) by {
        forall i, j | 0 <= i < j < |tail| ensures AtLeastAsRecent(tail[i], tail[j]) {
          assert tail[i] == s[i + 1] && tail[j] == s[j + 1];
        }
      }
      InsertKeepsGroups(tail, g, season, week);
      InsertBehindGroups(s, g, season, week);
    } else {
      assert Insert(s, g) == [g] + s;
      InsertInFrontGroups(s, g, season, week);
    }
  }

  /** `sort(key=(season, week), reverse=True)`: stable, most recent first. */
  function SortNewestFirst(s: seq<Game>): (r: seq<Game>)
    ensures |r| == |s|
    ensures multiset(r) == multiset(s)
    ensures NewestFirst(r)
  {
    if s == [] then []
    else
      assert s == s[..|s| - 1] + [s[|s| - 1]];
      var sorted := SortNewestFirst(s[..|s| - 1]);
      InsertKeepsOrder(sorted, s[|s| - 1]);
      Insert(sorted, s[|s| - 1])
  }

  /** Sorting is stable: each (season, week) group keeps its original order. */
  lemma {:induction false} SortIsStable(s: seq<Game>, season: int, week: int)
    ensures WithKey(SortNewestFirst(s), season, week) == WithKey(s, season, week)
  {
    if s != [] {
      var init, last := s[..|s| - 1], s[|s| - 1];
      var tail := if SameKey(last, season, week) then [last] else [];
      var sortedInit := SortNewestFirst(init);
      var grouped := WithKey(init, season, week);
      assert WithKey(s, season, week) == grouped + tail by {
        assert s == init + [last];
        WithKeyAppend(init, [last], season, week);
        WithKeySingle(last, season, week);
      }
      assert WithKey(Insert(sortedInit, last), season, week) == grouped + tail by {
        SortIsStable(init, season, week);
        InsertKeepsGroups(sortedInit, last, season, week);
      }
      assert SortNewestFirst(s) == Insert(sortedInit, last);

    }
  }

  /**
   * `get_game_scores`: the rows with both scores, as games, ordered by
   * (season, week) with the most recent first; an unloaded schedule gives
   * no games.
   */
  method GetGameScores(schedule: Option<seq<ScheduleRow>>) returns (games: seq<Game>)
    ensures schedule.None? ==> games == []
    ensures schedule.Some? ==> games == SortNewestFirst(PlayedGames(schedule.value))
    ensures NewestFirst(games)
    ensures schedule.Some? ==> multiset(games) == multiset(PlayedGames(schedule.value))
    ensures schedule.Some? ==> forall season, week ::
              WithKey(games, season, week) == WithKey(PlayedGames(schedule.value), season, week)
  {
    if schedule.None? {
      return [];
    }
    var rows := schedule.value;
    var list := [];
    for i := 0 to |rows|
      invariant list == PlayedGames(rows[..i])
    {
      assert rows[..i + 1][..i] == rows[..i];
      if !Played(rows[i]) {
        continue;
      }
      list := list + [GameOf(rows[i])];
    }
    assert rows[..|rows|] == rows;
    games := SortNewestFirst(list);
    forall season, week ensures WithKey(games, season, week) == WithKey(list, season, week) {
      SortIsStable(list, season, week);
    }
  }

  /** Every game returned has both scores taken from a row of the schedule. */
  lemma {:induction false} ListedGamesArePlayed(rows: seq<ScheduleRow>, g: Game)
    requires g in SortNewestFirst(PlayedGames(rows))
    ensures exists row :: row in rows && Played(row) && row.homeScore == Some(g.homeScore)
                          && row.awayScore == Some(g.awayScore) && row.gameId == g.gameId
  {
    var s := PlayedGames(rows);
    assert g in multiset(SortNewestFirst(s));
    assert g in s;
    var row :| row in rows && Played(row) && GameOf(row) == g;
  }

  // ---------------------------------------------------------------------
  // Search
  // ---------------------------------------------------------------------

  /** The kind of search a (stripped, lower-cased) query asks for. */
  datatype Criterion =
    | Latest
    | Player(name: string)
    | GameType(kind: string)
    | Season(text: string)
    | FreeText(query: string)

  function ParseQuery(query: string): Criterion {
    if StartsWith(query, "player:") then Player(Strip(RemoveAll(query, "player:")))
    else if StartsWith(query, "type:") then GameType(Strip(RemoveAll(query, "type:")))
    else if StartsWith(query, "season:") then Season(Strip(RemoveAll(query, "season:")))
    else if query == "latest" then Latest
    else FreeText(query)
  }

  /** A prefix followed by a value that does not repeat it leaves the stripped value. */
  lemma {:induction false} PrefixedQuery(prefix: string, value: string)
    requires prefix != [] && !Contains(value, prefix)
    ensures RemoveAll(prefix + value, prefix) == value
  {
    assert StartsWith(prefix + value, prefix);
    assert (prefix + value)[|prefix|..] == value;
  }

  /** `player:<name>` asks for the games of that player's team. */
  lemma PlayerQuery(name: string)
    requires !Contains(name, "player:")
    ensures ParseQuery("player:" + name) == Player(Strip(name))
  {
    PrefixedQuery("player:", name);
  }

  /** `season:<text>` asks for the games of that season. */
  lemma SeasonQuery(text: string)
    requires !Contains(text, "season:")
    requires !StartsWith("season:" + text, "player:") && !StartsWith("season:" + text, "type:")
    ensures ParseQuery("season:" + text) == Season(Strip(text))
  {
    PrefixedQuery("season:", text);
  }

  const PlayerTeamMap: map<string, seq<string>> := map[
    "mahomes" := ["KC"], "allen" := ["BUF"], "rodgers" := ["NYJ"], "jackson" := ["BAL"],
    "prescott" := ["DAL"], "herbert" := ["LAC"], "burrow" := ["CIN"], "tua" := ["MIA"],
    "lamar" := ["BAL"], "josh allen" := ["BUF"], "patrick mahomes" := ["KC"],
    "dak" := ["DAL"], "aaron rodgers" := ["NYJ"], "joe burrow" := ["CIN"]]

  function PlayerTeams(name: string): seq<string> {
    if name in PlayerTeamMap then PlayerTeamMap[name] else []
  }

  /** Team names and nicknames with their abbreviations, in dictionary order. */
  const TeamNames: seq<(string, string)> := [
    ("eagles", "PHI"), ("philadelphia", "PHI"),
    ("cowboys", "DAL"), ("dallas", "DAL"),
    ("chiefs", "KC"), ("kansas", "KC"),
    ("bills", "BUF"), ("buffalo", "BUF"),
    ("packers", "GB"), ("green bay", "GB"),
    ("vikings", "MIN"), ("minnesota", "MIN"),
    ("patriots", "NE"), ("new england", "NE"),
    ("dolphins", "MIA"), ("miami", "MIA"),
    ("steelers", "PIT"), ("pittsburgh", "PIT"),
    ("ravens", "BAL"), ("baltimore", "BAL"),
    ("49ers", "SF"), ("niners", "SF"), ("san francisco", "SF"),
    ("seahawks", "SEA"), ("seattle", "SEA"),
    ("rams", "LA"), ("los angeles rams", "LA"),
    ("chargers", "LAC"), ("los angeles chargers", "LAC"),
    ("giants", "NYG"), ("new york giants", "NYG"),
    ("jets", "NYJ"), ("new york jets", "NYJ"),
    ("saints", "NO"), ("new orleans", "NO"),
    ("falcons", "ATL"), ("atlanta", "ATL"),
    ("panthers", "CAR"), ("carolina", "CAR"),
    ("buccaneers", "TB"), ("bucs", "TB"), ("tampa bay", "TB"),
    ("commanders", "WAS"), ("washington", "WAS"),
    ("bears", "CHI"), ("chicago", "CHI"),
    ("lions", "DET"), ("detroit", "DET"),
    ("titans", "TEN"), ("tennessee", "TEN"),
    ("jaguars", "JAX"), ("jacksonville", "JAX"),
    ("colts", "IND"), ("indianapolis", "IND"),
    ("texans", "HOU"), ("houston", "HOU"),
    ("browns", "CLE"), ("cleveland", "CLE"),
    ("bengals", "CIN"), ("cincinnati", "CIN"),
    ("broncos", "DEN"), ("denver", "DEN"),
    ("raiders", "LV"), ("las vegas", "LV"),
    ("cardinals", "ARI"), ("arizona", "ARI")]

  const RegularSeasonNames: seq<string> := ["regular", "regular season"]

  const PlayoffNames: seq<string> := ["playoff", "playoffs", "wild card", "divisional", "conference"]

  function SearchText(g: Game): string {
    Lower(g.homeTeam + " " + g.awayTeam + " week " + IntToString(g.week) + " " + IntToString(g.season))
  }

  function Variations(g: Game): seq<string> {
    [g.homeTeam + " vs " + g.awayTeam, g.awayTeam + " vs " + g.homeTeam,
     g.homeTeam + " " + g.awayTeam, g.awayTeam + " " + g.homeTeam]
  }

  /** Some team name containing the query maps to one of the game's teams. */
  predicate TeamNameHit(query: string, g: Game) {
    exists i :: 0 <= i < |TeamNames| && Contains(TeamNames[i].0, query)
                && (g.homeTeam == TeamNames[i].1 || g.awayTeam == TeamNames[i].1)
  }

  /**
   * The free-text test. The conditional expression takes the whole
   * or-chain as its value, so a game without a `gameday` never matches.
   */
  predicate TextMatches(query: string, g: Game) {
    g.gameday != []
    && (Contains(SearchText(g), query)
        || (exists v :: v in Variations(g) && Contains(Lower(v), query))
        || TeamNameHit(query, g)
        || Contains(Lower(g.gameday), query))
  }

  /** Whether a filtered search keeps a game. */
  predicate Keeps(c: Criterion, g: Game)
    requires !c.Latest?
  {
    match c
    case Player(name) => exists t :: t in PlayerTeams(name) && (t == g.homeTeam || t == g.awayTeam)
    case GameType(kind) =>
      (Lower(kind) in RegularSeasonNames && g.week <= 18) || (Lower(kind) in PlayoffNames && g.week > 18)
    case Season(text) =>
      (match FirstFourDigits(text)
       case Some(year) => g.season == year
       case None => Contains(text, IntToString(g.season)))
    case FreeText(query) => TextMatches(query, g)
  }

  /** The games a filtered search keeps, in list order. */
  function Matching(s: seq<Game>, c: Criterion): (r: seq<Game>)
    requires !c.Latest?
    ensures |r| <= |s|
    ensures forall g :: g in r <==> g in s && Keeps(c, g)
  {
    if s == [] then []
    else
      var last := s[|s| - 1];
      assert forall g :: g in s <==> g in s[..|s| - 1] || g == last;
      Matching(s[..|s| - 1], c) + (if Keeps(c, last) then [last] else [])
  }

  /** The loop over the team-name dictionary, stopping at the first hit. */
  method TeamNameMatch(query: string, g: Game) returns (found: bool)
    ensures found == TeamNameHit(query, g)
  {
    found := false;
    var i := 0;
    while i < |TeamNames|
      invariant 0 <= i <= |TeamNames|
      invariant !found ==> forall j :: 0 <= j < i ==>
        !(Contains(TeamNames[j].0, query) && (g.homeTeam == TeamNames[j].1 || g.awayTeam == TeamNames[j].1))
      invariant found ==> TeamNameHit(query, g)
      decreases if found then 0 else |TeamNames| - i
    {
      var (name, abbrev) := TeamNames[i];
      if Contains(name, query) && (g.homeTeam == abbrev || g.awayTeam == abbrev) {
        found := true;
        break;
      }
      i := i + 1;
    }
  }

  /** One game's test in the search loop. */
  method Test(c: Criterion, g: Game) returns (keep: bool)
    requires !c.Latest?
    ensures keep == Keeps(c, g)
  {
    if c.FreeText? {
      var teamNameMatch := TeamNameMatch(c.query, g);
      keep := g.gameday != [] &&
        (Contains(SearchText(g), c.query)
         || (exists v :: v in Variations(g) && Contains(Lower(v), c.query))
         || teamNameMatch
         || Contains(Lower(g.gameday), c.query));
    } else {
      keep := Keeps(c, g);
    }
  }

  /** The filtering loop of every search except `latest`. */
  method KeepMatching(games: seq<Game>, c: Criterion) returns (kept: seq<Game>)
    requires !c.Latest?
    ensures kept == Matching(games, c)
  {
    kept := [];
    for i := 0 to |games|
      invariant kept == Matching(games[..i], c)
    {
      assert games[..i + 1][..i] == games[..i];
      var keep := Test(c, games[i]);
      if keep {
        kept := kept + [games[i]];
      }
    }
    assert games[..|games|] == games;
  }

  /** A newest-first list starts with a game at least as recent as every other. */
  lemma {:induction false} HeadIsNewest(s: seq<Game>, g: Game)
    requires NewestFirst(s) && g in multiset(s)
    ensures AtLeastAsRecent(s[0], g)
  {
    var j :| 0 <= j < |s| && s[j] == g;
    assert j == 0 || AtLeastAsRecent(s[0], s[j]);
  }

  /** The head of the sorted list is the first game of its (season, week) in the original list. */
  lemma HeadLeadsItsGroup(games: seq<Game>)
    requires games != []
    ensures var head := SortNewestFirst(games)[0]; [head] <= WithKey(games, head.season, head.week)
  {
    var sorted := SortNewestFirst(games);
    var head := sorted[0];
    assert WithKey(sorted, head.season, head.week)
        == [head] + WithKey(sorted[1..], head.season, head.week);
    SortIsStable(games, head.season, head.week);
  }

  /**
   * `sorted(games, key=(season, week), reverse=True)[:1]`: a most recent
   * game, and since the sort is stable, the first of the most recent games
   * in list order.
   */
  function Newest(games: seq<Game>): (r: seq<Game>)
    ensures |r| == Min(1, |games|)
    ensures r != [] ==> r[0] in games && forall g :: g in games ==> AtLeastAsRecent(r[0], g)
    ensures r != [] ==> [r[0]] <= WithKey(games, r[0].season, r[0].week)
  {
    var sorted := SortNewestFirst(games);
    if games == [] then []
    else
      assert sorted[0] in multiset(games);
      assert forall g :: g in games ==> AtLeastAsRecent(sorted[0], g) by {
        forall g | g in games ensures AtLeastAsRecent(sorted[0], g) {
          HeadIsNewest(sorted, g);
        }
      }
      HeadLeadsItsGroup(games);
      sorted[..1]
  }

  /** The games a search keeps before the cap: the branches of `search_games`. */
  function Found(games: seq<Game>, c: Criterion): seq<Game> {
    if c.Latest? then Newest(games) else Matching(games, c)
  }

  /** The dispatch on the kind of query, over the loaded games. */
  method FilterGames(games: seq<Game>, c: Criterion) returns (filtered: seq<Game>)
    ensures filtered == Found(games, c)
  {
    if c.Latest? {
      filtered := Newest(games);
    } else {
      filtered := KeepMatching(games, c);
    }
  }

  /** What a query over a loaded schedule answers: the first 50 played games, newest first, it keeps. */
  function SearchAnswer(query: string, rows: seq<ScheduleRow>): seq<Game> {
    var found := Found(SortNewestFirst(PlayedGames(rows)), ParseQuery(query));
    found[..Min(50, |found|)]
  }

  /** The search over a schedule that loaded: the first 50 games the query keeps. */
  method SearchLoaded(query: string, rows: seq<ScheduleRow>) returns (games: seq<Game>)
    ensures games == SearchAnswer(query, rows)
  {
    var all := GetGameScores(Some(rows));
    var filtered := FilterGames(all, ParseQuery(query));
    games := filtered[..Min(50, |filtered|)];
  }

  /**
   * `search_games`: a blank query answers with no games before any data is
   * loaded; a failed load is an error; `latest` gives the most recent game;
   * every other query gives, in list order, the first 50 games its filter
   * keeps.
   */
  method SearchGames(q: string, schedule: Option<seq<ScheduleRow>>) returns (r: Result<seq<Game>>)
    ensures Lower(Strip(q)) == [] ==> r == Ok([])
    ensures Lower(Strip(q)) != [] && schedule.None? ==> r.Err?
    ensures Lower(Strip(q)) != [] && schedule.Some? ==> r == Ok(SearchAnswer(Lower(Strip(q)), schedule.value))
  {
    var query := Lower(Strip(q));
    if query == [] {
      return Ok([]);
    }
    if schedule.None? {
      return Err("Failed to load NFL data");
    }
    var games := SearchLoaded(query, schedule.value);
    r := Ok(games);
  }

  /** `latest` answers with at most one game, one at least as recent as every other. */
  lemma LatestQuery(games: seq<Game>)
    ensures |Found(games, ParseQuery("latest"))| == Min(1, |games|)
    ensures games != [] ==> Found(games, ParseQuery("latest"))[0] in games
    ensures forall g :: g in games ==> AtLeastAsRecent(Found(games, ParseQuery("latest"))[0], g)
  {
    assert "latest"[..5][0] != "type:"[0];
    assert ParseQuery("latest") == Latest;
  }

  /** A `type:` value that is neither a regular-season nor a playoff word keeps no game. */
  lemma UnknownGameTypeKeepsNothing(kind: string, games: seq<Game>)
    requires Lower(kind) !in RegularSeasonNames && Lower(kind) !in PlayoffNames
    ensures Matching(games, GameType(kind)) == []
  {
  }

  lemma RegularSeasonWord(g: Game)
    ensures Keeps(GameType("regular"), g) <==> g.week <= 18
  {
    LowerKeepsLowerCase("regular");
  }

  lemma PlayoffWord(g: Game)
    ensures Keeps(GameType("playoffs"), g) <==> g.week > 18
  {
    LowerKeepsLowerCase("playoffs");
  }

  /** `type:regular` keeps exactly the games of weeks 1 to 18, `type:playoffs` the later ones. */
  lemma {:induction false} GameTypeSplitsTheSeason(games: seq<Game>, g: Game)
    requires g in games
    ensures g in Matching(games, GameType("regular")) <==> g.week <= 18
    ensures g in Matching(games, GameType("playoffs")) <==> g.week > 18
  {
    RegularSeasonWord(g);
    PlayoffWord(g);
  }

  /** A season value with a four-digit year keeps exactly that year's games. */
  lemma {:induction false} SeasonYearKeepsThatSeason(games: seq<Game>, g: Game)
    requires g in games
    ensures g in Matching(games, Season("2025/26")) <==> g.season == 2025
  {
    var text := "2025/26";
    assert FourDigitsAt(text, 0);
    assert text[..4] == "2025";
    assert "2025"[..3] == "202" && "202"[..2] == "20" && "20"[..1] == "2" && "2"[..0] == "";
    assert DigitsValue("2") == 2;
    assert DigitsValue("20") == 20;
    assert DigitsValue("202") == 202;
    assert DigitsValue("2025") == 2025;
  }

  /** A free-text query never keeps a game whose `gameday` is empty. */
  lemma {:induction false} NoGamedayNeverMatches(games: seq<Game>, query: string)
    ensures forall g :: g in Matching(games, FreeText(query)) ==> g.gameday != []
  {
  }

  /** A team's nickname finds its games when they have a `gameday`. */
  lemma {:induction false} NicknameFindsTeam(games: seq<Game>, g: Game)
    requires g in games && g.gameday != [] && (g.homeTeam == "ARI" || g.awayTeam == "ARI")
    ensures g in Matching(games, FreeText("arizona"))
  {
    ContainsItself("arizona");
    assert TeamNames[65] == ("arizona", "ARI");
    assert TeamNameHit("arizona", g);
  }

  // ---------------------------------------------------------------------
  // Popular games
  // ---------------------------------------------------------------------

  const HighProfileTeams: seq<string> := ["KC", "BUF", "PHI", "DAL", "SF", "GB", "MIN", "BAL", "PIT"]

  predicate HighProfile(g: Game) {
    g.homeTeam in HighProfileTeams || g.awayTeam in HighProfileTeams
  }

  /** `max(games, key=season)['season']`. */
  function MaxSeason(games: seq<Game>): (r: int)
    requires games != []
    ensures exists g :: g in games && g.season == r
    ensures forall g :: g in games ==> g.season <= r
  {
    if |games| == 1 then games[0].season
    else
      var init := games[..|games| - 1];
      assert forall g :: g in games <==> g in init || g == games[|games| - 1];
      Max(MaxSeason(init), games[|games| - 1].season)
  }

  /** The largest week among the games of `season`. */
  function MaxWeek(games: seq<Game>, season: int): (r: int)
    requires exists g :: g in games && g.season == season
    ensures exists g :: g in games && g.season == season && g.week == r
    ensures forall g :: g in games && g.season == season ==> g.week <= r
  {
    var last := games[|games| - 1];
    var init := games[..|games| - 1];
    assert forall g :: g in games <==> g in init || g == last;
    if exists g :: g in init && g.season == season then
      var w := MaxWeek(init, season);
      if last.season == season then Max(w, last.week) else w
    else
      last.week
  }

  /** The games of one (season, week) in list order: the list comprehension. */
  function WeekGames(games: seq<Game>, season: int, week: int): (r: seq<Game>)
    ensures forall g :: g in r <==> g in games && SameKey(g, season, week)
  {
    forall g ensures g in WithKey(games, season, week) <==> g in games && SameKey(g, season, week) {
      WithKeyMembers(games, season, week, g);
    }
    WithKey(games, season, week)
  }

  /** High-profile games not among `latest`, in list order. */
  function OtherPopular(games: seq<Game>, latest: seq<Game>): (r: seq<Game>)
    ensures forall g :: g in r <==> g in games && g !in latest && HighProfile(g)
  {
    if games == [] then []
    else
      var last := games[|games| - 1];
      assert forall g :: g in games <==> g in games[..|games| - 1] || g == last;
      OtherPopular(games[..|games| - 1], latest)
        + (if last !in latest && HighProfile(last) then [last] else [])
  }

  /** The loop collecting high-profile games outside the latest week. */
  method OtherPopularGames(games: seq<Game>, latest: seq<Game>) returns (others: seq<Game>)
    ensures others == OtherPopular(games, latest)
  {
    others := [];
    for i := 0 to |games|
      invariant others == OtherPopular(games[..i], latest)
    {
      assert games[..i + 1][..i] == games[..i];
      var game := games[i];
      if game in latest {
        continue;
      }
      if game.homeTeam in HighProfileTeams || game.awayTeam in HighProfileTeams {
        others := others + [game];
      }
    }
    assert games[..|games|] == games;
  }

  /** The list `get_popular_games` cuts to six, or nothing for no games. */
  function PopularList(games: seq<Game>): seq<Game> {
    if games == [] then []
    else
      var season := MaxSeason(games);
      var latest := WeekGames(games, season, MaxWeek(games, season));
      latest + OtherPopular(games, latest)
  }

  /**
   * `get_popular_games`: every game of the latest week of the latest
   * season, then the other games with a high-profile team in list order,
   * the first six of them.
   */
  method PopularGames(schedule: Option<seq<ScheduleRow>>) returns (r: Result<seq<Game>>)
    ensures schedule.None? <==> r.Err?
    ensures schedule.Some? ==>
      var list := PopularList(SortNewestFirst(PlayedGames(schedule.value)));
      r == Ok(list[..Min(6, |list|)])
  {
    if schedule.None? {
      return Err("Failed to load NFL data");
    }
    var games := GetGameScores(schedule);
    var popular: seq<Game>;
    if games != [] {
      var latestSeason := MaxSeason(games);
      var latestWeek := MaxWeek(games, latestSeason);
      var latestWeekGames := WeekGames(games, latestSeason, latestWeek);
      var others := OtherPopularGames(games, latestWeekGames);
      popular := latestWeekGames + others;
    } else {
      popular := [];
    }
    r := Ok(popular[..Min(6, |popular|)]);
  }

  /** The latest season's latest week holds the most recent games of all. */
  predicate InLatestWeek(games: seq<Game>, g: Game)
    requires games != []
  {
    SameKey(g, MaxSeason(games), MaxWeek(games, MaxSeason(games)))
  }

  /**
   * What the popular list promises: every game comes from the list, games
   * of the latest week come before all others, each other game has a
   * high-profile team, no game of the latest week is left out before a
   * later one, and at most six are shown.
   */
  lemma {:induction false} PopularListShape(games: seq<Game>)
    requires games != []
    ensures var list := PopularList(games);
      && (forall g :: g in list ==> g in games && (InLatestWeek(games, g) || HighProfile(g)))
      && (forall i, j :: 0 <= i < j < |list| && InLatestWeek(games, list[j]) ==> InLatestWeek(games, list[i]))
      && (forall g :: g in games && InLatestWeek(games, g) ==> g in list)
  {
    var season := MaxSeason(games);
    var week := MaxWeek(games, season);
    var latest := WeekGames(games, season, week);
    var others := OtherPopular(games, latest);
    var list := latest + others;
    forall i, j | 0 <= i < j < |list| && InLatestWeek(games, list[j])
      ensures InLatestWeek(games, list[i])
    {
      if j >= |latest| {
        assert false;
      }
      assert list[i] in latest;
    }
    forall g | g in list ensures g in games && (InLatestWeek(games, g) || HighProfile(g)) {
      if g in latest {
      } else {
        assert g in others;
      }
    }
  }

  /** A game of the latest week of the latest season is at least as recent as any other game. */
  lemma {:induction false} LatestWeekIsMostRecent(games: seq<Game>, g: Game, h: Game)
    requires games != [] && g in games && h in games && InLatestWeek(games, g)
    ensures AtLeastAsRecent(g, h)
  {
  }
}
