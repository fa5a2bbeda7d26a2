/**
 * The front end's game-list helpers: the winner of a finished game, the
 * "away vs home" label, and the search over the six built-in games that
 * the page falls back to while the server cannot answer.
 */
module NflApiClient {
  import opened Text

  datatype NflGame = NflGame(
    gameId: string, homeTeam: string, awayTeam: string,
    homeScore: int, awayScore: int,
    week: int, season: int, gameday: string, gametime: string)

  datatype Winner = Home | Away | Tie

  /** `getWinner`. */
  function GetWinner(g: NflGame): (w: Winner)
    ensures w == Home <==> g.homeScore > g.awayScore
    ensures w == Away <==> g.awayScore > g.homeScore
    ensures w == Tie <==> g.homeScore == g.awayScore
  {
    if g.homeScore > g.awayScore then Home
    else if g.awayScore > g.homeScore then Away
    else Tie
  }

  /** `formatTeamsString`: the visiting team first. */
  function FormatTeams(g: NflGame): string {
    g.awayTeam + " vs " + g.homeTeam
  }

  /** The label splits back into the two teams around the separator. */
  lemma FormatTeamsSplits(g: NflGame)
    ensures var s := FormatTeams(g);
      && |s| == |g.awayTeam| + 4 + |g.homeTeam|
      && s[..|g.awayTeam|] == g.awayTeam
      && s[|g.awayTeam|..|g.awayTeam| + 4] == " vs "
      && s[|g.awayTeam| + 4..] == g.homeTeam
  {
  }

  /** `getFallbackGames`. */
  const FallbackGames: seq<NflGame> := [
    NflGame("2024_03_PHI_DAL", "DAL", "PHI", 24, 28, 3, 2024, "2024-09-15", "20:30:00"),
    NflGame("2024_05_KC_BUF", "BUF", "KC", 21, 31, 5, 2024, "2024-09-29", "20:30:00"),
    NflGame("2024_06_GB_MIN", "MIN", "GB", 17, 24, 6, 2024, "2024-10-06", "13:00:00"),
    NflGame("2024_07_NE_MIA", "MIA", "NE", 14, 10, 7, 2024, "2024-10-13", "13:00:00"),
    NflGame("2024_08_PIT_BAL", "BAL", "PIT", 27, 24, 8, 2024, "2024-10-20", "20:30:00"),
    NflGame("2024_09_SF_SEA", "SEA", "SF", 20, 35, 9, 2024, "2024-10-27", "16:25:00")]

  /** The team names the fallback search knows, in object order. */
  const TeamNameMap: seq<(string, string)> := [
    ("eagles", "PHI"), ("philadelphia", "PHI"),
    ("cowboys", "DAL"), ("dallas", "DAL"),
    ("chiefs", "KC"), ("kansas", "KC"),
    ("bills", "BUF"), ("buffalo", "BUF"),
    ("packers", "GB"), ("green bay", "GB"),
    ("vikings", "MIN"), ("minnesota", "MIN"),
    ("patriots", "NE"), ("new england", "NE"),
    ("dolphins", "MIA"), ("miami", "MIA"),
    ("steelers", "PIT"), ("pittsburgh", "PIT"),
    ("ravens", "BAL"), ("baltimore", "BAL"),
    ("49ers", "SF"), ("niners", "SF"), ("san francisco", "SF"),
    ("seahawks", "SEA"), ("seattle", "SEA")]

  predicate TeamMatch(term: string, g: NflGame) {
    Contains(Lower(g.homeTeam), term) || Contains(Lower(g.awayTeam), term)
  }

  /** Unlike the server's search, the search term must contain the team name. */
  predicate TeamNameMatch(term: string, g: NflGame) {
    exists i :: 0 <= i < |TeamNameMap| && Contains(term, TeamNameMap[i].0)
                && (g.homeTeam == TeamNameMap[i].1 || g.awayTeam == TeamNameMap[i].1)
  }

  predicate WeekMatch(term: string, g: NflGame) {
    Contains(term, "week") && Contains(term, IntToString(g.week))
  }

  predicate SeasonMatch(term: string, g: NflGame) {
    Contains(term, IntToString(g.season))
  }

  /** The callback given to `filter`. */
  predicate Matches(term: string, g: NflGame) {
    TeamMatch(term, g) || TeamNameMatch(term, g) || WeekMatch(term, g) || SeasonMatch(term, g)
  }

  /** `a` is `b` with some elements left out, the rest in their order. */
  predicate IsSubsequence(a: seq<NflGame>, b: seq<NflGame>)
    decreases |b|
  {
    a == [] || (b != [] && ((a[0] == b[0] && IsSubsequence(a[1..], b[1..])) || IsSubsequence(a, b[1..])))
  }

  /** `games.filter(game => Matches(term, game))`. */
  function Where(games: seq<NflGame>, term: string): (r: seq<NflGame>)
    ensures IsSubsequence(r, games)
    ensures forall g :: g in r <==> g in games && Matches(term, g)
  {
    if games == [] then []
    else
      var rest := Where(games[1..], term);
      assert forall g :: g in games <==> g == games[0] || g in games[1..];
      if Matches(term, games[0]) then
        assert ([games[0]] + rest)[1..] == rest;
        [games[0]] + rest
      else
        assert rest == [] || IsSubsequence(rest, games[1..]);
        rest
  }

  /** `searchFallbackGames`. */
  function SearchFallbackGames(query: string): (r: seq<NflGame>)
    ensures IsSubsequence(r, FallbackGames)
    ensures forall g :: g in r <==> g in FallbackGames && Matches(Lower(query), g)
  {
    Where(FallbackGames, Lower(query))
  }

  /** A filter that every game passes returns the list unchanged. */
  lemma {:induction false} WhereKeepsAll(games: seq<NflGame>, term: string)
    requires forall i :: 0 <= i < |games| ==> Matches(term, games[i])
    ensures Where(games, term) == games
  {
    if games != [] {
      WhereKeepsAll(games[1..], term);
    }
  }

  /** The empty query returns all six games: every string contains "". */
  lemma EmptyQueryReturnsAll()
    ensures SearchFallbackGames("") == FallbackGames
  {
    forall i | 0 <= i < |FallbackGames| ensures Matches("", FallbackGames[i]) {
      assert StartsWith(Lower(FallbackGames[i].homeTeam), "");
    }
    WhereKeepsAll(FallbackGames, "");
  }

  lemma SeasonText()
    ensures IntToString(2024) == "2024"
  {
    assert NatToString(2) == "2";
    assert NatToString(20) == "20";
    assert NatToString(202) == "202";
  }

  /** The query "2024" returns all six games, through their season. */
  lemma SeasonQueryReturnsAll()
    ensures SearchFallbackGames("2024") == FallbackGames
  {
    SeasonText();
    ContainsItself("2024");
    assert Lower("2024") == "2024";
    forall i | 0 <= i < |FallbackGames| ensures Matches("2024", FallbackGames[i]) {
      assert FallbackGames[i].season == 2024;
    }
    WhereKeepsAll(FallbackGames, "2024");
  }

  /** A team name finds that team's fallback game even though the abbreviation differs. */
  lemma NameFindsTeam()
    ensures FallbackGames[0] in SearchFallbackGames("eagles")
  {
    LowerKeepsLowerCase("eagles");
    ContainsItself("eagles");
    assert TeamNameMap[0] == ("eagles", "PHI");
    assert TeamNameMatch("eagles", FallbackGames[0]);
  }
}
