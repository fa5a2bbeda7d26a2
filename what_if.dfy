/**
 * The rules of the play-by-play what-if command line: which plays are
 * turnovers, what a spot on the field is worth, the score up to the edited
 * play, the deterministic edits a user can make to a play, the counting of
 * simulated results and the play filters. Plays are plain records here: the
 * kind of event, the situation, the yards gained, the points recorded (which
 * may be missing), and the completion, fumble and kick flags.
 */
module WhatIfCli {
  import opened Common

  datatype EventKind = PassEvent | RushEvent | InterceptionEvent | FieldGoalEvent | XPEvent | PenaltyEvent | OtherEvent

  datatype CliPlay = CliPlay(
    kind: EventKind, qtr: int, gameSeconds: int, down: int, toGo: int, yardline100: int,
    yardsGained: int, posteam: string, points: Option<int>,
    isComplete: bool, isFumble: bool, isGood: bool)

  /** `is_turnover`: an interception, or any play with a fumble flag set. */
  predicate IsTurnover(p: CliPlay) {
    p.kind == InterceptionEvent || p.isFumble
  }

  /**
   * `get_field_position_value`, the second definition (the one Python keeps):
   * 6 inside the 10, 4 inside the 20, 2 inside the 40 and 1 elsewhere.
   */
  function FieldPositionValue(yardline100: int): (v: int)
    ensures v in {1, 2, 4, 6}
    ensures v == 6 <==> yardline100 <= 10
    ensures v >= 4 <==> yardline100 <= 20
    ensures v >= 2 <==> yardline100 <= 40
  {
    if yardline100 <= 10 then 6
    else if yardline100 <= 20 then 4
    else if yardline100 <= 40 then 2
    else 1
  }

  /** A spot closer to the goal line is worth at least as much. */
  lemma FieldPositionMonotone(a: int, b: int)
    requires a <= b
    ensures FieldPositionValue(a) >= FieldPositionValue(b)
  {
  }

  /** The points a play counts for in the score loops: `play.points and play.points > 0`. */
  function PositivePoints(p: CliPlay): (n: nat)
    ensures n > 0 <==> p.points.Some? && p.points.value > 0
    ensures n > 0 ==> n == p.points.value
  {
    if p.points.Some? && p.points.value > 0 then p.points.value else 0
  }

  /** The positive points of the plays of the home side (when `home`) or of every other team. */
  function SideTotal(plays: seq<CliPlay>, homeTeam: string, home: bool): (n: nat)
  {
    if plays == [] then 0
    else SideTotal(plays[..|plays| - 1], homeTeam, home)
         + (if (plays[|plays| - 1].posteam == homeTeam) == home then PositivePoints(plays[|plays| - 1]) else 0)
  }

  lemma {:induction false} SideTotalSnoc(plays: seq<CliPlay>, i: nat, homeTeam: string, home: bool)
    requires i < |plays|
    ensures SideTotal(plays[..i + 1], homeTeam, home)
         == SideTotal(plays[..i], homeTeam, home) + (if (plays[i].posteam == homeTeam) == home then PositivePoints(plays[i]) else 0)
  {
    assert plays[..i + 1][..i] == plays[..i];
  }

  /** A play credits its own side only. */
  lemma {:induction false} SideTotalsSplit(plays: seq<CliPlay>, homeTeam: string)
    ensures SideTotal(plays, homeTeam, true) + SideTotal(plays, homeTeam, false)
         == SideTotal(plays, "", true) + SideTotal(plays, "", false)
    decreases |plays|
  {
    if plays != [] {
      SideTotalsSplit(plays[..|plays| - 1], homeTeam);
    }
  }

  /**
   * The first loop of `simulate_game_from_point`: the score before the play
   * at `index`, adding up the positive points of every earlier play, to the
   * home side when its team is the home team and to the away side otherwise.
   */
  method ScoreBefore(plays: seq<CliPlay>, index: nat, homeTeam: string) returns (home: int, away: int)
    requires index < |plays|
    ensures home == SideTotal(plays[..index], homeTeam, true)
    ensures away == SideTotal(plays[..index], homeTeam, false)
  {
    home, away := 0, 0;
    for i := 0 to index
      invariant home == SideTotal(plays[..i], homeTeam, true)
      invariant away == SideTotal(plays[..i], homeTeam, false)
    {
      SideTotalSnoc(plays, i, homeTeam, true);
      SideTotalSnoc(plays, i, homeTeam, false);
      var play := plays[i];
      if play.points.Some? && play.points.value > 0 {
        if play.posteam == homeTeam {
          home := home + play.points.value;
        } else {
          away := away + play.points.value;
        }
      }
    }
  }

  /** The score with one more play added to its own side. */
  function WithPlay(home: int, away: int, p: CliPlay, homeTeam: string): (r: (int, int))
    ensures r.0 >= home && r.1 >= away
    ensures p.posteam == homeTeam ==> r.1 == away
    ensures p.posteam != homeTeam ==> r.0 == home
    ensures r.0 + r.1 == home + away + PositivePoints(p)
  {
    if p.points.Some? && p.points.value > 0 then
      if p.posteam == homeTeam then (home + p.points.value, away) else (home, away + p.points.value)
    else (home, away)
  }

  /**
   * The three scores of `simulate_game_from_point`: before the edited play,
   * after the play as it was, and after the edited play instead. The
   * immediate impact of the edit is the difference of the last two.
   */
  method StartingScores(plays: seq<CliPlay>, index: nat, modified: CliPlay, homeTeam: string)
    returns (before: (int, int), original: (int, int), edited: (int, int))
    requires index < |plays|
    ensures before == (SideTotal(plays[..index], homeTeam, true), SideTotal(plays[..index], homeTeam, false))
    ensures original == WithPlay(before.0, before.1, plays[index], homeTeam)
    ensures edited == WithPlay(before.0, before.1, modified, homeTeam)
    ensures original == (SideTotal(plays[..index + 1], homeTeam, true), SideTotal(plays[..index + 1], homeTeam, false))
  {
    var home, away := ScoreBefore(plays, index, homeTeam);
    before := (home, away);
    original := WithPlay(home, away, plays[index], homeTeam);
    edited := WithPlay(home, away, modified, homeTeam);
    SideTotalSnoc(plays, index, homeTeam, true);
    SideTotalSnoc(plays, index, homeTeam, false);
  }

  /**
   * The immediate impact of an edit that keeps the team with the ball moves
   * that team's score only, by the change in the play's positive points.
   */
  lemma ImpactOnOwnSide(home: int, away: int, original: CliPlay, modified: CliPlay, homeTeam: string)
    requires original.posteam == modified.posteam
    ensures var o := WithPlay(home, away, original, homeTeam);
      var m := WithPlay(home, away, modified, homeTeam);
      var delta := PositivePoints(modified) - PositivePoints(original);
      && (original.posteam == homeTeam ==> m.0 - o.0 == delta && m.1 == o.1)
      && (original.posteam != homeTeam ==> m.1 - o.1 == delta && m.0 == o.0)
  {
  }

  /** The edits a user can pick; any other code changes nothing. */
  datatype Modification =
    | MakeComplete | MakeIncomplete | TurnToInterception | AddFumble | RemoveFumble
    | ConvertThirdDown | ConvertFourthDown | GoForIt | PuntInstead | MakeGood | MakeMiss
    | ConvertTo2pt | AddPenalty | RemovePenalty | AddTimeout | ChangeReturnYards | Unknown(code: string)

  /** The figures of the team with the ball that the edits use, already truncated to whole yards. */
  datatype CliStats = CliStats(avgYardsPerPass: int, avgYardsPerCarry: int, fourthDownRate: real)

  /**
   * The random draws and typed input an edit may use: the interception
   * return (0 to 25), the extra yards of a third-down (1 to 5) and a
   * fourth-down (0 to 3) conversion, the go-for-it draw and the yards of a
   * failed try, the two-point draw, the penalty yards, and the return typed
   * in (missing when it is not a number).
   */
  datatype ModDraw = ModDraw(
    returnYards: int, thirdExtra: int, fourthExtra: int, goForIt: real, failYards: int,
    twoPoint: real, penaltyYards: int, newReturn: Option<int>)

  /**
   * `apply_core_modification` on a copy of the play. The statistics of the
   * team with the ball are looked up first, so a team without statistics
   * is an error.
   */
  function ApplyModification(m: Modification, play: CliPlay, stats: map<string, CliStats>, d: ModDraw): (r: Result<CliPlay>)
    ensures r.Err? <==> play.posteam !in stats
  {
    if play.posteam !in stats then Err("KeyError: " + play.posteam)
    else
      var s := stats[play.posteam];
      Ok(match m
        case MakeComplete =>
          play.(kind := PassEvent, yardsGained := s.avgYardsPerPass, isComplete := true, isFumble := false)
        case MakeIncomplete =>
          play.(kind := PassEvent, yardsGained := 0, isComplete := false, isFumble := false)
        case TurnToInterception =>
          play.(kind := InterceptionEvent, yardsGained := d.returnYards, points := Some(0), isFumble := false)
        case AddFumble =>
          if play.kind in {PassEvent, RushEvent, InterceptionEvent} then
            play.(isFumble := true, yardsGained := Min(play.yardsGained, 3), points := Some(0))
          else play
        case RemoveFumble =>
          if play.kind == RushEvent then
            play.(isFumble := false, yardsGained := if play.yardsGained <= 0 then s.avgYardsPerCarry else play.yardsGained)
          else play
        case ConvertThirdDown =>
          if play.down == 3 then play.(yardsGained := play.toGo + d.thirdExtra) else play
        case ConvertFourthDown =>
          if play.down == 4 then play.(yardsGained := play.toGo + d.fourthExtra) else play
        case GoForIt =>
          if play.down == 4 then
            play.(yardsGained := if d.goForIt < s.fourthDownRate then play.toGo + d.fourthExtra else d.failYards)
          else play
        case PuntInstead => play.(yardsGained := 0)
        case MakeGood =>
          if play.kind == FieldGoalEvent then play.(isGood := true, points := Some(3))
          else if play.kind == XPEvent then play.(isGood := true, points := Some(1))
          else play
        case MakeMiss =>
          if play.kind in {FieldGoalEvent, XPEvent} then play.(isGood := false, points := Some(0)) else play
        case ConvertTo2pt =>
          var success := d.twoPoint < 0.47;
          play.(points := Some(if success then 2 else 0), yardsGained := if success then 2 else 0)
        case AddPenalty => play.(yardsGained := play.yardsGained + d.penaltyYards)
        case RemovePenalty =>
          if play.kind == PenaltyEvent then play.(kind := PassEvent, yardsGained := 5, isComplete := true, isFumble := false)
          else play
        case AddTimeout => play
        case ChangeReturnYards =>
          if play.kind == InterceptionEvent && d.newReturn.Some? then play.(yardsGained := d.newReturn.value) else play
        case Unknown(_) => play)
  }

  /** Fields that no edit touches: the quarter, the clock, the down and distance, the spot and the team. */
  predicate SameSituation(a: CliPlay, b: CliPlay) {
    a.qtr == b.qtr && a.gameSeconds == b.gameSeconds && a.down == b.down && a.toGo == b.toGo
    && a.yardline100 == b.yardline100 && a.posteam == b.posteam
  }

  /** Every edit keeps the situation of the play. */
  lemma ModificationKeepsSituation(m: Modification, play: CliPlay, stats: map<string, CliStats>, d: ModDraw)
    requires play.posteam in stats
    ensures SameSituation(ApplyModification(m, play, stats, d).value, play)
  {
  }

  /**
   * The kicking edits: a good field goal is worth 3 and a missed one 0; a
   * good extra point is worth 1 and a missed one 0.
   */
  lemma KickingEdits(play: CliPlay, stats: map<string, CliStats>, d: ModDraw)
    requires play.posteam in stats && play.kind in {FieldGoalEvent, XPEvent}
    ensures var good := ApplyModification(MakeGood, play, stats, d).value;
      good.isGood && good.points == Some(if play.kind == FieldGoalEvent then 3 else 1)
    ensures var miss := ApplyModification(MakeMiss, play, stats, d).value;
      !miss.isGood && miss.points == Some(0)
  {
  }

  /**
   * Adding a fumble to a pass, a run or an interception makes it a turnover
   * worth nothing, with at most 3 yards gained; on any other play it
   * changes nothing.
   */
  lemma FumbleEdit(play: CliPlay, stats: map<string, CliStats>, d: ModDraw)
    requires play.posteam in stats
    ensures var r := ApplyModification(AddFumble, play, stats, d).value;
      && (play.kind in {PassEvent, RushEvent, InterceptionEvent} ==>
            IsTurnover(r) && r.yardsGained == Min(play.yardsGained, 3) && r.yardsGained <= 3 && PositivePoints(r) == 0)
      && (play.kind !in {PassEvent, RushEvent, InterceptionEvent} ==> r == play)
  {
  }

  /** Making a pass incomplete leaves an incomplete pass with no gain and no turnover. */
  lemma IncompleteEdit(play: CliPlay, stats: map<string, CliStats>, d: ModDraw)
    requires play.posteam in stats
    ensures var r := ApplyModification(MakeIncomplete, play, stats, d).value;
      r.kind == PassEvent && !r.isComplete && r.yardsGained == 0 && !IsTurnover(r)
  {
  }

  /**
   * A third-down (fourth-down) conversion edit changes only the yards, and
   * only on third (fourth) down, to more than (at least) the distance to go;
   * a punt-instead edit gains nothing.
   */
  lemma ConversionEdits(play: CliPlay, stats: map<string, CliStats>, d: ModDraw)
    requires play.posteam in stats
    requires 1 <= d.thirdExtra <= 5 && 0 <= d.fourthExtra <= 3
    ensures var r := ApplyModification(ConvertThirdDown, play, stats, d).value;
      && (play.down == 3 ==> r == play.(yardsGained := r.yardsGained) && play.toGo + 1 <= r.yardsGained <= play.toGo + 5)
      && (play.down != 3 ==> r == play)
    ensures var r := ApplyModification(ConvertFourthDown, play, stats, d).value;
      && (play.down == 4 ==> r == play.(yardsGained := r.yardsGained) && play.toGo <= r.yardsGained <= play.toGo + 3)
      && (play.down != 4 ==> r == play)
    ensures ApplyModification(PuntInstead, play, stats, d).value == play.(yardsGained := 0)
  {
  }

  /** The number of results in which `pick` holds of the two scores. */
  function CountWins(results: seq<(int, int)>, home: bool): (n: nat)
    ensures n <= |results|
  {
    if results == [] then 0
    else CountWins(results[..|results| - 1], home)
         + (var r := results[|results| - 1]; if (home && r.0 > r.1) || (!home && r.1 > r.0) then 1 else 0)
  }

  /** The number of results with equal scores. */
  function CountTies(results: seq<(int, int)>): (n: nat)
    ensures n <= |results|
  {
    if results == [] then 0
    else CountTies(results[..|results| - 1]) + (if results[|results| - 1].0 == results[|results| - 1].1 then 1 else 0)
  }

  /** Every result is a home win, an away win or a tie, and only one of them. */
  lemma {:induction false} WinsAndTiesCover(results: seq<(int, int)>)
    ensures CountWins(results, true) + CountWins(results, false) + CountTies(results) == |results|
    decreases |results|
  {
    if results != [] {
      WinsAndTiesCover(results[..|results| - 1]);
    }
  }

  /**
   * The counts of `analyze_results`: home wins and away wins are counted,
   * ties are what is left over, and the three partition the results.
   */
  function AnalyzeCounts(results: seq<(int, int)>): (r: (nat, nat, nat))
    ensures r.0 == CountWins(results, true) && r.1 == CountWins(results, false)
    ensures r.2 == CountTies(results)
    ensures r.0 + r.1 + r.2 == |results|
  {
    var homeWins := CountWins(results, true);
    var awayWins := CountWins(results, false);
    WinsAndTiesCover(results);
    (homeWins, awayWins, |results| - homeWins - awayWins)
  }

  /** The filters of `display_all_plays`, numbered 1 to 8 as on the menu. */
  predicate ShouldDisplay(choice: int, p: CliPlay) {
    if choice == 1 then true
    else if choice == 2 then (p.points.Some? && p.points.value != 0) || p.kind in {FieldGoalEvent, XPEvent}
    else if choice == 3 then p.kind == InterceptionEvent || p.isFumble
    else if choice == 4 then p.yardsGained >= 15 || p.yardsGained <= -15
    else if choice == 5 then p.yardline100 <= 20
    else if choice == 6 then p.down == 3 || p.down == 4
    else if choice == 7 then p.kind in {FieldGoalEvent, XPEvent}
    else if choice == 8 then p.kind == PenaltyEvent
    else false
  }

  /** The turnover filter shows exactly the turnovers. */
  lemma TurnoverFilter(p: CliPlay)
    ensures ShouldDisplay(3, p) <==> IsTurnover(p)
  {
  }

  /** Every kick is a scoring play for the scoring filter, whatever its points. */
  lemma KicksAreScoringPlays(p: CliPlay)
    ensures ShouldDisplay(7, p) ==> ShouldDisplay(2, p)
  {
  }

  /**
   * `display_all_plays`: the plays the chosen filter keeps, each with its
   * index, in index order, and none left out.
   */
  method DisplayAllPlays(plays: seq<CliPlay>, choice: int) returns (shown: seq<(nat, CliPlay)>)
    requires 1 <= choice <= 8
    ensures forall k :: 0 <= k < |shown| ==> shown[k].0 < |plays| && shown[k].1 == plays[shown[k].0] && ShouldDisplay(choice, shown[k].1)
    ensures forall k, l :: 0 <= k < l < |shown| ==> shown[k].0 < shown[l].0
    ensures forall i :: 0 <= i < |plays| && ShouldDisplay(choice, plays[i]) ==> exists k :: 0 <= k < |shown| && shown[k].0 == i
    ensures choice == 1 ==> |shown| == |plays|
  {
    shown := [];
    for i := 0 to |plays|
      invariant forall k :: 0 <= k < |shown| ==> shown[k].0 < i && shown[k].1 == plays[shown[k].0] && ShouldDisplay(choice, shown[k].1)
      invariant forall k, l :: 0 <= k < l < |shown| ==> shown[k].0 < shown[l].0
      invariant forall j :: 0 <= j < i && ShouldDisplay(choice, plays[j]) ==> exists k :: 0 <= k < |shown| && shown[k].0 == j
      invariant choice == 1 ==> |shown| == i
    {
      var play := plays[i];
      var shouldDisplay := false;
      if choice == 1 {
        shouldDisplay := true;
      } else if choice == 2 {
        shouldDisplay := (play.points.Some? && play.points.value != 0) || play.kind in {FieldGoalEvent, XPEvent};
      } else if choice == 3 {
        shouldDisplay := play.kind == InterceptionEvent || play.isFumble;
      } else if choice == 4 {
        shouldDisplay := (if play.yardsGained < 0 then -play.yardsGained else play.yardsGained) >= 15;
      } else if choice == 5 {
        shouldDisplay := play.yardline100 <= 20;
      } else if choice == 6 {
        shouldDisplay := play.down in [3, 4];
      } else if choice == 7 {
        shouldDisplay := play.kind in {FieldGoalEvent, XPEvent};
      } else if choice == 8 {
        shouldDisplay := play.kind == PenaltyEvent;
      }
      assert shouldDisplay == ShouldDisplay(choice, play);
      if shouldDisplay {
        ghost var before := shown;
        shown := shown + [(i, play)];
        assert forall k :: 0 <= k < |before| ==> shown[k] == before[k];
        assert shown[|shown| - 1].0 == i;
      }
    }
  }
}
