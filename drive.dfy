/**
 * The drive-level Monte Carlo model: play records that score themselves,
 * a game state that appends plays and keeps the score and the timeouts,
 * the down-and-distance loop of one simulated drive, the sample game, and
 * the score recount after a play has been edited. Every random number the
 * simulator draws is a field of a `DriveDraw`.
 */
module MonteCarlo {
  import opened Common
  import opened Text

  datatype PlayType = Pass | Rush | Punt | FieldGoal | ExtraPoint | TwoPoint | Kickoff | Penalty

  datatype PlayResult =
    | Complete | Incomplete | Interception | Fumble | Touchdown | FirstDown
    | Success | Failure | Good | Missed | Blocked

  /** A play record; `pointsScored` is what `calculate_points` last stored. */
  datatype Play = Play(
    playId: int, quarter: int, timeRemaining: int, down: int, yardsToGo: int, yardLine: int,
    team: string, playType: PlayType,
    isPass: bool, isComplete: bool, isInterception: bool, isFumble: bool,
    yardsGained: int, isTouchdown: bool, isFirstDown: bool,
    thirdDownConverted: bool, fourthDownConverted: bool, goForItOnFourth: bool,
    puntResult: Option<string>,
    extraPointResult: Option<PlayResult>, twoPointResult: Option<PlayResult>, fieldGoalResult: Option<PlayResult>,
    penalties: seq<string>, timeoutCalled: bool, timeoutTeam: Option<string>,
    pointsScored: int)

  /** A play record with the given situation and every other field at its default. */
  function NewPlay(playId: int, quarter: int, timeRemaining: int, down: int, yardsToGo: int, yardLine: int,
                   team: string, playType: PlayType): Play
  {
    Play(playId, quarter, timeRemaining, down, yardsToGo, yardLine, team, playType,
         false, false, false, false, 0, false, false, false, false, false,
         None, None, None, None, [], false, None, 0)
  }

  /** "safety" is among the penalties, compared case-insensitively. */
  predicate SafetyCalled(penalties: seq<string>) {
    exists k :: 0 <= k < |penalties| && Lower(penalties[k]) == "safety"
  }

  /** The outcomes that are worth points. */
  predicate Scores(p: Play) {
    p.isTouchdown || p.extraPointResult == Some(Good) || p.twoPointResult == Some(Success)
    || p.fieldGoalResult == Some(Good) || (p.playType == Penalty && SafetyCalled(p.penalties))
  }

  /**
   * `calculate_points`: 6 for a touchdown, 1 for a good extra point, 2 for a
   * successful two-point try, 3 for a good field goal and 2 for a safety
   * called on a penalty play, added up.
   */
  function CalculatePoints(p: Play): (r: int)
    ensures 0 <= r <= 14
    ensures r > 0 <==> Scores(p)
    ensures p.isTouchdown ==> r >= 6
    ensures !p.isTouchdown ==> r <= 8
  {
    (if p.isTouchdown then 6 else 0)
    + (if p.extraPointResult == Some(Good) then 1 else 0)
    + (if p.twoPointResult == Some(Success) then 2 else 0)
    + (if p.fieldGoalResult == Some(Good) then 3 else 0)
    + (if p.playType == Penalty && SafetyCalled(p.penalties) then 2 else 0)
  }

  /** The record as it is after `calculate_points` has run on it. */
  function Scored(p: Play): (q: Play)
    ensures q.pointsScored == CalculatePoints(p)
    ensures q.(pointsScored := p.pointsScored) == p
  {
    p.(pointsScored := CalculatePoints(p))
  }

  /** A touchdown followed by a good extra point, and nothing else, is worth seven. */
  lemma TouchdownAndExtraPoint(p: Play)
    requires p.isTouchdown && p.extraPointResult == Some(Good)
    requires p.twoPointResult != Some(Success) && p.fieldGoalResult != Some(Good) && p.playType != Penalty
    ensures CalculatePoints(p) == 7
  {
  }

  /**
   * A safety is read off the penalty list whatever the letter case: any
   * entry that lower-cases to "safety" makes a penalty play worth 2, and
   * "SAFETY" and "Safety" are such entries.
   */
  lemma SafetyAnyCase(p: Play, s: string)
    requires p.playType == Penalty && s in p.penalties && Lower(s) == "safety"
    requires !p.isTouchdown && p.extraPointResult.None? && p.twoPointResult.None? && p.fieldGoalResult.None?
    ensures CalculatePoints(p) == 2
    ensures Lower("SAFETY") == "safety" && Lower("Safety") == "safety"
  {
    var k :| 0 <= k < |p.penalties| && p.penalties[k] == s;
    assert SafetyCalled(p.penalties);
  }

  /** The points recorded on the plays of `team`'s side: the home side when `home`, else every other team. */
  function SidePoints(plays: seq<Play>, homeTeam: string, home: bool): int
  {
    if plays == [] then 0
    else SidePoints(plays[..|plays| - 1], homeTeam, home)
         + (if (plays[|plays| - 1].team == homeTeam) == home then plays[|plays| - 1].pointsScored else 0)
  }

  lemma {:induction false} SidePointsAppend(a: seq<Play>, b: seq<Play>, homeTeam: string, home: bool)
    ensures SidePoints(a + b, homeTeam, home) == SidePoints(a, homeTeam, home) + SidePoints(b, homeTeam, home)
    decreases |b|
  {
    if b == [] {
      assert a + b == a;
    } else {
      assert (a + b)[..|a + b| - 1] == a + b[..|b| - 1];
      SidePointsAppend(a, b[..|b| - 1], homeTeam, home);
    }
  }

  /** Every play records no points. */
  predicate Pointless(plays: seq<Play>) {
    forall i :: 0 <= i < |plays| ==> plays[i].pointsScored == 0
  }

  lemma {:induction false} PointlessSides(plays: seq<Play>, homeTeam: string, home: bool)
    requires Pointless(plays)
    ensures SidePoints(plays, homeTeam, home) == 0
    decreases |plays|
  {
    if plays != [] {
      PointlessSides(plays[..|plays| - 1], homeTeam, home);
    }
  }

  /** A snapshot of every field of a game state. */
  datatype Snapshot = Snapshot(
    gameId: string, homeTeam: string, awayTeam: string, homeScore: int, awayScore: int,
    quarter: int, timeRemaining: int, possession: string, down: int, yardsToGo: int, yardLine: int,
    homeTimeouts: int, awayTimeouts: int, plays: seq<Play>)

  /** Two snapshots agree on everything but the scores, the timeouts and the plays. */
  predicate SameSetting(a: Snapshot, b: Snapshot) {
    a.gameId == b.gameId && a.homeTeam == b.homeTeam && a.awayTeam == b.awayTeam
    && a.quarter == b.quarter && a.timeRemaining == b.timeRemaining && a.possession == b.possession
    && a.down == b.down && a.yardsToGo == b.yardsToGo && a.yardLine == b.yardLine
  }

  /** The state `add_play` leaves behind, on snapshots. */
  function AddedTo(s: Snapshot, play: Play): Snapshot {
    var home := play.timeoutCalled && play.timeoutTeam == Some(s.homeTeam);
    var away := play.timeoutCalled && !home;
    var points := CalculatePoints(play);
    s.(plays := s.plays + [Scored(play)],
       homeScore := if play.team == s.homeTeam then s.homeScore + points else s.homeScore,
       awayScore := if play.team != s.homeTeam then s.awayScore + points else s.awayScore,
       homeTimeouts := if home then Max(0, s.homeTimeouts - 1) else s.homeTimeouts,
       awayTimeouts := if away then Max(0, s.awayTimeouts - 1) else s.awayTimeouts)
  }

  class GameState {
    var gameId: string
    var homeTeam: string
    var awayTeam: string
    var homeScore: int
    var awayScore: int
    var quarter: int
    var timeRemaining: int
    var possession: string
    var down: int
    var yardsToGo: int
    var yardLine: int
    var homeTimeouts: int
    var awayTimeouts: int
    var plays: seq<Play>

    function Snap(): Snapshot
      reads this
    {
      Snapshot(gameId, homeTeam, awayTeam, homeScore, awayScore, quarter, timeRemaining, possession,
               down, yardsToGo, yardLine, homeTimeouts, awayTimeouts, plays)
    }

    /** A new game state: three timeouts a side and no plays yet. */
    constructor (gameId: string, homeTeam: string, awayTeam: string, homeScore: int, awayScore: int,
                 quarter: int, timeRemaining: int, possession: string, down: int, yardsToGo: int, yardLine: int)
      ensures Snap() == Snapshot(gameId, homeTeam, awayTeam, homeScore, awayScore, quarter, timeRemaining,
                                 possession, down, yardsToGo, yardLine, 3, 3, [])
    {
      this.gameId := gameId;
      this.homeTeam := homeTeam;
      this.awayTeam := awayTeam;
      this.homeScore := homeScore;
      this.awayScore := awayScore;
      this.quarter := quarter;
      this.timeRemaining := timeRemaining;
      this.possession := possession;
      this.down := down;
      this.yardsToGo := yardsToGo;
      this.yardLine := yardLine;
      homeTimeouts := 3;
      awayTimeouts := 3;
      plays := [];
    }

    /**
     * `add_play`: append the play (which scores itself on the way in),
     * credit its points to the home side when its team is the home team and
     * to the away side otherwise, and charge a called timeout to the named
     * team, never going below zero.
     */
    method AddPlay(play: Play)
      modifies this
      ensures plays == old(plays) + [Scored(play)]
      ensures play.team == homeTeam ==> homeScore == old(homeScore) + CalculatePoints(play) && awayScore == old(awayScore)
      ensures play.team != homeTeam ==> awayScore == old(awayScore) + CalculatePoints(play) && homeScore == old(homeScore)
      ensures var home := play.timeoutCalled && play.timeoutTeam == Some(homeTeam);
        var away := play.timeoutCalled && !home;
        && homeTimeouts == (if home then Max(0, old(homeTimeouts) - 1) else old(homeTimeouts))
        && awayTimeouts == (if away then Max(0, old(awayTimeouts) - 1) else old(awayTimeouts))
      ensures SameSetting(Snap(), old(Snap()))
      ensures Snap() == AddedTo(old(Snap()), play)
    {
      var p := Scored(play);
      plays := plays + [p];
      if p.team == homeTeam {
        homeScore := homeScore + p.pointsScored;
      } else {
        awayScore := awayScore + p.pointsScored;
      }
      if p.timeoutCalled {
        if p.timeoutTeam == Some(homeTeam) {
          homeTimeouts := Max(0, homeTimeouts - 1);
        } else {
          awayTimeouts := Max(0, awayTimeouts - 1);
        }
      }
    }

    /** `clone`: an independent copy with the same fields. */
    method Clone() returns (c: GameState)
      ensures fresh(c) && c.Snap() == Snap()
    {
      c := new GameState(gameId, homeTeam, awayTeam, homeScore, awayScore, quarter, timeRemaining,
                         possession, down, yardsToGo, yardLine);
      c.homeTimeouts := homeTimeouts;
      c.awayTimeouts := awayTimeouts;
      c.plays := plays;
    }
  }

  /** Adding a play keeps the scores equal to a baseline plus the points recorded on the plays. */
  lemma AddPlayKeepsTotals(plays: seq<Play>, play: Play, homeTeam: string, home: bool)
    ensures SidePoints(plays + [Scored(play)], homeTeam, home)
         == SidePoints(plays, homeTeam, home) + (if (play.team == homeTeam) == home then CalculatePoints(play) else 0)
  {
    assert (plays + [Scored(play)])[..|plays|] == plays;
  }

  // The fixed rates of the drive simulator.
  const InterceptionRate := 0.03
  const PassCompleteRate := 0.65
  const FumbleRate := 0.02
  const GoForItFourthRate := 0.15
  const ExtraPointGoodRate := 0.94
  const TwoPointSuccessRate := 0.48
  const PuntTouchbackRate := 0.25
  const PenaltyRate := 0.08
  const TimeoutRate := 0.05
  const PenaltyNames := ["holding", "false_start", "pass_interference", "roughing"]

  /** Field goal success by distance to the goal posts. */
  function FieldGoalSuccessRate(distance: int): real {
    if distance < 30 then 0.97
    else if distance < 40 then 0.93
    else if distance < 50 then 0.85
    else 0.65
  }

  /**
   * The random numbers one play of a drive may draw: uniform draws in
   * [0, 1), the gain of a completion (3 to 14), the gain of a run (1 to 7)
   * and which penalty is called.
   */
  datatype DriveDraw = DriveDraw(
    goForIt: real, passOrRush: real, outcome: real, passYards: int, rushYards: int,
    kick: real, penalty: real, penaltyChoice: nat, timeout: real, patKind: real, pat: real)

  predicate DrawInRange(d: DriveDraw) {
    3 <= d.passYards < 15 && 1 <= d.rushYards < 8 && d.penaltyChoice < 4
  }

  /** The play called on a down: fourth down goes for it, kicks a field goal past the 65 or punts. */
  function DrivePlayType(down: int, yardLine: int, d: DriveDraw): (t: PlayType)
    ensures down != 4 ==> t in {Pass, Rush}
    ensures t in {Pass, Rush} <==> down != 4 || d.goForIt < GoForItFourthRate
    ensures t == FieldGoal <==> down == 4 && d.goForIt >= GoForItFourthRate && yardLine > 65
  {
    if down == 4 then
      if d.goForIt < GoForItFourthRate then (if d.passOrRush < 0.6 then Pass else Rush)
      else if yardLine > 65 then FieldGoal
      else Punt
    else if d.passOrRush < 0.6 then Pass else Rush
  }

  /** Down, distance and yard line after a play that did not end the drive. */
  function After(p: Play): (int, int, int) {
    if p.yardsGained >= p.yardsToGo then (1, 10, p.yardLine + p.yardsGained)
    else (p.down + 1, p.yardsToGo - p.yardsGained, p.yardLine + p.yardsGained)
  }

  /**
   * A play kept in a drive: a pass or a run by the team with the ball, on
   * downs one to four, short of the end zone, that neither turned the ball
   * over nor scored, with the conversion flags matching the gain.
   */
  predicate KeptPlay(p: Play, team: string) {
    && p.team == team && p.playType in {Pass, Rush}
    && 1 <= p.down <= 4 && p.yardsToGo >= 1
    && 0 <= p.yardsGained && p.yardLine + p.yardsGained < 100
    && !p.isInterception && !p.isFumble && !p.isTouchdown
    && p.extraPointResult.None? && p.twoPointResult.None? && p.fieldGoalResult.None?
    && p.pointsScored == 0 && (p.timeoutCalled ==> p.timeoutTeam == Some(team))
    && (p.isFirstDown <==> p.yardsGained >= p.yardsToGo)
    && (p.thirdDownConverted <==> p.down == 3 && p.yardsGained >= p.yardsToGo)
    && (p.fourthDownConverted <==> p.down == 4 && p.yardsGained >= p.yardsToGo)
  }

  /** The plays a drive keeps: first and ten from the 25, each play starting where the previous one left off. */
  predicate Drive(plays: seq<Play>, team: string, firstId: int) {
    && (|plays| > 0 ==> plays[0].down == 1 && plays[0].yardsToGo == 10 && plays[0].yardLine == 25)
    && (forall i :: 0 <= i < |plays| ==> KeptPlay(plays[i], team) && plays[i].playId == firstId + i)
    && (forall i :: 0 <= i < |plays| - 1 ==> After(plays[i]) == (plays[i + 1].down, plays[i + 1].yardsToGo, plays[i + 1].yardLine))
  }

  /** A touchdown, then the conversion: a kick below 0.95, otherwise a two-point try. */
  function WithConversion(p: Play, d: DriveDraw): (q: Play)
    requires p.extraPointResult.None? && p.twoPointResult.None?
    ensures q.isTouchdown && 6 <= q.pointsScored <= 8
    ensures q.extraPointResult.Some? != q.twoPointResult.Some?
  {
    var kick := d.patKind < 0.95;
    var good := if kick then d.pat < ExtraPointGoodRate else d.pat < TwoPointSuccessRate;
    p.(isTouchdown := true,
       extraPointResult := if kick then Some(if good then Good else Missed) else None,
       twoPointResult := if kick then None else Some(if good then Success else Failure),
       pointsScored := 6 + (if !good then 0 else if kick then 1 else 2))
  }

  /**
   * One play of a drive up to the touchdown check: the play called, its
   * outcome and the random extras (a penalty, a timeout), and whether the
   * drive ends with it. A kept play is a pass or a run that gained from 0
   * yards and stayed short of the goal line; its down-and-distance flags are
   * set by the caller.
   */
  function DownPlay(down: int, yardsToGo: int, yardLine: int, playId: int, quarter: int, timeRemaining: int,
                    team: string, d: DriveDraw): (r: (Play, bool))
    requires DrawInRange(d) && 1 <= down <= 4 && yardLine < 100
    ensures var (play, ended) := r;
      && (ended <==> play.isInterception || play.isFumble || play.playType in {FieldGoal, Punt} || play.isTouchdown)
      && play.team == team && play.playId == playId
      && (play.timeoutCalled ==> play.timeoutTeam == Some(team))
      && play.down == down && play.yardsToGo == yardsToGo && play.yardLine == yardLine
      && play.playType == DrivePlayType(down, yardLine, d)
      && (play.isTouchdown <==> play.playType in {Pass, Rush} && !play.isInterception && !play.isFumble
                                && yardLine + play.yardsGained >= 100)
      && (!ended ==> && 0 <= play.yardsGained && yardLine + play.yardsGained < 100
                     && play.extraPointResult.None? && play.twoPointResult.None? && play.fieldGoalResult.None?
                     && play.pointsScored == 0 && !play.isFirstDown && !play.thirdDownConverted && !play.fourthDownConverted)
  {
    var playType := DrivePlayType(down, yardLine, d);
    var play := NewPlay(playId, quarter, timeRemaining, down, yardsToGo, yardLine, team, playType);
    if playType == Pass && d.outcome < InterceptionRate then (play.(isPass := true, isInterception := true), true)
    else if playType == Rush && d.outcome < FumbleRate then (play.(isFumble := true), true)
    else if playType == FieldGoal then
      if d.kick < FieldGoalSuccessRate(100 - yardLine + 17) then (play.(fieldGoalResult := Some(Good), pointsScored := 3), true)
      else (play.(fieldGoalResult := Some(Missed)), true)
    else if playType == Punt then
      (play.(puntResult := Some(if d.kick < PuntTouchbackRate then "touchback" else "normal")), true)
    else
      var gained :=
        if playType == Rush then play.(yardsGained := d.rushYards)
        else if d.outcome < PassCompleteRate then play.(isPass := true, isComplete := true, yardsGained := d.passYards)
        else play.(isPass := true, isComplete := false, yardsGained := 0);
      var penalized :=
        if d.penalty < PenaltyRate then gained.(penalties := gained.penalties + [PenaltyNames[d.penaltyChoice]])
        else gained;
      var timed :=
        if d.timeout < TimeoutRate then penalized.(timeoutCalled := true, timeoutTeam := Some(team))
        else penalized;
      if Min(100, yardLine + timed.yardsGained) >= 100 then (WithConversion(timed, d), true)
      else (timed, false)
  }

  /** The loop body of `simulate_drive` up to the touchdown check, played as `DownPlay` says. */
  method RunDown(down: int, yardsToGo: int, yardLine: int, playId: int, quarter: int, timeRemaining: int,
                 team: string, d: DriveDraw) returns (play: Play, ended: bool)
    requires DrawInRange(d) && 1 <= down <= 4 && yardLine < 100
    ensures (play, ended) == DownPlay(down, yardsToGo, yardLine, playId, quarter, timeRemaining, team, d)
  {
    var playType := DrivePlayType(down, yardLine, d);
    play := NewPlay(playId, quarter, timeRemaining, down, yardsToGo, yardLine, team, playType);
    ended := true;
    if playType == Pass {
      play := play.(isPass := true);
      if d.outcome < InterceptionRate {
        play := play.(isInterception := true);
        return;
      } else if d.outcome < PassCompleteRate {
        play := play.(isComplete := true, yardsGained := d.passYards);
      } else {
        play := play.(isComplete := false, yardsGained := 0);
      }
    } else if playType == Rush {
      if d.outcome < FumbleRate {
        play := play.(isFumble := true);
        return;
      } else {
        play := play.(yardsGained := d.rushYards);
      }
    } else if playType == FieldGoal {
      var distance := 100 - yardLine + 17;
      if d.kick < FieldGoalSuccessRate(distance) {
        play := play.(fieldGoalResult := Some(Good), pointsScored := 3);
      } else {
        play := play.(fieldGoalResult := Some(Missed));
      }
      return;
    } else {
      play := play.(puntResult := Some(if d.kick < PuntTouchbackRate then "touchback" else "normal"));
      return;
    }
    if d.penalty < PenaltyRate {
      play := play.(penalties := play.penalties + [PenaltyNames[d.penaltyChoice]]);
    }
    if d.timeout < TimeoutRate {
      play := play.(timeoutCalled := true, timeoutTeam := Some(team));
    }
    if Min(100, yardLine + play.yardsGained) >= 100 {
      play := play.(isTouchdown := true, pointsScored := 6);
      if d.patKind < 0.95 {
        if d.pat < ExtraPointGoodRate {
          play := play.(extraPointResult := Some(Good), pointsScored := play.pointsScored + 1);
        } else {
          play := play.(extraPointResult := Some(Missed));
        }
      } else {
        if d.pat < TwoPointSuccessRate {
          play := play.(twoPointResult := Some(Success), pointsScored := play.pointsScored + 2);
        } else {
          play := play.(twoPointResult := Some(Failure));
        }
      }
      return;
    }
    ended := false;
  }

  /** A kept play that starts where the drive left off extends the drive. */
  lemma ExtendDrive(plays: seq<Play>, team: string, firstId: int, p: Play)
    requires Drive(plays, team, firstId) && KeptPlay(p, team) && p.playId == firstId + |plays|
    requires |plays| == 0 ==> (p.down, p.yardsToGo, p.yardLine) == (1, 10, 25)
    requires |plays| > 0 ==> (p.down, p.yardsToGo, p.yardLine) == After(plays[|plays| - 1])
    ensures Drive(plays + [p], team, firstId)
  {
  }

  /** A play that does not end the drive, with its first-down and conversion flags set. */
  function Flagged(p: Play): Play {
    var gained := p.yardsGained >= p.yardsToGo;
    p.(isFirstDown := p.isFirstDown || gained,
       thirdDownConverted := p.thirdDownConverted || (gained && p.down == 3),
       fourthDownConverted := p.fourthDownConverted || (gained && p.down == 4))
  }


  /** Setting the flags does not move the ball. */
  lemma FlaggedLeavesBallAlone(p: Play)
    ensures After(Flagged(p)) == After(p)
  {
  }

  /**
   * The plays a drive keeps, given the plays `kept` so far and the down,
   * distance and yard line they leave: `kept` itself once the downs or the
   * field have run out, otherwise what `DownFrom` keeps from playing that
   * down.
   */
  function DriveFrom(kept: seq<Play>, down: int, yardsToGo: int, yardLine: int, firstId: int, quarter: int,
                     timeRemaining: int, team: string, draws: nat -> DriveDraw): seq<Play>
    requires forall k :: DrawInRange(draws(k))
    requires 1 <= down && yardsToGo >= 1
    decreases 100 - yardLine, 5 - down, 1
  {
    if !(down <= 4 && yardLine < 100) then kept
    else DownFrom(kept, down, yardsToGo, yardLine, firstId, quarter, timeRemaining, team, draws)
  }

  /**
   * Playing a down of a drive: play `|kept|` is numbered `firstId + |kept|`
   * and drawn from `draws(|kept|)`. When it ends the drive, the plays kept
   * are `kept`; otherwise it is added, flagged, and the drive goes on from
   * where it leaves the ball.
   */
  function DownFrom(kept: seq<Play>, down: int, yardsToGo: int, yardLine: int, firstId: int, quarter: int,
                    timeRemaining: int, team: string, draws: nat -> DriveDraw): seq<Play>
    requires forall k :: DrawInRange(draws(k))
    requires 1 <= down <= 4 && yardsToGo >= 1 && yardLine < 100
    decreases 100 - yardLine, 5 - down, 0
  {
    var (play, ended) := DownPlay(down, yardsToGo, yardLine, firstId + |kept|, quarter, timeRemaining, team, draws(|kept|));
    if ended then kept
    else
      var flagged := Flagged(play);
      var (down', yardsToGo', yardLine') := After(flagged);
      DriveFrom(kept + [flagged], down', yardsToGo', yardLine', firstId, quarter, timeRemaining, team, draws)
  }

  /** The plays of a whole drive: first and ten from the 25 with none kept yet. */
  function WholeDrive(firstId: int, quarter: int, timeRemaining: int, team: string, draws: nat -> DriveDraw): seq<Play>
    requires forall k :: DrawInRange(draws(k))
  {
    DriveFrom([], 1, 10, 25, firstId, quarter, timeRemaining, team, draws)
  }

  /** The plays `kept` so far form a drive that has reached the given down, distance and yard line. */
  predicate DriveSoFar(kept: seq<Play>, down: int, yardsToGo: int, yardLine: int, team: string, firstId: int) {
    && Drive(kept, team, firstId)
    && (|kept| == 0 ==> (down, yardsToGo, yardLine) == (1, 10, 25))
    && (|kept| > 0 ==> (down, yardsToGo, yardLine) == After(kept[|kept| - 1]))
  }

  /**
   * Whatever the draws, extending a drive so far keeps it a drive: every
   * play added is a kept play of the team with the ball, numbered on, and
   * played from where the one before left the ball.
   */
  lemma {:induction false} DriveFromKeeps(kept: seq<Play>, down: int, yardsToGo: int, yardLine: int, firstId: int,
                                          quarter: int, timeRemaining: int, team: string, draws: nat -> DriveDraw)
    requires forall k :: DrawInRange(draws(k))
    requires 1 <= down && yardsToGo >= 1
    requires DriveSoFar(kept, down, yardsToGo, yardLine, team, firstId)
    ensures Drive(DriveFrom(kept, down, yardsToGo, yardLine, firstId, quarter, timeRemaining, team, draws), team, firstId)
    decreases 100 - yardLine, 5 - down
  {
    if down <= 4 && yardLine < 100 {
      var d := draws(|kept|);
      var (play, ended) := DownPlay(down, yardsToGo, yardLine, firstId + |kept|, quarter, timeRemaining, team, d);
      var (down', yardsToGo', yardLine') := After(play);
      DriveFromStep(kept, down, yardsToGo, yardLine, firstId, quarter, timeRemaining, team, draws, d, play, ended,
                    down', yardsToGo', yardLine');
      if !ended {
        var flagged := Flagged(play);
        assert KeptPlay(flagged, team);
        ExtendDrive(kept, team, firstId, flagged);
        FlaggedLeavesBallAlone(play);
        DriveFromKeeps(kept + [flagged], down', yardsToGo', yardLine', firstId, quarter, timeRemaining, team, draws);
      }
    }
  }

  /** A whole drive is a `Drive`. */
  lemma WholeDriveIsDrive(firstId: int, quarter: int, timeRemaining: int, team: string, draws: nat -> DriveDraw)
    requires forall k :: DrawInRange(draws(k))
    ensures Drive(WholeDrive(firstId, quarter, timeRemaining, team, draws), team, firstId)
  {
    DriveFromKeeps([], 1, 10, 25, firstId, quarter, timeRemaining, team, draws);
  }

  /** A whole drive scores nothing and spends only the timeouts of the team with the ball. */
  lemma WholeDriveKeepsItsPoints(firstId: int, quarter: int, timeRemaining: int, team: string,
                                 draws: nat -> DriveDraw, homeTeam: string)
    requires forall k :: DrawInRange(draws(k))
    ensures var drive := WholeDrive(firstId, quarter, timeRemaining, team, draws);
      && ScoredAll(drive) == drive
      && SidePoints(drive, homeTeam, true) == 0 && SidePoints(drive, homeTeam, false) == 0
      && (team == homeTeam ==> NoTimeoutFor(drive, homeTeam, false))
      && (team != homeTeam ==> NoTimeoutFor(drive, homeTeam, true))
  {
    WholeDriveIsDrive(firstId, quarter, timeRemaining, team, draws);
    DriveKeepsItsPoints(WholeDrive(firstId, quarter, timeRemaining, team, draws), team, firstId, homeTeam);
  }

  /**
   * One down of `DriveFrom`: the play the draw gives either stops the drive
   * or is added, flagged, and the drive goes on from where it leaves the
   * ball, `(down', yardsToGo', yardLine')`.
   */
  lemma DriveFromStep(kept: seq<Play>, down: int, yardsToGo: int, yardLine: int, firstId: int, quarter: int,
                      timeRemaining: int, team: string, draws: nat -> DriveDraw, d: DriveDraw, play: Play, ended: bool,
                      down': int, yardsToGo': int, yardLine': int)
    requires forall k :: DrawInRange(draws(k))
    requires 1 <= down <= 4 && yardsToGo >= 1 && yardLine < 100 && d == draws(|kept|)
    requires (play, ended) == DownPlay(down, yardsToGo, yardLine, firstId + |kept|, quarter, timeRemaining, team, d)
    requires !ended ==> (down', yardsToGo', yardLine') == After(play)
    ensures ended ==> DriveFrom(kept, down, yardsToGo, yardLine, firstId, quarter, timeRemaining, team, draws) == kept
    ensures !ended ==>
      && 1 <= down' && yardsToGo' >= 1
      && DriveFrom(kept, down, yardsToGo, yardLine, firstId, quarter, timeRemaining, team, draws)
         == DriveFrom(kept + [Flagged(play)], down', yardsToGo', yardLine', firstId, quarter, timeRemaining, team, draws)
  {
    FlaggedLeavesBallAlone(play);
    assert DriveFrom(kept, down, yardsToGo, yardLine, firstId, quarter, timeRemaining, team, draws)
        == DownFrom(kept, down, yardsToGo, yardLine, firstId, quarter, timeRemaining, team, draws);
  }

  /**
   * One pass of the loop of `simulate_drive`: run the down, then move the
   * ball and reset or advance the down and the distance to go. What is left
   * of the drive after this down is what was left of it before.
   */
  method NextDown(kept: seq<Play>, down: int, yardsToGo: int, yardLine: int, firstId: int, quarter: int,
                  timeRemaining: int, team: string, draws: nat -> DriveDraw)
    returns (ended: bool, flagged: Play, down': int, yardsToGo': int, yardLine': int)
    requires forall k :: DrawInRange(draws(k))
    requires 1 <= down <= 4 && yardsToGo >= 1 && yardLine < 100
    ensures ended ==> DriveFrom(kept, down, yardsToGo, yardLine, firstId, quarter, timeRemaining, team, draws) == kept
    ensures !ended ==> 1 <= down' <= 5 && yardsToGo' >= 1
    ensures !ended ==> yardLine' > yardLine || (yardLine' == yardLine && down' > down)
    ensures !ended ==>
      DriveFrom(kept, down, yardsToGo, yardLine, firstId, quarter, timeRemaining, team, draws)
        == DriveFrom(kept + [flagged], down', yardsToGo', yardLine', firstId, quarter, timeRemaining, team, draws)
  {
    var d := draws(|kept|);
    var play;
    play, ended := RunDown(down, yardsToGo, yardLine, firstId + |kept|, quarter, timeRemaining, team, d);
    yardLine' := yardLine + play.yardsGained;
    if play.yardsGained >= yardsToGo {
      down', yardsToGo' := 1, 10;
    } else {
      down', yardsToGo' := down + 1, yardsToGo - play.yardsGained;
    }
    flagged := Flagged(play);
    DriveFromStep(kept, down, yardsToGo, yardLine, firstId, quarter, timeRemaining, team, draws, d, play, ended,
                  down', yardsToGo', yardLine');
  }

  /**
   * The loop of `simulate_drive`: run plays from first and ten at the 25
   * while the down is at most four and the ball is short of the goal line.
   * An interception, a fumble, a field goal try, a punt and a touchdown end
   * the drive before that play is kept; every other play is kept, flagged
   * when it gains the distance. The plays kept are the `WholeDrive` the
   * draws give.
   */
  method DrivePlays(firstId: int, quarter: int, timeRemaining: int, team: string, draws: nat -> DriveDraw)
    returns (drivePlays: seq<Play>)
    requires forall n :: DrawInRange(draws(n))
    ensures drivePlays == WholeDrive(firstId, quarter, timeRemaining, team, draws)
  {
    ghost var whole := WholeDrive(firstId, quarter, timeRemaining, team, draws);
    drivePlays := [];
    var down, yardsToGo, yardLine := 1, 10, 25;
    while down <= 4 && yardLine < 100
      invariant 1 <= down <= 5 && yardsToGo >= 1
      invariant DriveFrom(drivePlays, down, yardsToGo, yardLine, firstId, quarter, timeRemaining, team, draws) == whole
      decreases 100 - yardLine, 5 - down
    {
      var ended, flagged;
      ended, flagged, down, yardsToGo, yardLine :=
        NextDown(drivePlays, down, yardsToGo, yardLine, firstId, quarter, timeRemaining, team, draws);
      if ended {
        break;
      }
      drivePlays := drivePlays + [flagged];
    }
  }

  /**
   * `simulate_drive`: on a copy of the game state, keep the plays of one
   * drive (`DrivePlays`) and add them to the copy at the end. The caller's
   * state is left as it was.
   */
  method SimulateDrive(gs: GameState, draws: nat -> DriveDraw) returns (c: GameState, ghost drive: seq<Play>)
    requires forall n :: DrawInRange(draws(n))
    ensures fresh(c)
    ensures drive == WholeDrive(|gs.plays| + 1, gs.quarter, gs.timeRemaining, gs.possession, draws)
    ensures SameSetting(c.Snap(), gs.Snap()) && c.plays == gs.plays + drive
    ensures c.homeScore == gs.homeScore && c.awayScore == gs.awayScore
    ensures gs.possession == gs.homeTeam ==> c.awayTimeouts == gs.awayTimeouts && c.homeTimeouts <= Max(0, gs.homeTimeouts)
    ensures gs.possession != gs.homeTeam ==> c.homeTimeouts == gs.homeTimeouts && c.awayTimeouts <= Max(0, gs.awayTimeouts)
  {
    c := gs.Clone();
    var firstId, quarter, timeRemaining, team := |c.plays| + 1, c.quarter, c.timeRemaining, c.possession;
    assert firstId == |gs.plays| + 1 && quarter == gs.quarter && timeRemaining == gs.timeRemaining && team == gs.possession;
    var drivePlays := DrivePlays(firstId, quarter, timeRemaining, team, draws);
    drive := drivePlays;
    WholeDriveKeepsItsPoints(firstId, quarter, timeRemaining, team, draws, c.homeTeam);
    AddPlays(c, drivePlays);
  }



  /**
   * The plays of a drive score nothing once added, and their timeouts are
   * all charged to the team with the ball.
   */
  lemma DriveKeepsItsPoints(drive: seq<Play>, team: string, firstId: int, homeTeam: string)
    requires Drive(drive, team, firstId)
    ensures ScoredAll(drive) == drive
    ensures SidePoints(drive, homeTeam, true) == 0 && SidePoints(drive, homeTeam, false) == 0
    ensures team == homeTeam ==> NoTimeoutFor(drive, homeTeam, false)
    ensures team != homeTeam ==> NoTimeoutFor(drive, homeTeam, true)
  {
    assert forall i :: 0 <= i < |drive| ==> !Scores(drive[i]) by {
      forall i | 0 <= i < |drive| ensures !Scores(drive[i]) {
        assert KeptPlay(drive[i], team);
      }
    }
    PointlessSides(drive, homeTeam, true);
    PointlessSides(drive, homeTeam, false);
  }

  /** A drive never changes the score: the plays that would have scored are the ones it drops. */
  lemma DriveScoresNothing(drive: seq<Play>, team: string, firstId: int, homeTeam: string, home: bool)
    requires Drive(drive, team, firstId)
    ensures SidePoints(drive, homeTeam, home) == 0
  {
    PointlessSides(drive, homeTeam, home);
  }

  /** A sample play: the situation and the few fields the listing sets; every other field keeps its default. */
  function SampleRow(playId: int, timeRemaining: int, down: int, yardsToGo: int, yardLine: int, team: string,
                     playType: PlayType, yardsGained: int, isComplete: bool, isTouchdown: bool, isFirstDown: bool,
                     thirdDownConverted: bool, result: Option<PlayResult>, pointsScored: int): Play
  {
    Play(playId, 1, timeRemaining, down, yardsToGo, yardLine, team, playType,
         playType == Pass, isComplete, false, false, yardsGained, isTouchdown, isFirstDown,
         thirdDownConverted, false, false, None,
         if playType == ExtraPoint then result else None, None, if playType == FieldGoal then result else None,
         [], false, None, pointsScored)
  }

  /** The plays of `create_comprehensive_sample_game`, as listed: a Washington touchdown drive, then an Arizona field goal drive. */
  function SamplePlays(): seq<Play> {
    [ SampleRow(1, 800, 1, 10, 25, "WAS", Pass, 12, true, false, true, false, None, 0),
      SampleRow(2, 750, 1, 10, 37, "WAS", Rush, 8, false, false, false, false, None, 0),
      SampleRow(3, 700, 2, 2, 45, "WAS", Rush, 3, false, false, true, false, None, 0),
      SampleRow(4, 650, 1, 10, 48, "WAS", Pass, 25, true, false, true, false, None, 0),
      SampleRow(5, 600, 1, 10, 73, "WAS", Pass, 27, true, true, false, false, None, 6),
      SampleRow(6, 590, 0, 0, 0, "WAS", ExtraPoint, 0, false, false, false, false, Some(Good), 1),
      SampleRow(7, 400, 1, 10, 30, "ARI", Pass, 15, true, false, true, false, None, 0),
      SampleRow(8, 350, 1, 10, 45, "ARI", Rush, 5, false, false, false, false, None, 0),
      SampleRow(9, 300, 2, 5, 50, "ARI", Pass, 0, false, false, false, false, None, 0),
      SampleRow(10, 250, 3, 5, 50, "ARI", Pass, 8, true, false, true, true, None, 0),
      SampleRow(11, 200, 1, 10, 58, "ARI", Rush, 12, false, false, true, false, None, 0),
      SampleRow(12, 150, 1, 10, 70, "ARI", Pass, 8, true, false, false, false, None, 0),
      SampleRow(13, 100, 2, 2, 78, "ARI", Rush, 1, false, false, false, false, None, 0),
      SampleRow(14, 50, 3, 1, 79, "ARI", Pass, 0, false, false, false, false, None, 0),
      SampleRow(15, 10, 4, 1, 79, "ARI", FieldGoal, 0, false, false, false, false, Some(Good), 3) ]
  }

  /** Every play as it is stored once `add_play` has scored it. */
  function ScoredAll(plays: seq<Play>): (r: seq<Play>)
    ensures |r| == |plays| && forall i :: 0 <= i < |plays| ==> r[i] == Scored(plays[i])
  {
    if plays == [] then [] else ScoredAll(plays[..|plays| - 1]) + [Scored(plays[|plays| - 1])]
  }

  /** The points each sample play scores once added: the touchdown, the extra point and the field goal. */
  function SamplePoints(i: nat): int {
    if i == 4 then 6 else if i == 5 then 1 else if i == 14 then 3 else 0
  }

  /** The team of each sample play and what it scores. */
  predicate SampleShaped(ps: seq<Play>) {
    |ps| == 15
    && forall i :: 0 <= i < 15 ==> ps[i].team == (if i < 6 then "WAS" else "ARI") && CalculatePoints(ps[i]) == SamplePoints(i)
  }

  lemma SampleIsShaped()
    ensures SampleShaped(SamplePlays())
  {
    forall i | 0 <= i < 15
      ensures SamplePlays()[i].team == (if i < 6 then "WAS" else "ARI")
      ensures CalculatePoints(SamplePlays()[i]) == SamplePoints(i)
    {
      SamplePlayPoints(i);
    }
  }

  /** Washington's touchdown and extra point are the 5th and 6th sample plays, Arizona's field goal the 15th. */
  lemma SamplePlayPoints(i: nat)
    requires i < 15
    ensures |SamplePlays()| == 15
    ensures SamplePlays()[i].team == if i < 6 then "WAS" else "ARI"
    ensures CalculatePoints(SamplePlays()[i]) == SamplePoints(i)
  {
  }

  /** Washington's and Arizona's points over the first `k` sample plays. */
  function SampleSoFar(k: nat, home: bool): int {
    if home then (if k <= 4 then 0 else if k == 5 then 6 else 7)
    else (if k < 15 then 0 else 3)
  }

  lemma {:induction false} SamplePrefix(ps: seq<Play>, k: nat, home: bool)
    requires SampleShaped(ps) && k <= 15
    ensures SidePoints(ScoredAll(ps[..k]), "WAS", home) == SampleSoFar(k, home)
  {
    if k > 0 {
      var p := ps[k - 1];
      SamplePrefix(ps, k - 1, home);
      ScoredAllSnoc(ps, k);
      AddPlayKeepsTotals(ScoredAll(ps[..k - 1]), p, "WAS", home);
      assert p.team == (if k - 1 < 6 then "WAS" else "ARI") && CalculatePoints(p) == SamplePoints(k - 1);
      assert ("ARI" == "WAS") == false;
    }
  }

  lemma ScoredAllSnoc(ps: seq<Play>, k: nat)
    requires 0 < k <= |ps|
    ensures ScoredAll(ps[..k]) == ScoredAll(ps[..k - 1]) + [Scored(ps[k - 1])]
  {
    assert ps[..k][..k - 1] == ps[..k - 1];
  }

  /** The sample plays add seven points for Washington (a touchdown and the extra point) and three for Arizona. */
  lemma SampleTotals()
    ensures SidePoints(ScoredAll(SamplePlays()), "WAS", true) == 7
    ensures SidePoints(ScoredAll(SamplePlays()), "WAS", false) == 3
  {
    var ps := SamplePlays();
    SampleIsShaped();
    assert ps[..15] == ps;
    SamplePrefix(ps, 15, true);
    SamplePrefix(ps, 15, false);
  }

  /** Points of a sequence, computed from a split point. */
  lemma SidePointsSplit(s: seq<Play>, homeTeam: string, home: bool, k: nat)
    requires k <= |s|
    ensures SidePoints(s, homeTeam, home) == SidePoints(s[..k], homeTeam, home) + SidePoints(s[k..], homeTeam, home)
  {
    assert s == s[..k] + s[k..];
    SidePointsAppend(s[..k], s[k..], homeTeam, home);
  }

  /**
   * `create_comprehensive_sample_game`: Arizona at Washington, 20 to 16 with
   * five minutes left, then the fifteen listed plays added, which ends at
   * 27 to 19.
   */
  method CreateSampleGame() returns (g: GameState)
    ensures fresh(g)
    ensures g.homeTeam == "WAS" && g.awayTeam == "ARI"
    ensures g.plays == ScoredAll(SamplePlays())
    ensures g.homeScore == 27 && g.awayScore == 19
  {
    g := new GameState("2023_week1_ari_was", "WAS", "ARI", 20, 16, 4, 300, "ARI", 1, 10, 35);
    AddPlays(g, SamplePlays());
    SampleTotals();
  }

  /** No play of `plays` calls a timeout charged to the home side (when `home`) or the away side. */
  predicate NoTimeoutFor(plays: seq<Play>, homeTeam: string, home: bool) {
    forall i :: 0 <= i < |plays| && plays[i].timeoutCalled ==> (plays[i].timeoutTeam == Some(homeTeam)) != home
  }

  /**
   * The state after `add_play` on the first `i` plays, starting from `s0`:
   * the plays appended scored, each side's points added, and each side's
   * timeouts only dropped, and only by its own calls.
   */
  predicate AddedSoFar(s: Snapshot, s0: Snapshot, plays: seq<Play>, i: nat)
    requires i <= |plays|
  {
    && SameSetting(s, s0)
    && s.plays == s0.plays + ScoredAll(plays[..i])
    && s.homeScore == s0.homeScore + SidePoints(ScoredAll(plays[..i]), s0.homeTeam, true)
    && s.awayScore == s0.awayScore + SidePoints(ScoredAll(plays[..i]), s0.homeTeam, false)
    && s.homeTimeouts <= Max(0, s0.homeTimeouts) && s.awayTimeouts <= Max(0, s0.awayTimeouts)
    && (NoTimeoutFor(plays, s0.homeTeam, true) ==> s.homeTimeouts == s0.homeTimeouts)
    && (NoTimeoutFor(plays, s0.homeTeam, false) ==> s.awayTimeouts == s0.awayTimeouts)
  }

  /** `add_play` on play `i` extends what the first `i` plays left to the first `i + 1`. */
  lemma AddedOneMore(s: Snapshot, s0: Snapshot, plays: seq<Play>, i: nat)
    requires i < |plays| && AddedSoFar(s, s0, plays, i)
    ensures AddedSoFar(AddedTo(s, plays[i]), s0, plays, i + 1)
  {
    var team := s.homeTeam;
    AddedPlaysStep(s.plays, s0.plays, plays, i);
    AddedPointsStep(s, s0, plays, i, true);
    AddedPointsStep(s, s0, plays, i, false);
    assert NoTimeoutFor(plays, team, true) ==> !(plays[i].timeoutCalled && plays[i].timeoutTeam == Some(team));
    assert NoTimeoutFor(plays, team, false) ==> !(plays[i].timeoutCalled && plays[i].timeoutTeam != Some(team));
  }

  /** Appending the next scored play to the plays so far gives the plays so far, one further. */
  lemma AddedPlaysStep(front: seq<Play>, start: seq<Play>, plays: seq<Play>, i: nat)
    requires i < |plays| && front == start + ScoredAll(plays[..i])
    ensures front + [Scored(plays[i])] == start + ScoredAll(plays[..i + 1])
  {
    ScoredAllSnoc(plays, i + 1);
    assert plays[..i + 1][..i] == plays[..i];
  }

  /** The side's score after `add_play` on play `i` is its start plus the points of the first `i + 1` plays. */
  lemma AddedPointsStep(s: Snapshot, s0: Snapshot, plays: seq<Play>, i: nat, home: bool)
    requires i < |plays| && AddedSoFar(s, s0, plays, i)
    ensures (if home then AddedTo(s, plays[i]).homeScore else AddedTo(s, plays[i]).awayScore)
         == (if home then s0.homeScore else s0.awayScore) + SidePoints(ScoredAll(plays[..i + 1]), s0.homeTeam, home)
  {
    AddPlayKeepsTotals(ScoredAll(plays[..i]), plays[i], s.homeTeam, home);
    ScoredAllSnoc(plays, i + 1);
    assert plays[..i + 1][..i] == plays[..i];
  }

  /**
   * `add_play` on each play in turn, as the loops of the sample game and of
   * `simulate_drive` do: the plays are appended, each side gains the points
   * of its plays, and a side's timeouts only drop, and only by its own calls.
   */
  method AddPlays(g: GameState, plays: seq<Play>)
    modifies g
    ensures g.plays == old(g.plays) + ScoredAll(plays)
    ensures g.homeScore == old(g.homeScore) + SidePoints(ScoredAll(plays), g.homeTeam, true)
    ensures g.awayScore == old(g.awayScore) + SidePoints(ScoredAll(plays), g.homeTeam, false)
    ensures g.homeTimeouts <= Max(0, old(g.homeTimeouts)) && g.awayTimeouts <= Max(0, old(g.awayTimeouts))
    ensures NoTimeoutFor(plays, g.homeTeam, true) ==> g.homeTimeouts == old(g.homeTimeouts)
    ensures NoTimeoutFor(plays, g.homeTeam, false) ==> g.awayTimeouts == old(g.awayTimeouts)
    ensures SameSetting(g.Snap(), old(g.Snap()))
  {
    ghost var s0 := g.Snap();
    assert plays[..0] == [];
    for i := 0 to |plays|
      invariant AddedSoFar(g.Snap(), s0, plays, i)
    {
      AddedOneMore(g.Snap(), s0, plays, i);
      g.AddPlay(plays[i]);
    }
    assert plays[..|plays|] == plays;
  }

  /** The play list with the first play whose id is `id` replaced by `q`. */
  function ReplaceFirst(plays: seq<Play>, id: int, q: Play): (r: seq<Play>)
    ensures |r| == |plays|
    ensures (forall i :: 0 <= i < |plays| ==> plays[i].playId != id) ==> r == plays
    ensures forall j :: 0 <= j < |plays| && plays[j].playId == id && (forall i :: 0 <= i < j ==> plays[i].playId != id)
                   ==> r == plays[j := q]
  {
    if plays == [] then []
    else if plays[0].playId == id then [q] + plays[1..]
    else [plays[0]] + ReplaceFirst(plays[1..], id, q)
  }

  /**
   * The menu index of the play to edit, as written: the menu lists the last
   * `min(10, n)` plays numbered from 1, but choice `c` picks `plays[-(11 - c)]`,
   * which is out of range, or a different play, when there are fewer than
   * ten plays.
   */
  function SelectedIndexAsWritten(n: nat, choice: int): Option<nat> {
    var k := choice - 1;
    if 0 <= k < Min(10, n) then
      if 10 - k <= n then Some(n - (10 - k)) else None
    else None
  }

  /** The index of the play shown as number `choice` in the menu of the last `min(10, n)` plays. */
  function SelectedIndex(n: nat, choice: int): (r: Option<nat>)
    ensures r.Some? <==> 1 <= choice <= Min(10, n)
    ensures r.Some? ==> r.value < n && r.value == n - Min(10, n) + (choice - 1)
  {
    var k := choice - 1;
    if 0 <= k < Min(10, n) then Some(n - Min(10, n) + k) else None
  }

  /** With ten or more plays the written selection is the intended one. */
  lemma SelectionAgreesFromTenPlays(n: nat, choice: int)
    requires n >= 10
    ensures SelectedIndexAsWritten(n, choice) == SelectedIndex(n, choice)
  {
  }

  /** With five plays, the first play on the menu cannot be chosen: `plays[-10]` is out of range. */
  lemma FirstOfFiveIsRejected()
    ensures SelectedIndexAsWritten(5, 1).None?
    ensures SelectedIndex(5, 1) == Some(0)
  {
  }

  /** The score recount of the what-if, as written: both scores restart at zero. */
  function RecountAsWritten(plays: seq<Play>, homeTeam: string): (int, int) {
    (SidePoints(plays, homeTeam, true), SidePoints(plays, homeTeam, false))
  }

  /**
   * The written recount agrees with the corrected one, whatever the edit,
   * exactly when the score before the edit is what the recorded plays add
   * up to, that is, when the game started at 0 to 0.
   */
  lemma RecountAsWrittenAgreement(homeScore: int, awayScore: int, before: seq<Play>, after: seq<Play>, homeTeam: string)
    ensures RecountAsWritten(after, homeTeam) == Rescore(homeScore, awayScore, before, after, homeTeam)
        <==> (homeScore, awayScore) == RecountAsWritten(before, homeTeam)
  {
  }

  /**
   * The recount the comparison evidently wants: the score before the edit,
   * less the points of the plays as they were, plus the points of the
   * plays as they are now, so that points scored before the recorded plays
   * are kept.
   */
  function Rescore(homeScore: int, awayScore: int, before: seq<Play>, after: seq<Play>, homeTeam: string): (r: (int, int))
    ensures before == after ==> r == (homeScore, awayScore)
  {
    (homeScore - SidePoints(before, homeTeam, true) + SidePoints(after, homeTeam, true),
     awayScore - SidePoints(before, homeTeam, false) + SidePoints(after, homeTeam, false))
  }

  /** Recounting the unedited sample game as written turns 27 to 19 into 7 to 3. */
  lemma SampleRecountLosesStartingScore()
    ensures RecountAsWritten(ScoredAll(SamplePlays()), "WAS") == (7, 3)
    ensures Rescore(27, 19, ScoredAll(SamplePlays()), ScoredAll(SamplePlays()), "WAS") == (27, 19)
  {
    SampleTotals();
  }

  /** Replacing one play moves only that play's side, by the change in its points. */
  lemma RescoreOnePlay(homeScore: int, awayScore: int, before: seq<Play>, j: nat, q: Play, homeTeam: string)
    requires j < |before|
    ensures var r := Rescore(homeScore, awayScore, before, before[j := q], homeTeam);
      var delta := q.pointsScored - before[j].pointsScored;
      && (q.team == homeTeam && before[j].team == homeTeam ==> r == (homeScore + delta, awayScore))
      && (q.team != homeTeam && before[j].team != homeTeam ==> r == (homeScore, awayScore + delta))
  {
    var after := before[j := q];
    assert before == before[..j] + [before[j]] + before[j + 1..];
    assert after == before[..j] + [q] + before[j + 1..];
    forall home: bool
      ensures SidePoints(after, homeTeam, home) - SidePoints(before, homeTeam, home)
           == (if (q.team == homeTeam) == home then q.pointsScored else 0)
            - (if (before[j].team == homeTeam) == home then before[j].pointsScored else 0)
    {
      SidePointsAppend(before[..j] + [before[j]], before[j + 1..], homeTeam, home);
      SidePointsAppend(before[..j], [before[j]], homeTeam, home);
      SidePointsAppend(before[..j] + [q], before[j + 1..], homeTeam, home);
      SidePointsAppend(before[..j], [q], homeTeam, home);
      assert SidePoints([q], homeTeam, home) == (if (q.team == homeTeam) == home then q.pointsScored else 0) by {
        assert [q][..0] == [];
      }
      assert SidePoints([before[j]], homeTeam, home)
          == (if (before[j].team == homeTeam) == home then before[j].pointsScored else 0) by {
        assert [before[j]][..0] == [];
      }
    }
  }

  /**
   * The what-if of the drive-level command line: pick the play shown as
   * number `choice`, put the edited play (scored again) in place of the
   * first play with its id in a copy of the game, and rescore the copy.
   * An invalid choice edits nothing.
   */
  method WhatIf(game: GameState, choice: int, edited: Play) returns (r: Option<GameState>)
    ensures SelectedIndex(|game.plays|, choice).None? <==> r.None?
    ensures r.Some? ==> (fresh(r.value)
      && var j := SelectedIndex(|game.plays|, choice).value;
      && var after := ReplaceFirst(game.plays, game.plays[j].playId, Scored(edited));
      && r.value.plays == after
      && (r.value.homeScore, r.value.awayScore) == Rescore(game.homeScore, game.awayScore, game.plays, after, game.homeTeam))
  {
    var index := SelectedIndex(|game.plays|, choice);
    if index.None? {
      return None;
    }
    var selected := game.plays[index.value];
    var modified := game.Clone();
    var q := Scored(edited);
    var i := 0;
    while i < |modified.plays|
      invariant 0 <= i <= |modified.plays| == |game.plays|
      invariant forall k :: 0 <= k < i ==> game.plays[k].playId != selected.playId
      invariant modified.plays == game.plays
      invariant modified.homeScore == game.homeScore && modified.awayScore == game.awayScore
      invariant modified.homeTeam == game.homeTeam
    {
      if modified.plays[i].playId == selected.playId {
        modified.plays := modified.plays[i := q];
        break;
      }
      i := i + 1;
    }
    var after := ReplaceFirst(game.plays, selected.playId, q);
    assert modified.plays == after;
    var (home, away) := Rescore(modified.homeScore, modified.awayScore, game.plays, modified.plays, modified.homeTeam);
    modified.homeScore, modified.awayScore := home, away;
    r := Some(modified);
  }
}
