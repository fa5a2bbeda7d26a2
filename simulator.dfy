/**
 * The play-by-play simulator behind the what-if feature: play events, the
 * attributes each kind of play lets the user change, the game state the
 * simulator steps, and the re-simulation of a game from a changed play.
 *
 * Every random draw of one simulated play (the play-call draw, the time
 * taken, the outcome draw, the rounded Gaussian gain or punt distance and
 * the conversion choice) comes in as a `Draw`, so each step is a function
 * of its inputs. The two logistic curves (the pass share by yards to go
 * and the kick success by distance) are fixed functions held by the game.
 */
module Simulation {
  import opened Common
  import opened Text
  import opened PlayAttributes

  datatype PlayKind =
    | PassPlay(isComplete: bool)
    | InterceptionPlay
    | RushPlay
    | PuntPlay
    | FieldGoalPlay(isGood: bool)
    | ExtraPointPlay(isGood: bool)
    | TwoPointPlay(isGood: bool)
    | PenaltyPlay(penaltyType: string, penaltyYards: int)

  /** One play, with the game situation it leaves behind. */
  datatype PlayEvent = PlayEvent(
    kind: PlayKind,
    homeScore: int, awayScore: int,
    qtr: int, quarterSeconds: int, halfSeconds: int, gameSeconds: int,
    down: int, toGo: int, yrdln: string, yardline100: int,
    yardsGained: int, scoreDifferential: int, posteam: string)

  /** The season rates of one team that the simulator reads. */
  datatype TeamStats = TeamStats(
    passAttempts: nat, rushAttempts: nat,
    completionProb: real, interceptionProb: real,
    fieldGoalProb: real, extraPointProb: real, twoPointConversionProb: real)

  /**
   * The loaded game: the two teams, their season rates, the recorded plays,
   * and the logistic curves `1/(1+exp(-0.8*(toGo-6)))` and
   * `1/(1+exp(-0.2*(distance-35)))`.
   */
  datatype Game = Game(
    home: string, away: string, stats: map<string, TeamStats>, plays: seq<PlayEvent>,
    passCurve: int -> real, kickCurve: int -> real)

  /** Both teams have rates, and each team has run or passed at least once. */
  predicate ValidGame(g: Game) {
    g.home in g.stats && g.away in g.stats
    && forall t :: t in g.stats ==> g.stats[t].passAttempts + g.stats[t].rushAttempts > 0
  }

  function Opponent(g: Game, team: string): (r: string)
    ensures team == g.home ==> r == g.away
    ensures team != g.home ==> r == g.home
  {
    if team == g.home then g.away else g.home
  }

  /**
   * The yard-line mark: in its own half (more than 50 yards from the goal
   * it attacks) the team with the ball is named with its distance from its
   * own goal, at midfield the mark is "50", and in the opponent's half the
   * opponent is named with the distance to its goal.
   */
  function FormatFieldPosition(yardline100: int, posteam: string, g: Game): (r: string)
    ensures yardline100 == 50 ==> r == "50"
    ensures yardline100 > 50 ==> r == posteam + " " + IntToString(100 - yardline100)
    ensures yardline100 < 50 ==> r == Opponent(g, posteam) + " " + IntToString(yardline100)
  {
    if yardline100 > 50 then posteam + " " + IntToString(50 - (yardline100 - 50))
    else if yardline100 == 50 then "50"
    else Opponent(g, posteam) + " " + IntToString(yardline100)
  }

  predicate NoSpace(s: string) {
    forall i :: 0 <= i < |s| ==> s[i] != ' '
  }

  predicate AllDigits(s: string) {
    forall i :: 0 <= i < |s| ==> IsDigit(s[i])
  }

  /** Reads a yard-line mark back into a distance from the opponent's goal line. */
  function ReadFieldPosition(mark: string, posteam: string, g: Game): Option<int> {
    var own := posteam + " ";
    var other := Opponent(g, posteam) + " ";
    if mark == "50" then Some(50)
    else if StartsWith(mark, own) && AllDigits(mark[|own|..]) then Some(100 - DigitsValue(mark[|own|..]))
    else if StartsWith(mark, other) && AllDigits(mark[|other|..]) then Some(DigitsValue(mark[|other|..]))
    else None
  }

  /** A mark that starts with one team name and a space does not start with another. */
  lemma TeamPrefixesDiffer(a: string, b: string, rest: string)
    requires NoSpace(a) && NoSpace(b) && a != b
    ensures !StartsWith(b + " " + rest, a + " ")
  {
    var mark := b + " " + rest;
    if |a| + 1 <= |mark| {
      var i: nat;
      if |a| < |b| {
        i := |a|;
      } else if |a| == |b| {
        i :| i < |a| && a[i] != b[i];
      } else {
        i := |b|;
      }
      assert mark[..|a| + 1][i] != (a + " ")[i];
    }
  }

  lemma LabelIsNotMidfield(team: string, rest: string)
    ensures team + " " + rest != "50"
  {
    var mark := team + " " + rest;
    if |mark| == 2 {
      assert mark[|team|] != "50"[|team|];
    }
  }

  /** Every mark on the field reads back as the yard line it was made from. */
  lemma FieldPositionRoundTrip(yardline100: int, posteam: string, g: Game)
    requires 0 <= yardline100 <= 100
    requires NoSpace(g.home) && NoSpace(g.away) && g.home != g.away
    requires posteam == g.home || posteam == g.away
    ensures ReadFieldPosition(FormatFieldPosition(yardline100, posteam, g), posteam, g) == Some(yardline100)
  {
    var mark := FormatFieldPosition(yardline100, posteam, g);
    var other := Opponent(g, posteam);
    if yardline100 > 50 {
      var n := 100 - yardline100;
      LabelIsNotMidfield(posteam, NatToString(n));
      assert mark == (posteam + " ") + NatToString(n);
      assert mark[|posteam + " "|..] == NatToString(n);
      NatToStringRoundTrip(n);
    } else if yardline100 < 50 {
      LabelIsNotMidfield(other, NatToString(yardline100));
      TeamPrefixesDiffer(posteam, other, NatToString(yardline100));
      assert mark == (other + " ") + NatToString(yardline100);
      assert mark[|other + " "|..] == NatToString(yardline100);
      NatToStringRoundTrip(yardline100);
    }
  }

  /** `get_changeable_attributes` of each event class; a rush has none. */
  function ChangeableAttributes(kind: PlayKind): (r: Option<Attrs>)
    ensures r.Some? ==> PlayAttributes.Valid(r.value)
  {
    match kind
    case PassPlay(c) => Some([Entry("is_complete", Bool(c)), Entry("is_interception", Bool(false))])
    case InterceptionPlay => Some([Entry("is_complete", Bool(false)), Entry("is_interception", Bool(true))])
    case RushPlay => None
    case PuntPlay => Some([Entry("punt_it", Bool(false))])
    case FieldGoalPlay(good) => Some([Entry("made", Bool(good))])
    case ExtraPointPlay(good) => Some([Entry("made", Bool(good)), Entry("is_one_point", Bool(true))])
    case TwoPointPlay(good) => Some([Entry("made", Bool(good)), Entry("is_one_point", Bool(false))])
    case PenaltyPlay(_, _) => Some([Entry("called", Bool(true))])
  }

  /**
   * The widget the play card shows for each kind of play: a pass or an
   * interception gets the three-way dropdown on its recorded outcome, a
   * rush is read-only, a penalty is a "Penalty" toggle that starts called,
   * and the kicks get a success toggle on their first boolean (`made`, or
   * `punt_it` for a punt).
   */
  lemma ChangeableAttributesWidget(kind: PlayKind)
    ensures var w := Classify(ChangeableAttributes(kind));
      match kind
      case PassPlay(c) => w == Dropdown(PassOutcomes, if c then "Complete" else "Incomplete")
      case InterceptionPlay => w == Dropdown(PassOutcomes, "Interception")
      case RushPlay => w == ReadOnly
      case PuntPlay => w == Toggle("Success", "Failure", Failure)
      case FieldGoalPlay(good) => w == Toggle("Success", "Failure", if good then Success else Failure)
      case ExtraPointPlay(good) => w == Toggle("Success", "Failure", if good then Success else Failure)
      case TwoPointPlay(good) => w == Toggle("Success", "Failure", if good then Success else Failure)
      case PenaltyPlay(_, _) => w == Toggle("No Penalty", "Penalty", Failure)
  {
    var a := ChangeableAttributes(kind);
    if a.Some? {
      var e := a.value;
      assert Find(e[1..], "is_interception") == if |e| > 1 && e[1].key == "is_interception" then Some(0) else None;
      assert Find(e[1..], "is_complete") == None;
      assert Find(e[1..], "called") == None;
    }
  }

  /** The situation a play leaves: the fields `GameState` copies from a play. */
  datatype StateView = StateView(
    qtr: int, homeScore: int, awayScore: int,
    quarterSeconds: int, halfSeconds: int, gameSeconds: int,
    down: int, toGo: int, yrdln: string, yardline100: int,
    posteam: string, scoreDifferential: int)

  function ViewOf(p: PlayEvent): StateView {
    StateView(p.qtr, p.homeScore, p.awayScore, p.quarterSeconds, p.halfSeconds, p.gameSeconds,
              p.down, p.toGo, p.yrdln, p.yardline100, p.posteam, p.scoreDifferential)
  }

  predicate InGame(g: Game, team: string) {
    team == g.home || team == g.away
  }

  /** The random draws of one simulated play. */
  datatype Draw = Draw(choice: real, timeLost: int, num: real, gain: int, twoPoint: bool)

  /** A simulated play, or a touchdown together with its conversion try. */
  datatype Outcome = Single(play: PlayEvent) | Scored(touchdown: PlayEvent, conversion: PlayEvent)
  {
    function Last(): PlayEvent {
      if Single? then play else conversion
    }

    /** The plays in the order they are appended to the game. */
    function Plays(): (r: seq<PlayEvent>)
      ensures |r| > 0 && r[|r| - 1] == Last()
    {
      if Single? then [play] else [touchdown, conversion]
    }
  }

  /** What a simulation step returns, and the state it leaves behind. */
  datatype Step = Step(outcome: Outcome, after: StateView)

  /** A play built on the situation `v`: its scores and clock come from `v`. */
  function At(v: StateView, kind: PlayKind, down: int, toGo: int, yrdln: string, yardline100: int,
              yards: int, diff: int, posteam: string): PlayEvent
  {
    PlayEvent(kind, v.homeScore, v.awayScore, v.qtr, v.quarterSeconds, v.halfSeconds, v.gameSeconds,
              down, toGo, yrdln, yardline100, yards, diff, posteam)
  }

  /** `points` added to the side of the team with the ball. */
  function Credit(g: Game, v: StateView, points: int): StateView {
    v.(homeScore := v.homeScore + (if v.posteam == g.home then points else 0),
       awayScore := v.awayScore + (if v.posteam == g.away then points else 0))
  }

  function Rebase(v: StateView): StateView {
    v.(scoreDifferential := v.homeScore - v.awayScore)
  }

  /** A gain that does not reach the end zone: next down or a new first down. */
  function Advance(g: Game, v: StateView, kind: PlayKind, yards: int): PlayEvent {
    var yl := Max(0, v.yardline100 - yards);
    At(v, kind,
       if v.toGo > yards then v.down + 1 else 1,
       if v.toGo > yards then v.toGo - yards else 10,
       FormatFieldPosition(yl, v.posteam, g), yl, yards, v.scoreDifferential, v.posteam)
  }

  /** `simulate_xpat`: a one-point kick, forced by `made` when it is given. */
  function ExtraPoint(g: Game, v: StateView, num: real, made: Option<bool>): (r: Step)
    requires v.posteam in g.stats
    ensures r.outcome.Single? && r.outcome.play.kind.ExtraPointPlay?
  {
    var good := if made.Some? then made.value else num < 0.95 * g.stats[v.posteam].extraPointProb;
    var after := if good then Rebase(Credit(g, v, 1)) else v;
    Step(Single(At(after, ExtraPointPlay(good), 1, 10, FormatFieldPosition(75, v.posteam, g), 75, 0,
                   after.scoreDifferential, Opponent(g, v.posteam))), after)
  }

  /** `simulate_2pat`: a two-point try, forced by `made` when it is given. */
  function TwoPoint(g: Game, v: StateView, num: real, made: Option<bool>): (r: Step)
    requires v.posteam in g.stats
    ensures r.outcome.Single? && r.outcome.play.kind.TwoPointPlay?
  {
    var good := if made.Some? then made.value else num < 0.45 * g.stats[v.posteam].twoPointConversionProb;
    var after := if good then Rebase(Credit(g, v, 2)) else v;
    Step(Single(At(after, TwoPointPlay(good), 1, 10, FormatFieldPosition(75, v.posteam, g), 75, 0,
                   after.scoreDifferential, Opponent(g, v.posteam))), after)
  }

  /**
   * A touchdown: six points for the team with the ball, the scoring play
   * handing the ball to the other team at its 25, then the conversion try.
   */
  function Touchdown(g: Game, v: StateView, kind: PlayKind, mark: string, yards: int, num: real, twoPoint: bool): Step
    requires v.posteam in g.stats
  {
    var scored := Rebase(Credit(g, v, 6));
    var td := At(scored, kind, 1, 10, mark, 75, yards, scored.scoreDifferential, Opponent(g, v.posteam));
    var pat := if twoPoint then TwoPoint(g, scored, num, None) else ExtraPoint(g, scored, num, None);
    Step(Scored(td, pat.outcome.play), pat.after)
  }

  /**
   * The mark the scoring play of a passing touchdown gets, as written: the
   * conditional expression binds so that a home-team touchdown is labelled
   * with the away team's name alone.
   */
  function PassTouchdownLabelAsWritten(g: Game, v: StateView, yards: int): string {
    var yl := Max(0, v.yardline100 - yards);
    if yl > 50 then v.posteam + " " + IntToString(yl)
    else if v.posteam == g.home then g.away
    else g.home + " " + IntToString(yl)
  }

  /** The mark the scoring play of a passing touchdown evidently should get. */
  function PassTouchdownLabel(g: Game, v: StateView, yards: int): string {
    FormatFieldPosition(Max(0, v.yardline100 - yards), v.posteam, g)
  }

  /** `simulate_completion`: the gain is at least -5; reaching the end zone scores. */
  function Completion(g: Game, v: StateView, num: real, gain: int, twoPoint: bool): Step
    requires v.posteam in g.stats
  {
    var yards := Max(-5, gain);
    if v.yardline100 - yards <= 0 then
      Touchdown(g, v, PassPlay(true), PassTouchdownLabel(g, v, yards), yards, num, twoPoint)
    else
      Step(Single(Advance(g, v, PassPlay(true), yards)), v)
  }

  /** `simulate_interception`: the other team takes over at the mirrored yard line. */
  function Interception(g: Game, v: StateView): PlayEvent {
    var other := Opponent(g, v.posteam);
    At(v, InterceptionPlay, 1, 10, FormatFieldPosition(100 - v.yardline100, other, g),
       100 - v.yardline100, 0, v.scoreDifferential, other)
  }

  /** `simulate_incompletion`: no gain, next down. */
  function Incompletion(g: Game, v: StateView): PlayEvent {
    Advance(g, v, PassPlay(false), 0)
  }

  /** `simulate_rush`: the gain is at least -10; reaching the end zone scores. */
  function Rush(g: Game, v: StateView, num: real, gain: int, twoPoint: bool): Step
    requires v.posteam in g.stats
  {
    var yards := Max(-10, gain);
    if v.yardline100 - yards <= 0 then
      Touchdown(g, v, RushPlay, Opponent(g, v.posteam) + " " + IntToString(25), yards, num, twoPoint)
    else
      Step(Single(Advance(g, v, RushPlay, yards)), v)
  }

  /**
   * `simulate_field_goal`: good when the draw (0 if forced made, 1 if forced
   * missed) is below the distance curve times the team's rate. A good kick
   * scores three; the play's differential moves by three as written, while
   * the state's differential is left alone.
   */
  function FieldGoal(g: Game, v: StateView, num: real, made: Option<bool>): Step
    requires v.posteam in g.stats
  {
    var distance := v.yardline100 + 17;
    var n := if made.Some? then (if made.value then 0.0 else 1.0) else num;
    var good := n < g.kickCurve(distance) * g.stats[v.posteam].fieldGoalProb;
    var after := if good then Credit(g, v, 3) else v;
    var diff := if !good then v.scoreDifferential
                else if v.posteam == g.away then v.scoreDifferential + 3 else v.scoreDifferential - 3;
    var yl := if !good then 100 - v.yardline100 else 75;
    var other := Opponent(g, v.posteam);
    Step(Single(At(after, FieldGoalPlay(good), 1, 10, FormatFieldPosition(yl, other, g), yl, 0, diff, other)), after)
  }

  /** `simulate_punt`: at least 20 yards; a punt into the end zone comes out at the 25. */
  function Punt(g: Game, v: StateView, gain: int): PlayEvent {
    var distance := Max(20, gain);
    var landing := if v.yardline100 - distance <= 0 then 25 else v.yardline100 - distance;
    var other := Opponent(g, v.posteam);
    At(v, PuntPlay, 1, 10, FormatFieldPosition(Max(0, 100 - landing), other, g), 100 - landing, 0,
       v.scoreDifferential, other)
  }

  datatype PlayType = PassType | RushType | FieldGoalType | PuntType

  /** The weighted pass probability: 0.7 of the yards-to-go curve, 0.3 of the team's pass share. */
  function PassProbability(g: Game, v: StateView): real
    requires ValidGame(g) && v.posteam in g.stats
  {
    var st := g.stats[v.posteam];
    0.7 * g.passCurve(v.toGo) + 0.3 * ((st.passAttempts as real) / ((st.passAttempts + st.rushAttempts) as real))
  }

  /** The chance of kicking rather than punting on fourth down. */
  function FourthDownKickRate(yardline100: int): real {
    if yardline100 <= 35 then 0.7 else if yardline100 <= 50 then 0.4 else 0.1
  }

  /** Late in a half, down by 0 to 3 and within 45 yards: kick. */
  predicate KickWindow(v: StateView) {
    v.halfSeconds <= 30 && v.scoreDifferential <= 0 && v.scoreDifferential >= -3 && v.yardline100 <= 45
  }

  /** `decide_play_type`, with `choice` the one uniform draw it makes. */
  function DecidePlayType(g: Game, v: StateView, choice: real): (t: PlayType)
    requires ValidGame(g) && v.posteam in g.stats
    ensures KickWindow(v) ==> t == FieldGoalType
    ensures !KickWindow(v) && (v.down < 4 || v.yardline100 <= 5) ==>
      (t == PassType <==> choice < PassProbability(g, v)) && (t == PassType || t == RushType)
    ensures !KickWindow(v) && v.down >= 4 && v.yardline100 > 5 ==>
      (t == FieldGoalType <==> choice < FourthDownKickRate(v.yardline100)) && (t == FieldGoalType || t == PuntType)
  {
    var passOrRush := if choice < PassProbability(g, v) then PassType else RushType;
    if KickWindow(v) then FieldGoalType
    else if v.down < 4 then passOrRush
    else if v.yardline100 <= 5 then passOrRush
    else if choice < FourthDownKickRate(v.yardline100) then FieldGoalType
    else PuntType
  }

  /**
   * The clock step at the start of `simulate_next_play`: the quarter clock
   * loses `timeLost`; when it runs out the next quarter starts with 900
   * seconds, the half clock is 900 in quarters 2 and 4 and 1800 otherwise,
   * and the game clock is whatever the full quarters left add up to. The
   * game and half clocks do not run within a quarter.
   */
  function ClockStep(v: StateView, timeLost: int): (c: StateView)
    ensures c.quarterSeconds > 0
    ensures c.(qtr := v.qtr, quarterSeconds := v.quarterSeconds, halfSeconds := v.halfSeconds, gameSeconds := v.gameSeconds) == v
  {
    var q := v.quarterSeconds - timeLost;
    if q <= 0 then
      var qtr := v.qtr + 1;
      v.(qtr := qtr, halfSeconds := if qtr == 2 || qtr == 4 then 900 else 1800,
         quarterSeconds := 900, gameSeconds := 3600 - (qtr - 1) * 900)
    else v.(quarterSeconds := q)
  }

  /** The order in which a running game's clock moves on. */
  function ClockRank(v: StateView): (nat, nat, nat) {
    (if v.gameSeconds > 0 then 1 else 0,
     if v.qtr < 5 then 5 - v.qtr else 0,
     if v.quarterSeconds > 0 then v.quarterSeconds else 0)
  }

  predicate RankBelow(a: (nat, nat, nat), b: (nat, nat, nat)) {
    a.0 < b.0 || (a.0 == b.0 && (a.1 < b.1 || (a.1 == b.1 && a.2 < b.2)))
  }

  /**
   * Each step of a running game moves the clock on: within a quarter the
   * quarter clock drops, and when it runs out either the quarter number
   * rises or, after the fourth quarter, the game clock reaches zero.
   */
  lemma ClockStepAdvances(v: StateView, timeLost: int)
    requires v.gameSeconds > 0 && timeLost >= 20
    ensures RankBelow(ClockRank(ClockStep(v, timeLost)), ClockRank(v))
  {
  }

  /** The game ends when the fourth quarter's clock runs out. */
  lemma FourthQuarterRunsOut(v: StateView, timeLost: int)
    requires v.qtr == 4 && v.quarterSeconds <= timeLost
    ensures ClockStep(v, timeLost).qtr == 5 && ClockStep(v, timeLost).gameSeconds == 0
  {
  }

  /** `simulate_next_play`: pick the play type, run the clock, then play it. */
  function NextPlay(g: Game, v: StateView, d: Draw): Step
    requires ValidGame(g) && InGame(g, v.posteam)
  {
    var playType := DecidePlayType(g, v, d.choice);
    var c := ClockStep(v, d.timeLost);
    var st := g.stats[c.posteam];
    match playType
    case PassType =>
      if d.num < st.completionProb then Completion(g, c, d.num, d.gain, d.twoPoint)
      else if d.num < st.completionProb + st.interceptionProb then Step(Single(Interception(g, c)), c)
      else Step(Single(Incompletion(g, c)), c)
    case RushType => Rush(g, c, d.num, d.gain, d.twoPoint)
    case FieldGoalType => FieldGoal(g, c, d.num, None)
    case PuntType => Step(Single(Punt(g, c, d.gain)), c)
  }

  /** `made` as the server passes it on: `null` means "not forced". */
  function MadeArgument(v: AttrValue): Option<bool> {
    if v.Null? then None else Some(v.Truthy())
  }

  /** The pass and interception `reroll`: interception first, then completion. */
  function RerollPass(g: Game, v: StateView, attrs: Attrs, d: Draw): Result<Outcome>
    requires v.posteam in g.stats
  {
    if !Has(attrs, "is_interception") then Err("KeyError: 'is_interception'")
    else if TruthyAt(attrs, "is_interception") then Ok(Single(Interception(g, v)))
    else if !Has(attrs, "is_complete") then Err("KeyError: 'is_complete'")
    else if TruthyAt(attrs, "is_complete") then Ok(Completion(g, v, d.num, d.gain, d.twoPoint).outcome)
    else Ok(Single(Incompletion(g, v)))
  }

  /** The extra-point and two-point `reroll`: `is_one_point` picks the try, `made` forces it. */
  function RerollConversion(g: Game, v: StateView, attrs: Attrs, d: Draw): Result<Outcome>
    requires v.posteam in g.stats
  {
    if !Has(attrs, "is_one_point") || !Has(attrs, "made") then Err("KeyError")
    else
      var made := MadeArgument(Get(attrs, "made").value);
      if TruthyAt(attrs, "is_one_point") then Ok(ExtraPoint(g, v, d.num, made).outcome)
      else Ok(TwoPoint(g, v, d.num, made).outcome)
  }

  /** The field-goal `reroll` as written: the kick is forced good whatever `made` says. */
  function RerollFieldGoalAsWritten(g: Game, v: StateView, attrs: Attrs, d: Draw): Result<Outcome>
    requires v.posteam in g.stats
  {
    Ok(FieldGoal(g, v, d.num, Some(true)).outcome)
  }

  /** The field-goal `reroll` as evidently intended: `made` forces the kick, like the conversions. */
  function RerollFieldGoal(g: Game, v: StateView, attrs: Attrs, d: Draw): Result<Outcome>
    requires v.posteam in g.stats
  {
    if !Has(attrs, "made") then Err("KeyError: 'made'")
    else Ok(FieldGoal(g, v, d.num, MadeArgument(Get(attrs, "made").value)).outcome)
  }

  /**
   * `reroll` of each event class on its own situation: a rush has none, a
   * punt that is not punted is a rush below 0.7 and otherwise fails on an
   * attribute the event does not have, and a penalty that is no longer
   * called is replaced by a freshly simulated play.
   */
  function Rerolled(g: Game, p: PlayEvent, attrs: Attrs, d: Draw): Result<Outcome>
    requires ValidGame(g) && InGame(g, p.posteam)
  {
    var v := ViewOf(p);
    match p.kind
    case PassPlay(_) => RerollPass(g, v, attrs, d)
    case InterceptionPlay => RerollPass(g, v, attrs, d)
    case RushPlay => Err("AttributeError: 'RushEvent' object has no attribute 'reroll'")
    case PuntPlay =>
      if !Has(attrs, "punt_it") then Err("KeyError: 'punt_it'")
      else if TruthyAt(attrs, "punt_it") then Ok(Single(Punt(g, v, d.gain)))
      else if d.num < 0.7 then Ok(Rush(g, v, d.num, d.gain, d.twoPoint).outcome)
      else Err("AttributeError: 'PuntEvent' object has no attribute 'game'")
    case FieldGoalPlay(_) => RerollFieldGoal(g, v, attrs, d)
    case ExtraPointPlay(_) => RerollConversion(g, v, attrs, d)
    case TwoPointPlay(_) => RerollConversion(g, v, attrs, d)
    case PenaltyPlay(_, _) =>
      if !Has(attrs, "called") then Err("KeyError: 'called'")
      else if TruthyAt(attrs, "called") then Ok(Single(p))
      else Ok(NextPlay(g, v, d).outcome)
  }

  /** Scores never drop and the quarter never goes back from one play to the next. */
  predicate Follows(a: PlayEvent, b: PlayEvent) {
    a.homeScore <= b.homeScore && a.awayScore <= b.awayScore && a.qtr <= b.qtr
  }

  /** A play carries the clock of the situation it was played in. */
  predicate Carries(p: PlayEvent, c: StateView) {
    p.qtr == c.qtr && p.quarterSeconds == c.quarterSeconds
    && p.halfSeconds == c.halfSeconds && p.gameSeconds == c.gameSeconds
  }

  /** The points the side of `team` gained between two situations. */
  function Gained(g: Game, team: string, before: StateView, p: PlayEvent): int {
    if team == g.home then p.homeScore - before.homeScore else p.awayScore - before.awayScore
  }

  function Conceded(g: Game, team: string, before: StateView, p: PlayEvent): int {
    if team == g.home then p.awayScore - before.awayScore else p.homeScore - before.homeScore
  }

  /**
   * What holds of every simulated play from situation `c`: its plays carry
   * the clock of `c`, the ball stays with one of the two teams, and only the
   * team with the ball scores: nothing, a field goal, or a touchdown with a
   * missed, kicked or two-point conversion.
   */
  predicate SoundStep(g: Game, c: StateView, o: Outcome) {
    && Carries(o.Last(), c)
    && InGame(g, o.Last().posteam)
    && (o.Single? ==> c.homeScore <= o.play.homeScore && c.awayScore <= o.play.awayScore)
    && (o.Scored? ==> Carries(o.touchdown, c) && Follows(o.touchdown, o.conversion) && InGame(g, o.touchdown.posteam)
                      && Gained(g, c.posteam, c, o.touchdown) == 6 && Conceded(g, c.posteam, c, o.touchdown) == 0)
    && Conceded(g, c.posteam, c, o.Last()) == 0
    && Gained(g, c.posteam, c, o.Last()) in {0, 3, 6, 7, 8}
  }

  lemma TouchdownStep(g: Game, c: StateView, kind: PlayKind, mark: string, yards: int, num: real, twoPoint: bool)
    requires ValidGame(g) && InGame(g, c.posteam) && g.home != g.away
    ensures SoundStep(g, c, Touchdown(g, c, kind, mark, yards, num, twoPoint).outcome)
  {
  }

  lemma CompletionStep(g: Game, c: StateView, num: real, gain: int, twoPoint: bool)
    requires ValidGame(g) && InGame(g, c.posteam) && g.home != g.away
    ensures SoundStep(g, c, Completion(g, c, num, gain, twoPoint).outcome)
  {
    var yards := Max(-5, gain);
    if c.yardline100 - yards <= 0 {
      TouchdownStep(g, c, PassPlay(true), PassTouchdownLabel(g, c, yards), yards, num, twoPoint);
    }
  }

  lemma RushStep(g: Game, c: StateView, num: real, gain: int, twoPoint: bool)
    requires ValidGame(g) && InGame(g, c.posteam) && g.home != g.away
    ensures SoundStep(g, c, Rush(g, c, num, gain, twoPoint).outcome)
  {
    var yards := Max(-10, gain);
    if c.yardline100 - yards <= 0 {
      TouchdownStep(g, c, RushPlay, Opponent(g, c.posteam) + " " + IntToString(25), yards, num, twoPoint);
    }
  }

  /** One simulated play moves the clock forward and keeps the step sound. */
  lemma NextPlayStep(g: Game, v: StateView, d: Draw)
    requires ValidGame(g) && InGame(g, v.posteam) && g.home != g.away
    ensures var c := ClockStep(v, d.timeLost);
      c.qtr >= v.qtr && c.homeScore == v.homeScore && c.awayScore == v.awayScore && c.posteam == v.posteam
      && SoundStep(g, c, NextPlay(g, v, d).outcome)
  {
    var c := ClockStep(v, d.timeLost);
    var st := g.stats[c.posteam];
    var o := NextPlay(g, v, d).outcome;
    match DecidePlayType(g, v, d.choice)
    case PassType =>
      if d.num < st.completionProb {
        CompletionStep(g, c, d.num, d.gain, d.twoPoint);
        assert o == Completion(g, c, d.num, d.gain, d.twoPoint).outcome;
      } else if d.num < st.completionProb + st.interceptionProb {
        assert o == Single(Interception(g, c));
      } else {
        assert o == Single(Incompletion(g, c));
      }
    case RushType =>
      RushStep(g, c, d.num, d.gain, d.twoPoint);
    case FieldGoalType =>
      assert o == FieldGoal(g, c, d.num, None).outcome;
    case PuntType =>
      assert o == Single(Punt(g, c, d.gain));
  }

  /**
   * A gain short of the end zone (a completion, an incompletion or a rush)
   * keeps the ball with the same team and the scores as they were: a gain
   * of at least the distance to go is a new first and ten, anything less is
   * the next down with that much less to go, and the ball moves by the gain
   * but not past the goal line being defended.
   */
  lemma ShortGain(g: Game, c: StateView, num: real, gain: int, twoPoint: bool, rush: bool)
    requires ValidGame(g) && InGame(g, c.posteam)
    requires var yards := if rush then Max(-10, gain) else Max(-5, gain); c.yardline100 - yards > 0
    ensures var yards := if rush then Max(-10, gain) else Max(-5, gain);
      var s := if rush then Rush(g, c, num, gain, twoPoint) else Completion(g, c, num, gain, twoPoint);
      && s.outcome.Single? && s.after == c
      && var p := s.outcome.play;
      && p.posteam == c.posteam && p.homeScore == c.homeScore && p.awayScore == c.awayScore
      && p.yardsGained == yards
      && (yards >= c.toGo ==> p.down == 1 && p.toGo == 10)
      && (yards < c.toGo ==> p.down == c.down + 1 && p.toGo == c.toGo - yards)
      && p.yardline100 == Max(0, c.yardline100 - yards)
      && p.yrdln == FormatFieldPosition(p.yardline100, c.posteam, g)
  {
  }

  /** An incompletion is the next down at the same spot; a fourth-down incompletion is a fifth down. */
  lemma IncompletionKeepsSpot(g: Game, c: StateView)
    requires c.toGo > 0 && c.yardline100 >= 0
    ensures var p := Incompletion(g, c);
      p.kind == PassPlay(false) && p.posteam == c.posteam && p.down == c.down + 1 && p.toGo == c.toGo
      && p.yardline100 == c.yardline100 && p.yardsGained == 0
  {
  }

  /**
   * A conversion try forced by `made` is good exactly when `made` says so;
   * a good try adds one (kick) or two points to the side with the ball only,
   * and the differential is then home minus away.
   */
  lemma ForcedConversion(g: Game, c: StateView, num: real, made: bool, twoPoint: bool)
    requires InGame(g, c.posteam) && c.posteam in g.stats && g.home != g.away
    ensures var s := if twoPoint then TwoPoint(g, c, num, Some(made)) else ExtraPoint(g, c, num, Some(made));
      var p := s.outcome.play;
      var points := if twoPoint then 2 else 1;
      && (if twoPoint then p.kind == TwoPointPlay(made) else p.kind == ExtraPointPlay(made))
      && Gained(g, c.posteam, c, p) == (if made then points else 0)
      && Conceded(g, c.posteam, c, p) == 0
      && (made ==> p.scoreDifferential == p.homeScore - p.awayScore)
      && p.posteam == Opponent(g, c.posteam) && p.yardline100 == 75 && p.down == 1 && p.toGo == 10
  {
  }

  /**
   * An interception and a punt hand the ball to the other team at first and
   * ten: the interception at the mirrored spot, the punt where it lands,
   * or at the receiving team's 25 when it reaches the end zone.
   */
  lemma TurnoverFlips(g: Game, c: StateView, gain: int)
    ensures var i := Interception(g, c);
      i.posteam == Opponent(g, c.posteam) && i.down == 1 && i.toGo == 10 && i.yardline100 == 100 - c.yardline100
    ensures var p := Punt(g, c, gain);
      var distance := Max(20, gain);
      p.posteam == Opponent(g, c.posteam) && p.down == 1 && p.toGo == 10
      && (c.yardline100 - distance <= 0 ==> p.yardline100 == 75)
      && (c.yardline100 - distance > 0 ==> p.yardline100 == 100 - (c.yardline100 - distance))
  {
  }

  /** Intercepting back returns the ball to the first team at the first spot. */
  lemma InterceptionInvolution(g: Game, c: StateView)
    requires InGame(g, c.posteam) && g.home != g.away
    ensures var back := Interception(g, ViewOf(Interception(g, c)));
      back.posteam == c.posteam && back.yardline100 == c.yardline100 && back.yrdln == FormatFieldPosition(c.yardline100, c.posteam, g)
  {
  }

  /**
   * As written, the scoring play of a home-team passing touchdown is
   * labelled with the away team's name and no yard line, where every other
   * touchdown label names the team and the goal line.
   */
  lemma HomePassTouchdownLabelAsWritten(g: Game, c: StateView, gain: int)
    requires g.home != g.away && c.posteam == g.home && c.yardline100 - Max(-5, gain) <= 0
    ensures PassTouchdownLabelAsWritten(g, c, Max(-5, gain)) == g.away
    ensures PassTouchdownLabel(g, c, Max(-5, gain)) == g.away + " 0"
    ensures PassTouchdownLabelAsWritten(g, c, Max(-5, gain)) != PassTouchdownLabel(g, c, Max(-5, gain))
  {
    assert (g.away + " 0")[|g.away|] == ' ';
  }

  /** The corrected label names the team defending the goal line, at 0, for either side. */
  lemma PassTouchdownLabelAtGoalLine(g: Game, c: StateView, gain: int)
    requires g.home != g.away && InGame(g, c.posteam) && c.yardline100 - Max(-5, gain) <= 0
    ensures PassTouchdownLabel(g, c, Max(-5, gain)) == Opponent(g, c.posteam) + " 0"
    ensures c.posteam == g.away ==> PassTouchdownLabelAsWritten(g, c, Max(-5, gain)) == PassTouchdownLabel(g, c, Max(-5, gain))
  {
  }

  /**
   * As written, re-simulating a field goal always forces it good: a kick the
   * user marked as missed (`made: false`) still scores whenever the kick
   * has any chance at all.
   */
  lemma FieldGoalRerollAsWrittenIgnoresMade(g: Game, c: StateView, attrs: Attrs, d: Draw)
    requires c.posteam in g.stats
    requires g.kickCurve(c.yardline100 + 17) * g.stats[c.posteam].fieldGoalProb > 0.0
    ensures RerollFieldGoalAsWritten(g, c, attrs, d).Ok?
    ensures RerollFieldGoalAsWritten(g, c, attrs, d).value.play.kind == FieldGoalPlay(true)
  {
  }

  /**
   * With `made` honoured, the re-simulated kick is good exactly when `made`
   * says so, for any kick whose chance lies in (0, 1].
   */
  lemma FieldGoalRerollHonoursMade(g: Game, c: StateView, made: bool, d: Draw)
    requires c.posteam in g.stats
    requires var chance := g.kickCurve(c.yardline100 + 17) * g.stats[c.posteam].fieldGoalProb;
      0.0 < chance <= 1.0
    ensures var r := RerollFieldGoal(g, c, [Entry("made", Bool(made))], d);
      r.Ok? && r.value.play.kind == FieldGoalPlay(made)
  {
  }

  /** A penalty that stays called is not replayed: re-simulation keeps the recorded play. */
  lemma CalledPenaltyKept(g: Game, p: PlayEvent, attrs: Attrs, d: Draw)
    requires ValidGame(g) && InGame(g, p.posteam) && p.kind.PenaltyPlay?
    requires Has(attrs, "called") && TruthyAt(attrs, "called")
    ensures Rerolled(g, p, attrs, d) == Ok(Single(p))
  {
  }

  /** The situation a play leaves, held while the simulator works on it. */
  class GameState {
    var qtr: int
    var homeScore: int
    var awayScore: int
    var quarterSeconds: int
    var halfSeconds: int
    var gameSeconds: int
    var down: int
    var toGo: int
    var yrdln: string
    var yardline100: int
    var posteam: string
    var scoreDifferential: int
    /** Whether the game was still running when this state was taken; fixed at creation. */
    const playing: bool

    function View(): StateView
      reads this
    {
      StateView(qtr, homeScore, awayScore, quarterSeconds, halfSeconds, gameSeconds,
                down, toGo, yrdln, yardline100, posteam, scoreDifferential)
    }

    constructor FromPlay(p: PlayEvent)
      ensures View() == ViewOf(p)
      ensures playing <==> p.gameSeconds > 0
    {
      qtr := p.qtr;
      homeScore := p.homeScore;
      awayScore := p.awayScore;
      quarterSeconds := p.quarterSeconds;
      halfSeconds := p.halfSeconds;
      gameSeconds := p.gameSeconds;
      down := p.down;
      toGo := p.toGo;
      yrdln := p.yrdln;
      yardline100 := p.yardline100;
      posteam := p.posteam;
      scoreDifferential := p.scoreDifferential;
      playing := p.gameSeconds > 0;
    }

    /** Adds `points` to the side of the team with the ball. */
    method AddPoints(g: Game, points: int)
      modifies this
      ensures View() == Credit(g, old(View()), points)
    {
      homeScore := homeScore + (if posteam == g.home then points else 0);
      awayScore := awayScore + (if posteam == g.away then points else 0);
    }
  }

  /** The simulator of one loaded game. */
  class Simulator {
    const game: Game

    constructor (game: Game)
      ensures this.game == game
    {
      this.game := game;
    }

    /** `simulate_xpat`: draws the kick unless `made` forces it, and scores it on the state. */
    method SimulateExtraPoint(state: GameState, num: real, made: Option<bool>) returns (p: PlayEvent)
      requires state.posteam in game.stats
      modifies state
      ensures Step(Single(p), state.View()) == ExtraPoint(game, old(state.View()), num, made)
    {
      var isGood := num < 0.95 * game.stats[state.posteam].extraPointProb;
      if made.Some? {
        isGood := made.value;
      }
      if isGood {
        state.AddPoints(game, 1);
        state.scoreDifferential := state.homeScore - state.awayScore;
      }
      p := PlayEvent(ExtraPointPlay(isGood), state.homeScore, state.awayScore, state.qtr, state.quarterSeconds,
                     state.halfSeconds, state.gameSeconds, 1, 10, FormatFieldPosition(75, state.posteam, game), 75, 0,
                     state.scoreDifferential, Opponent(game, state.posteam));
    }

    /** `simulate_2pat`: draws the try unless `made` forces it, and scores it on the state. */
    method SimulateTwoPoint(state: GameState, num: real, made: Option<bool>) returns (p: PlayEvent)
      requires state.posteam in game.stats
      modifies state
      ensures Step(Single(p), state.View()) == TwoPoint(game, old(state.View()), num, made)
    {
      var isGood := num < 0.45 * game.stats[state.posteam].twoPointConversionProb;
      if made.Some? {
        isGood := made.value;
      }
      if isGood {
        state.AddPoints(game, 2);
        state.scoreDifferential := state.homeScore - state.awayScore;
      }
      p := PlayEvent(TwoPointPlay(isGood), state.homeScore, state.awayScore, state.qtr, state.quarterSeconds,
                     state.halfSeconds, state.gameSeconds, 1, 10, FormatFieldPosition(75, state.posteam, game), 75, 0,
                     state.scoreDifferential, Opponent(game, state.posteam));
    }

    /** The touchdown branch shared by passes and rushes, conversion included. */
    method ScoreTouchdown(state: GameState, kind: PlayKind, mark: string, yards: int, num: real, twoPoint: bool)
      returns (o: Outcome)
      requires state.posteam in game.stats
      modifies state
      ensures Step(o, state.View()) == Touchdown(game, old(state.View()), kind, mark, yards, num, twoPoint)
    {
      state.AddPoints(game, 6);
      state.scoreDifferential := state.homeScore - state.awayScore;
      var td := PlayEvent(kind, state.homeScore, state.awayScore, state.qtr, state.quarterSeconds,
                          state.halfSeconds, state.gameSeconds, 1, 10, mark, 75, yards,
                          state.scoreDifferential, Opponent(game, state.posteam));
      var pat;
      if twoPoint {
        pat := SimulateTwoPoint(state, num, None);
      } else {
        pat := SimulateExtraPoint(state, num, None);
      }
      o := Scored(td, pat);
    }

    /** `simulate_completion`. */
    method SimulateCompletion(state: GameState, num: real, gain: int, twoPoint: bool) returns (o: Outcome)
      requires state.posteam in game.stats
      modifies state
      ensures Step(o, state.View()) == Completion(game, old(state.View()), num, gain, twoPoint)
    {
      var yardsGained := Max(-5, gain);
      if state.yardline100 - yardsGained <= 0 {
        o := ScoreTouchdown(state, PassPlay(true), PassTouchdownLabel(game, state.View(), yardsGained),
                            yardsGained, num, twoPoint);
      } else {
        o := Single(Advance(game, state.View(), PassPlay(true), yardsGained));
      }
    }

    /** `simulate_interception`; the state is left as it is. */
    method SimulateInterception(state: GameState) returns (p: PlayEvent)
      ensures p == Interception(game, state.View())
    {
      var other := Opponent(game, state.posteam);
      p := PlayEvent(InterceptionPlay, state.homeScore, state.awayScore, state.qtr, state.quarterSeconds,
                     state.halfSeconds, state.gameSeconds, 1, 10,
                     FormatFieldPosition(100 - state.yardline100, other, game), 100 - state.yardline100, 0,
                     state.scoreDifferential, other);
    }

    /** `simulate_incompletion`; the state is left as it is. */
    method SimulateIncompletion(state: GameState) returns (p: PlayEvent)
      ensures p == Incompletion(game, state.View())
    {
      p := Advance(game, state.View(), PassPlay(false), 0);
    }

    /** `simulate_rush`. */
    method SimulateRush(state: GameState, num: real, gain: int, twoPoint: bool) returns (o: Outcome)
      requires state.posteam in game.stats
      modifies state
      ensures Step(o, state.View()) == Rush(game, old(state.View()), num, gain, twoPoint)
    {
      var yardsGained := Max(-10, gain);
      if state.yardline100 - yardsGained <= 0 {
        o := ScoreTouchdown(state, RushPlay, Opponent(game, state.posteam) + " " + IntToString(25),
                            yardsGained, num, twoPoint);
      } else {
        o := Single(Advance(game, state.View(), RushPlay, yardsGained));
      }
    }

    /** `simulate_field_goal`: a good kick scores on the state but leaves its differential. */
    method SimulateFieldGoal(state: GameState, num: real, made: Option<bool>) returns (p: PlayEvent)
      requires state.posteam in game.stats
      modifies state
      ensures Step(Single(p), state.View()) == FieldGoal(game, old(state.View()), num, made)
    {
      ghost var v := state.View();
      var team := state.posteam;
      var distance := state.yardline100 + 17;
      var chance := game.kickCurve(distance);
      var n := num;
      if made.Some? {
        n := if made.value then 0.0 else 1.0;
      }
      var isGood := n < chance * game.stats[team].fieldGoalProb;
      var diff := if !isGood then state.scoreDifferential
                  else if team == game.away then state.scoreDifferential + 3 else state.scoreDifferential - 3;
      var yl := if !isGood then 100 - state.yardline100 else 75;
      if isGood {
        state.AddPoints(game, 3);
      }
      assert state.View() == FieldGoal(game, v, num, made).after;
      var other := Opponent(game, team);
      p := PlayEvent(FieldGoalPlay(isGood), state.homeScore, state.awayScore, state.qtr, state.quarterSeconds,
                     state.halfSeconds, state.gameSeconds, 1, 10, FormatFieldPosition(yl, other, game), yl, 0,
                     diff, other);
    }

    /** `simulate_punt`; the state is left as it is. */
    method SimulatePunt(state: GameState, gain: int) returns (p: PlayEvent)
      ensures p == Punt(game, state.View(), gain)
    {
      var distance := Max(20, gain);
      var landing := if state.yardline100 - distance <= 0 then 25 else state.yardline100 - distance;
      var other := Opponent(game, state.posteam);
      p := PlayEvent(PuntPlay, state.homeScore, state.awayScore, state.qtr, state.quarterSeconds,
                     state.halfSeconds, state.gameSeconds, 1, 10,
                     FormatFieldPosition(Max(0, 100 - landing), other, game), 100 - landing, 0,
                     state.scoreDifferential, other);
    }

    /** `simulate_next_play`: decide, run the clock on the state, then play. */
    method SimulateNextPlay(state: GameState, d: Draw) returns (o: Outcome)
      requires ValidGame(game) && InGame(game, state.posteam)
      modifies state
      ensures Step(o, state.View()) == NextPlay(game, old(state.View()), d)
    {
      var playType := DecidePlayType(game, state.View(), d.choice);
      state.quarterSeconds := state.quarterSeconds - d.timeLost;
      if state.quarterSeconds <= 0 {
        state.qtr := state.qtr + 1;
        if state.qtr == 2 || state.qtr == 4 {
          state.halfSeconds := 900;
        } else {
          state.halfSeconds := 1800;
        }
        state.quarterSeconds := 900;
        state.gameSeconds := 3600 - (state.qtr - 1) * 900;
      }
      assert state.View() == ClockStep(old(state.View()), d.timeLost);
      var num := d.num;
      var st := game.stats[state.posteam];
      match playType {
        case PassType =>
          if num < st.completionProb {
            o := SimulateCompletion(state, num, d.gain, d.twoPoint);
          } else if num < st.completionProb + st.interceptionProb {
            var p := SimulateInterception(state);
            o := Single(p);
          } else {
            var p := SimulateIncompletion(state);
            o := Single(p);
          }
        case RushType =>
          o := SimulateRush(state, num, d.gain, d.twoPoint);
        case FieldGoalType =>
          var p := SimulateFieldGoal(state, num, None);
          o := Single(p);
        case PuntType =>
          var p := SimulatePunt(state, d.gain);
          o := Single(p);
      }
    }

    /** The pass and interception `reroll`. */
    method RerollPassing(state: GameState, attrs: Attrs, d: Draw) returns (r: Result<Outcome>)
      requires state.posteam in game.stats
      modifies state
      ensures r == RerollPass(game, old(state.View()), attrs, d)
    {
      if !Has(attrs, "is_interception") {
        r := Err("KeyError: 'is_interception'");
      } else if TruthyAt(attrs, "is_interception") {
        var p := SimulateInterception(state);
        r := Ok(Single(p));
      } else if !Has(attrs, "is_complete") {
        r := Err("KeyError: 'is_complete'");
      } else if TruthyAt(attrs, "is_complete") {
        var o := SimulateCompletion(state, d.num, d.gain, d.twoPoint);
        r := Ok(o);
      } else {
        var p := SimulateIncompletion(state);
        r := Ok(Single(p));
      }
    }

    /** `reroll` on a fresh state taken from the play being changed. */
    method Reroll(play: PlayEvent, attrs: Attrs, d: Draw) returns (r: Result<Outcome>)
      requires ValidGame(game) && InGame(game, play.posteam)
      ensures r == Rerolled(game, play, attrs, d)
    {
      var state := new GameState.FromPlay(play);
      match play.kind {
        case PassPlay(_) =>
          r := RerollPassing(state, attrs, d);
        case InterceptionPlay =>
          r := RerollPassing(state, attrs, d);
        case RushPlay =>
          r := Err("AttributeError: 'RushEvent' object has no attribute 'reroll'");
        case PuntPlay =>
          if !Has(attrs, "punt_it") {
            r := Err("KeyError: 'punt_it'");
          } else if TruthyAt(attrs, "punt_it") {
            var p := SimulatePunt(state, d.gain);
            r := Ok(Single(p));
          } else if d.num < 0.7 {
            var o := SimulateRush(state, d.num, d.gain, d.twoPoint);
            r := Ok(o);
          } else {
            r := Err("AttributeError: 'PuntEvent' object has no attribute 'game'");
          }
        case FieldGoalPlay(_) =>
          if !Has(attrs, "made") {
            r := Err("KeyError: 'made'");
          } else {
            var p := SimulateFieldGoal(state, d.num, MadeArgument(Get(attrs, "made").value));
            r := Ok(Single(p));
          }
        case ExtraPointPlay(_) =>
          r := RerollKick(state, attrs, d);
        case TwoPointPlay(_) =>
          r := RerollKick(state, attrs, d);
        case PenaltyPlay(_, _) =>
          if !Has(attrs, "called") {
            r := Err("KeyError: 'called'");
          } else if TruthyAt(attrs, "called") {
            r := Ok(Single(play));
          } else {
            var o := SimulateNextPlay(state, d);
            r := Ok(o);
          }
      }
    }

    /** The extra-point and two-point `reroll`. */
    method RerollKick(state: GameState, attrs: Attrs, d: Draw) returns (r: Result<Outcome>)
      requires state.posteam in game.stats
      modifies state
      ensures r == RerollConversion(game, old(state.View()), attrs, d)
    {
      if !Has(attrs, "is_one_point") || !Has(attrs, "made") {
        r := Err("KeyError");
      } else if TruthyAt(attrs, "is_one_point") {
        var p := SimulateExtraPoint(state, d.num, MadeArgument(Get(attrs, "made").value));
        r := Ok(Single(p));
      } else {
        var p := SimulateTwoPoint(state, d.num, MadeArgument(Get(attrs, "made").value));
        r := Ok(Single(p));
      }
    }

    /**
     * One turn of the loop of `simulate_from`: `simulate_next_play` on the
     * state of the running game that play `last` left, then a fresh state
     * from the last play it returns. Its plays are the first of those
     * `PlaysAfter` gives after `last` when `d` is draw number `n`.
     */
    method PlayOn(state: GameState, d: Draw, ghost last: PlayEvent, ghost draws: nat -> Draw, ghost n: nat)
      returns (o: Outcome, next: GameState)
      requires ValidGame(game) && InGame(game, last.posteam) && game.home != game.away
      requires forall k :: 20 <= draws(k).timeLost
      requires state.View() == ViewOf(last) && last.gameSeconds > 0 && d == draws(n)
      modifies state
      ensures o == NextPlay(game, ViewOf(last), d).outcome
      ensures StepFrom(game, ViewOf(last), d.timeLost, o)
      ensures InGame(game, o.Last().posteam)
      ensures RankBelow(ClockRank(ViewOf(o.Last())), ClockRank(ViewOf(last)))
      ensures PlaysAfter(game, last, draws, n) == o.Plays() + PlaysAfter(game, o.Last(), draws, n + 1)
      ensures fresh(next) && next.View() == ViewOf(o.Last()) && (next.playing <==> o.Last().gameSeconds > 0)
    {
      o := SimulateNextPlay(state, d);
      StepAdvances(game, ViewOf(last), d);
      PlaysAfterStep(game, last, draws, n);
      next := new GameState.FromPlay(o.Last());
    }

    /**
     * The loop of `simulate_from`: from play `p`, simulate play after play,
     * each from the situation the last one left and with the next draw,
     * until the game clock has run out. The result is `p` followed by the
     * plays `PlaysAfter` gives.
     */
    method PlayOut(p: PlayEvent, draws: nat -> Draw) returns (plays: seq<PlayEvent>)
      requires ValidGame(game) && InGame(game, p.posteam) && game.home != game.away
      requires forall n :: 20 <= draws(n).timeLost <= 40
      ensures plays == [p] + PlaysAfter(game, p, draws, 0)
      ensures plays[|plays| - 1].gameSeconds <= 0 && Run(game, plays, 0)
    {
      ghost var whole := [p] + PlaysAfter(game, p, draws, 0);
      plays := [p];
      var state := new GameState.FromPlay(p);
      ghost var last := p;
      var n := 0;
      while state.playing
        invariant fresh(state)
        invariant InGame(game, last.posteam) && state.View() == ViewOf(last)
        invariant state.playing <==> last.gameSeconds > 0
        invariant plays + PlaysAfter(game, last, draws, n) == whole
        decreases ClockRank(ViewOf(last)).0, ClockRank(ViewOf(last)).1, ClockRank(ViewOf(last)).2
      {
        var o;
        o, state := PlayOn(state, draws(n), last, draws, n);
        assert plays + PlaysAfter(game, last, draws, n) == (plays + o.Plays()) + PlaysAfter(game, o.Last(), draws, n + 1);
        plays := plays + o.Plays();
        last := o.Last();
        n := n + 1;
      }
      PlaysAfterRun(game, p, draws, 0);
    }

    /**
     * `simulate_from`: keep the recorded plays before `start`, re-simulate the
     * changed play, then simulate play after play until the game clock has
     * run out, and return everything but the last play. `full` is the list
     * before that last play is dropped. A re-simulated change that scores a
     * touchdown comes back as a pair, which the source then fails to read a
     * state from; that is an error here too.
     */
    method SimulateFrom(attrs: Attrs, start: nat, changePlay: PlayEvent, first: Draw, draws: nat -> Draw)
      returns (r: Result<seq<PlayEvent>>, ghost full: seq<PlayEvent>)
      requires ValidGame(game) && InGame(game, changePlay.posteam) && game.home != game.away
      requires forall n :: 20 <= draws(n).timeLost <= 40
      ensures var changed := Rerolled(game, changePlay, attrs, first);
        r.Err? <==> changed.Err? || changed.value.Scored?
      ensures r.Ok? ==> var kept := Min(start, |game.plays|);
        && |full| == |r.value| + 1 && r.value == full[..|full| - 1]
        && kept < |full| && full[..kept] == game.plays[..kept]
        && full[kept] == Rerolled(game, changePlay, attrs, first).value.play
        && InGame(game, full[kept].posteam)
        && full == game.plays[..kept] + [full[kept]] + PlaysAfter(game, full[kept], draws, 0)
        && full[|full| - 1].gameSeconds <= 0
        && Run(game, full, kept)
    {
      var changed := Reroll(changePlay, attrs, first);
      if changed.Err? {
        return Err(changed.error), [];
      }
      if changed.value.Scored? {
        return Err("AttributeError: 'tuple' object has no attribute 'qtr'"), [];
      }
      var p := changed.value.play;
      RerolledInGame(game, changePlay, attrs, first);
      var kept := Min(start, |game.plays|);
      var rest := PlayOut(p, draws);
      var lastPlays := game.plays[..kept] + rest;
      PrefixRun(game, game.plays[..kept], rest);
      assert lastPlays == game.plays[..kept] + [p] + PlaysAfter(game, p, draws, 0);
      r := Ok(lastPlays[..|lastPlays| - 1]);
      full := lastPlays;
    }
  }

  /** What one loop step guarantees: a sound step from the stepped clock, which never runs backwards. */
  predicate StepFrom(g: Game, v: StateView, timeLost: int, o: Outcome) {
    var c := ClockStep(v, timeLost);
    c.qtr >= v.qtr && c.homeScore == v.homeScore && c.awayScore == v.awayScore && c.posteam == v.posteam
    && SoundStep(g, c, o)
  }

  /**
   * A stretch of simulated plays from position `kept` on: scores never drop
   * and the quarter never goes back from one play to the next, and every
   * play leaves the ball with one of the two teams.
   */
  predicate Run(g: Game, s: seq<PlayEvent>, kept: nat) {
    kept < |s|
    && (forall i :: kept <= i < |s| - 1 ==> Follows(s[i], s[i + 1]))
    && (forall i :: kept <= i < |s| ==> InGame(g, s[i].posteam))
  }

  /** One step of a running game is sound and moves the clock on. */
  lemma StepAdvances(g: Game, v: StateView, d: Draw)
    requires ValidGame(g) && InGame(g, v.posteam) && g.home != g.away
    requires v.gameSeconds > 0 && d.timeLost >= 20
    ensures StepFrom(g, v, d.timeLost, NextPlay(g, v, d).outcome)
    ensures RankBelow(ClockRank(ViewOf(NextPlay(g, v, d).outcome.Last())), ClockRank(v))
  {
    NextPlayStep(g, v, d);
    ClockStepAdvances(v, d.timeLost);
  }

  /**
   * The plays the loop of `simulate_from` appends after play `p`: nothing
   * once the game clock is out, otherwise the plays of `simulate_next_play`
   * from the situation `p` leaves, with draw number `n`, and then the plays
   * after the last of those, with the following draws.
   */
  function PlaysAfter(g: Game, p: PlayEvent, draws: nat -> Draw, n: nat): seq<PlayEvent>
    requires ValidGame(g) && InGame(g, p.posteam) && g.home != g.away
    requires forall k :: 20 <= draws(k).timeLost
    decreases ClockRank(ViewOf(p)).0, ClockRank(ViewOf(p)).1, ClockRank(ViewOf(p)).2, 1
  {
    if p.gameSeconds <= 0 then [] else PlaysOfTurn(g, p, draws, n)
  }

  /** The plays of the turn after `p`, which left time on the game clock, and then the plays after those. */
  function PlaysOfTurn(g: Game, p: PlayEvent, draws: nat -> Draw, n: nat): seq<PlayEvent>
    requires ValidGame(g) && InGame(g, p.posteam) && g.home != g.away
    requires forall k :: 20 <= draws(k).timeLost
    requires p.gameSeconds > 0
    decreases ClockRank(ViewOf(p)).0, ClockRank(ViewOf(p)).1, ClockRank(ViewOf(p)).2, 0
  {
    var o := NextPlay(g, ViewOf(p), draws(n)).outcome;
    StepAdvances(g, ViewOf(p), draws(n));
    o.Plays() + PlaysAfter(g, o.Last(), draws, n + 1)
  }

  /** One turn of the loop: the plays after `p` are those of its step, then those after the step. */
  lemma PlaysAfterStep(g: Game, p: PlayEvent, draws: nat -> Draw, n: nat)
    requires ValidGame(g) && InGame(g, p.posteam) && g.home != g.away
    requires forall k :: 20 <= draws(k).timeLost
    requires p.gameSeconds > 0
    ensures var o := NextPlay(g, ViewOf(p), draws(n)).outcome;
      InGame(g, o.Last().posteam)
      && PlaysAfter(g, p, draws, n) == o.Plays() + PlaysAfter(g, o.Last(), draws, n + 1)
  {
    StepAdvances(g, ViewOf(p), draws(n));
    assert PlaysAfter(g, p, draws, n) == PlaysOfTurn(g, p, draws, n);
  }

  /**
   * Whatever the draws, the simulated rest of a game is a run that ends
   * with the play that ran the game clock out.
   */
  lemma {:induction false} PlaysAfterRun(g: Game, p: PlayEvent, draws: nat -> Draw, n: nat)
    requires ValidGame(g) && InGame(g, p.posteam) && g.home != g.away
    requires forall k :: 20 <= draws(k).timeLost
    ensures var s := [p] + PlaysAfter(g, p, draws, n);
      s[|s| - 1].gameSeconds <= 0 && Run(g, s, 0)
    decreases ClockRank(ViewOf(p)).0, ClockRank(ViewOf(p)).1, ClockRank(ViewOf(p)).2
  {
    if p.gameSeconds > 0 {
      var d := draws(n);
      var o := NextPlay(g, ViewOf(p), d).outcome;
      StepAdvances(g, ViewOf(p), d);
      PlaysAfterStep(g, p, draws, n);
      var rest := PlaysAfter(g, o.Last(), draws, n + 1);
      PlaysAfterRun(g, o.Last(), draws, n + 1);
      RunThroughStep(g, p, d.timeLost, o, rest);
    }
  }

  /** A sound step from `p`, followed by a run from the step's last play, makes a run from `p`. */
  lemma RunThroughStep(g: Game, p: PlayEvent, timeLost: int, o: Outcome, rest: seq<PlayEvent>)
    requires InGame(g, p.posteam) && StepFrom(g, ViewOf(p), timeLost, o)
    requires var t := [o.Last()] + rest; t[|t| - 1].gameSeconds <= 0 && Run(g, t, 0)
    ensures var s := [p] + (o.Plays() + rest); s[|s| - 1].gameSeconds <= 0 && Run(g, s, 0)
  {
    ExtendRun(g, [p], 0, timeLost, o);
    JoinRuns(g, [p] + o.Plays(), [o.Last()] + rest);
    assert [p] + (o.Plays() + rest) == ([p] + o.Plays()) + ([o.Last()] + rest)[1..];
  }

  /** Two runs where the second starts with the last play of the first join into one. */
  lemma JoinRuns(g: Game, s: seq<PlayEvent>, t: seq<PlayEvent>)
    requires Run(g, s, 0) && Run(g, t, 0) && s[|s| - 1] == t[0]
    ensures Run(g, s + t[1..], 0)
    ensures (s + t[1..])[|s + t[1..]| - 1] == t[|t| - 1]
  {
    var u := s + t[1..];
    forall i | 0 <= i < |u| - 1 ensures Follows(u[i], u[i + 1]) {
      if i < |s| - 1 {
        assert u[i] == s[i] && u[i + 1] == s[i + 1];
      } else {
        assert u[i] == t[i - |s| + 1] && u[i + 1] == t[i - |s| + 2];
      }
    }
    forall i | 0 <= i < |u| ensures InGame(g, u[i].posteam) {
      if i < |s| {
        assert u[i] == s[i];
      } else {
        assert u[i] == t[i - |s| + 1];
      }
    }
  }

  /** Appending the plays of one sound step keeps a run a run. */
  lemma ExtendRun(g: Game, s: seq<PlayEvent>, kept: nat, timeLost: int, o: Outcome)
    requires Run(g, s, kept)
    requires StepFrom(g, ViewOf(s[|s| - 1]), timeLost, o)
    ensures Run(g, s + o.Plays(), kept)
    ensures (s + o.Plays())[..|s|] == s
  {
    var t := s + o.Plays();
    var last := s[|s| - 1];
    assert Follows(last, t[|s|]);
    if o.Scored? {
      assert t[|s| + 1] == o.conversion;
    }
  }

  /** Recorded plays put in front of a run leave it a run from where they end. */
  lemma PrefixRun(g: Game, kept: seq<PlayEvent>, s: seq<PlayEvent>)
    requires Run(g, s, 0)
    ensures Run(g, kept + s, |kept|)
    ensures (kept + s)[..|kept|] == kept && (kept + s)[|kept|] == s[0]
  {
    var t := kept + s;
    forall i | |kept| <= i < |t| - 1 ensures Follows(t[i], t[i + 1]) {
      assert t[i] == s[i - |kept|] && t[i + 1] == s[i - |kept| + 1];
    }
    forall i | |kept| <= i < |t| ensures InGame(g, t[i].posteam) {
      assert t[i] == s[i - |kept|];
    }
  }

  /** A re-simulated pass or interception is in the hands of one of the two teams. */
  lemma RerollPassInGame(g: Game, v: StateView, attrs: Attrs, d: Draw)
    requires ValidGame(g) && InGame(g, v.posteam) && g.home != g.away
    requires RerollPass(g, v, attrs, d).Ok?
    ensures InGame(g, RerollPass(g, v, attrs, d).value.Last().posteam)
  {
    CompletionStep(g, v, d.num, d.gain, d.twoPoint);
  }

  /** A re-simulated play is in the hands of one of the two teams. */
  lemma RerolledInGame(g: Game, p: PlayEvent, attrs: Attrs, d: Draw)
    requires ValidGame(g) && InGame(g, p.posteam) && g.home != g.away
    requires Rerolled(g, p, attrs, d).Ok?
    ensures InGame(g, Rerolled(g, p, attrs, d).value.Last().posteam)
  {
    var v := ViewOf(p);
    match p.kind {
      case PassPlay(_) =>
        assert Rerolled(g, p, attrs, d) == RerollPass(g, v, attrs, d);
        RerollPassInGame(g, v, attrs, d);
      case InterceptionPlay =>
        assert Rerolled(g, p, attrs, d) == RerollPass(g, v, attrs, d);
        RerollPassInGame(g, v, attrs, d);
      case PuntPlay => RushStep(g, v, d.num, d.gain, d.twoPoint);
      case PenaltyPlay(_, _) => NextPlayStep(g, v, d);
      case _ =>
    }
  }
}
